/** Reviewing and planning a storage move: what blocks it, which files it moves, and where to. An
    accepted preview of an orderly installation yields a manifest whose entries do not touch each
    other's files, so that the later phases stay on their chain. */
module MovePlan {
  import opened Wrappers
  import opened Paths
  import opened StorageTypes
  import opened Remapping
  import opened MoveSpec
  import opened MoveChain

  datatype Preview = Preview(
    report: Report,
    files: nat,
    collisions: set<Path>,
    blockers: set<Path>,
    destinationHasMedia: bool)

  /** The same place below the destination. */
  function TargetOf(report: Report, p: Path): Path {
    Remap(p, report, [])
  }

  function SourceTree(site: Site, files: Files, report: Report): set<Path>
    requires site.Valid()
  {
    if report.operation == SelectData then {}
    else Tree(site, files, report.source, report.operation == MoveData)
  }

  /** What stands at the destination, leaving aside data locks. */
  function Present(site: Site, files: Files, report: Report): set<Path>
    requires site.Valid()
  {
    set p | p in Tree(site, files, report.destination, false) && Name(p) != DATA_LOCK
  }

  /** Something lies below this path. */
  predicate IsDirectory(files: Files, p: Path) {
    exists f :: f in files && Inside(f, p)
  }

  /** A moved file meets a name at the destination that is used for something other than media. */
  predicate Clashes(site: Site, files: Files, report: Report, p: Path) {
    var target := TargetOf(report, p);
    if target in files then !site.Media(p) || !site.Media(target) else IsDirectory(files, target)
  }

  /** The files that stand where a moved file needs a directory, down to the n-th component. */
  function InTheWay(files: Files, report: Report, p: Path, n: int): set<Path> {
    var target := TargetOf(report, p);
    set k | n <= k < |target| && |report.destination| < k && target[..k] in files :: target[..k]
  }

  /** A moved media file meets another media file of the same name. */
  predicate Collides(site: Site, files: Files, report: Report, p: Path) {
    && p in files && TargetOf(report, p) in files && site.Media(p) && site.Media(TargetOf(report, p))
    && Digest(files[p]) != Digest(files[TargetOf(report, p)])
  }

  function Blockers(site: Site, files: Files, report: Report): set<Path>
    requires site.Valid()
  {
    (set p | p in Present(site, files, report) && !site.Media(p))
    + BlockersOf(site, files, report, SourceTree(site, files, report))
  }

  /** What keeps these files from their places: the place itself, or a file among its parents. */
  function BlockersOf(site: Site, files: Files, report: Report, moving: set<Path>): set<Path> {
    (set p | p in moving && Clashes(site, files, report, p) :: TargetOf(report, p))
    + (set p, q | p in moving && q in InTheWay(files, report, p, 0) :: q)
  }

  function CollisionsOf(site: Site, files: Files, report: Report, moving: set<Path>): set<Path> {
    set p | p in moving && Collides(site, files, report, p) :: TargetOf(report, p)
  }

  function Collisions(site: Site, files: Files, report: Report): set<Path>
    requires site.Valid()
  {
    CollisionsOf(site, files, report, SourceTree(site, files, report))
  }

  /** One more file adds what blocks it and what it collides with. */
  lemma ReviewOneMore(site: Site, files: Files, report: Report, moving: set<Path>, p: Path)
    ensures BlockersOf(site, files, report, moving + {p})
            == BlockersOf(site, files, report, moving) + InTheWay(files, report, p, 0)
               + if Clashes(site, files, report, p) then {TargetOf(report, p)} else {}
    ensures CollisionsOf(site, files, report, moving + {p})
            == CollisionsOf(site, files, report, moving)
               + if Collides(site, files, report, p) then {TargetOf(report, p)} else {}
  {
    hide InTheWay, Clashes, Collides;
  }

  predicate Accepted(site: Site, files: Files, report: Report, merge: bool)
    requires site.Valid()
  {
    && Separate(report.source, report.destination)
    && !(report.destination <= site.config)
    && Blockers(site, files, report) == {}
    && (Collisions(site, files, report) == {} || merge)
  }

  function ToSet(listing: seq<Path>): set<Path> { set p | p in listing }

  /** Lists a set of paths, each once. */
  method Walk(paths: set<Path>) returns (listing: seq<Path>)
    ensures ToSet(listing) == paths
    ensures forall i, j :: 0 <= i < j < |listing| ==> listing[i] != listing[j]
  {
    listing := [];
    var rest := paths;
    while rest != {}
      invariant ToSet(listing) + rest == paths
      invariant forall p :: p in listing ==> p !in rest
      invariant forall i, j :: 0 <= i < j < |listing| ==> listing[i] != listing[j]
      decreases rest
    {
      var p :| p in rest;
      listing, rest := listing + [p], rest - {p};
    }
  }

  method ReviewDestination(site: Site, files: Files, report: Report) returns (blockers: set<Path>, hasMedia: bool)
    requires site.Valid()
    ensures blockers == set p | p in Present(site, files, report) && !site.Media(p)
    ensures hasMedia <==> exists p :: p in Present(site, files, report) && site.Media(p)
  {
    blockers, hasMedia := {}, false;
    var present := Walk(Present(site, files, report));
    for i := 0 to |present|
      invariant blockers == set p | p in present[..i] && !site.Media(p)
      invariant hasMedia <==> exists p :: p in present[..i] && site.Media(p)
    {
      var p := present[i];
      assert present[..i + 1] == present[..i] + [p];
      if site.Media(p) {
        hasMedia := true;
      } else {
        blockers := blockers + {p};
      }
    }
    assert present[..|present|] == present;
    assert forall p :: p in present <==> p in ToSet(present);
  }

  /** The files among the parents of a moved file's place, looked at from the place upwards. */
  method ReviewParents(files: Files, report: Report, p: Path) returns (blockers: set<Path>)
    ensures blockers == InTheWay(files, report, p, 0)
  {
    blockers := {};
    var target := TargetOf(report, p);
    var n := |target|;
    while n - 1 > |report.destination|
      invariant n <= |target|
      invariant blockers == InTheWay(files, report, p, n)
    {
      n := n - 1;
      if target[..n] in files {
        blockers := blockers + {target[..n]};
      }
      assert forall q :: q in InTheWay(files, report, p, n) ==>
             q in InTheWay(files, report, p, n + 1) || q == target[..n];
    }
    assert InTheWay(files, report, p, n) == InTheWay(files, report, p, 0);
  }

  /** What one moved file meets at the destination. */
  method ReviewFile(site: Site, files: Files, report: Report, p: Path)
      returns (blockers: set<Path>, collisions: set<Path>)
    requires p in files
    ensures blockers == InTheWay(files, report, p, 0)
                        + if Clashes(site, files, report, p) then {TargetOf(report, p)} else {}
    ensures collisions == if Collides(site, files, report, p) then {TargetOf(report, p)} else {}
  {
    hide InTheWay;
    var target := TargetOf(report, p);
    collisions := {};
    blockers := ReviewParents(files, report, p);
    if target in files {
      if !site.Media(p) || !site.Media(target) {
        blockers := blockers + {target};
      } else if Digest(files[p]) != Digest(files[target]) {
        collisions := {target};
      }
    } else if IsDirectory(files, target) {
      blockers := blockers + {target};
    }
  }

  lemma ReviewNothing(site: Site, files: Files, report: Report)
    ensures BlockersOf(site, files, report, {}) == {} && CollisionsOf(site, files, report, {}) == {}
  {
  }

  method ReviewSource(site: Site, files: Files, report: Report) returns (blockers: set<Path>,
      collisions: set<Path>, count: nat)
    requires site.Valid()
    ensures blockers == BlockersOf(site, files, report, SourceTree(site, files, report))
    ensures collisions == Collisions(site, files, report)
    ensures count == |SourceTree(site, files, report)|
  {
    hide InTheWay, BlockersOf, CollisionsOf, Clashes, Collides;
    blockers, collisions := {}, {};
    var moving := Walk(SourceTree(site, files, report));
    assert forall p :: p in moving <==> p in ToSet(moving);
    ReviewNothing(site, files, report);
    assert ToSet(moving[..0]) == {};
    for i := 0 to |moving|
      invariant blockers == BlockersOf(site, files, report, ToSet(moving[..i]))
      invariant collisions == CollisionsOf(site, files, report, ToSet(moving[..i]))
    {
      var p := moving[i];
      assert p in ToSet(moving);
      assert ToSet(moving[..i + 1]) == ToSet(moving[..i]) + {p} by { assert moving[..i + 1] == moving[..i] + [p]; }
      ReviewOneMore(site, files, report, ToSet(moving[..i]), p);
      var blocking, colliding := ReviewFile(site, files, report, p);
      blockers, collisions := blockers + blocking, collisions + colliding;
    }
    assert moving[..|moving|] == moving;
    ListingLength(moving);
    count := |moving|;
  }

  /** Reviews a move without changing anything; None when the two roots, or the destination and the
      config, are nested. */
  method Review(site: Site, files: Files, report: Report) returns (result: Option<Preview>)
    requires site.Valid()
    ensures result.None? <==> !Separate(report.source, report.destination) || report.destination <= site.config
    ensures result.Some? ==>
              && result.value.report == report
              && result.value.blockers == Blockers(site, files, report)
              && result.value.collisions == Collisions(site, files, report)
              && result.value.files == |SourceTree(site, files, report)|
              && (result.value.destinationHasMedia <==> exists p :: p in Present(site, files, report) && site.Media(p))
  {
    if !Separate(report.source, report.destination) || report.destination <= site.config {
      return None;
    }
    var standing, hasMedia := ReviewDestination(site, files, report);
    var blockers, collisions, count := ReviewSource(site, files, report);
    return Some(Preview(report, count, collisions, standing + blockers, hasMedia));
  }

  lemma {:induction false} ListingLength(listing: seq<Path>)
    requires forall i, j :: 0 <= i < j < |listing| ==> listing[i] != listing[j]
    ensures |ToSet(listing)| == |listing|
  {
    if listing != [] {
      var last := listing[|listing| - 1];
      ListingLength(listing[..|listing| - 1]);
      assert ToSet(listing) == ToSet(listing[..|listing| - 1]) + {last};
    }
  }

  /** A file outside both directories, such as the journal of a config elsewhere, does not matter to the
      review. */
  lemma ReviewIgnores(site: Site, files: Files, report: Report, merge: bool, p: Path, content: Content)
    requires site.Valid() && !(report.source <= p) && !(report.destination <= p)
    ensures Accepted(site, files[p := content], report, merge) <==> Accepted(site, files, report, merge)
  {
    var more := files[p := content];
    assert Present(site, more, report) == Present(site, files, report);
    assert SourceTree(site, more, report) == SourceTree(site, files, report);
    forall q | q in SourceTree(site, files, report)
      ensures Clashes(site, more, report, q) == Clashes(site, files, report, q)
      ensures Collides(site, more, report, q) == Collides(site, files, report, q)
      ensures InTheWay(more, report, q, 0) == InTheWay(files, report, q, 0)
    {
      FileIgnores(site, files, report, p, content, q);
    }
    hide Clashes, Collides, InTheWay, Present, SourceTree;
    assert Blockers(site, more, report) == Blockers(site, files, report);
    assert Collisions(site, more, report) == Collisions(site, files, report);
  }

  lemma FileIgnores(site: Site, files: Files, report: Report, p: Path, content: Content, q: Path)
    requires Inside(q, report.source) && !(report.source <= p) && !(report.destination <= p)
    ensures Clashes(site, files[p := content], report, q) == Clashes(site, files, report, q)
    ensures Collides(site, files[p := content], report, q) == Collides(site, files, report, q)
    ensures InTheWay(files[p := content], report, q, 0) == InTheWay(files, report, q, 0)
  {
    var target := TargetOf(report, q);
    assert report.destination <= target;
    assert forall f :: Inside(f, target) ==> report.destination <= f;
    assert forall k :: |report.destination| < k < |target| ==> report.destination <= target[..k];
  }

  // ---- the manifest ----

  /** The names drawn for collisions: none is the start of another, and none starts a name in use. */
  ghost predicate FreshUuids(site: Site, files: Files, uuids: nat -> string) {
    && (forall i: nat, j: nat :: i != j ==> !(uuids(i) + "-" <= uuids(j) + "-"))
    && (forall i: nat, p :: p in files || p in Managed(site) ==> !(uuids(i) + "-" <= Name(p)))
  }

  /** The files the config names: two databases and the transport index. */
  function Managed(site: Site): set<Path> {
    {site.database, site.reliquary, site.transport + ["blobs.db"]}
  }

  function Movable(site: Site, files: Files, report: Report): set<Path>
    requires site.Valid()
  {
    set p | p in SourceTree(site, files, report) && Name(p) != DATA_LOCK
  }

  /** Something else already has this file's name at the destination. */
  predicate Taken(files: Files, report: Report, p: Path)
    requires p in files
  {
    TargetOf(report, p) in files && Digest(files[TargetOf(report, p)]) != Digest(files[p])
  }

  /** One manifest entry: the same place below the destination, or a fresh name beside a file that
      differs. */
  function EntryFor(files: Files, report: Report, p: Path, uuid: string): Entry
    requires p in files
  {
    var target := TargetOf(report, p);
    var destination :=
      if Taken(files, report, p) && target != [] then target[..|target| - 1] + [uuid + "-" + Name(target)] else target;
    Entry(p, destination, Digest(files[p]), None)
  }

  /** The manifest lists every movable file once, each with its own entry. */
  ghost predicate Manifest(site: Site, files: Files, report: Report, uuids: nat -> string, entries: seq<Entry>)
    requires site.Valid()
  {
    && Sources(entries) == Movable(site, files, report)
    && (forall i, j :: 0 <= i < j < |entries| ==> entries[i].source != entries[j].source)
    && (forall i :: 0 <= i < |entries| ==>
       entries[i].source in files && entries[i] == EntryFor(files, report, entries[i].source, uuids(i)))
  }

  /** The entries of the first files of a listing, none of them a forbidden collision. */
  ghost predicate EntriesOf(site: Site, files: Files, report: Report, merge: bool, uuids: nat -> string,
      listing: seq<Path>, entries: seq<Entry>)
  {
    && |entries| <= |listing|
    && forall j :: 0 <= j < |entries| ==>
         && listing[j] in files
         && entries[j] == EntryFor(files, report, listing[j], uuids(j))
         && (Taken(files, report, listing[j]) ==> merge && site.Media(listing[j]))
  }

  lemma EntriesExtend(site: Site, files: Files, report: Report, merge: bool, uuids: nat -> string,
      listing: seq<Path>, entries: seq<Entry>, p: Path)
    requires EntriesOf(site, files, report, merge, uuids, listing, entries)
    requires |entries| < |listing| && listing[|entries|] == p && p in files
    requires Taken(files, report, p) ==> merge && site.Media(p)
    ensures EntriesOf(site, files, report, merge, uuids, listing,
            entries + [EntryFor(files, report, p, uuids(|entries|))])
  {
  }

  lemma ListedManifest(site: Site, files: Files, report: Report, merge: bool, uuids: nat -> string,
      listing: seq<Path>, entries: seq<Entry>)
    requires site.Valid() && ToSet(listing) == Movable(site, files, report)
    requires forall i, j :: 0 <= i < j < |listing| ==> listing[i] != listing[j]
    requires EntriesOf(site, files, report, merge, uuids, listing, entries) && |entries| == |listing|
    ensures Manifest(site, files, report, uuids, entries)
    ensures forall p :: p in Movable(site, files, report) && Taken(files, report, p) ==> merge && site.Media(p)
  {
    forall p ensures p in Sources(entries) <==> p in ToSet(listing) {
      if p in Sources(entries) {
        var j :| 0 <= j < |entries| && entries[j].source == p;
        assert listing[j] == p;
      }
      if p in ToSet(listing) {
        var j :| 0 <= j < |listing| && listing[j] == p;
        assert entries[j] in entries;
      }
    }
    forall p | p in Movable(site, files, report) && Taken(files, report, p) ensures merge && site.Media(p) {
      assert p in ToSet(listing);
    }
  }

  /** Plans every file of the source; None when two files collide and may not be kept both. */
  method PlanEntries(site: Site, files: Files, report: Report, merge: bool, uuids: nat -> string)
    returns (result: Option<seq<Entry>>)
    requires site.Valid()
    ensures result.Some? <==> forall p :: p in Movable(site, files, report) && Taken(files, report, p) ==>
            merge && site.Media(p)
    ensures result.Some? ==> Manifest(site, files, report, uuids, result.value)
  {
    var entries: seq<Entry> := [];
    var moving := Walk(Movable(site, files, report));
    assert EntriesOf(site, files, report, merge, uuids, moving, entries);
    hide Manifest, EntriesOf, EntryFor;
    for i := 0 to |moving|
      invariant |entries| == i && EntriesOf(site, files, report, merge, uuids, moving, entries)
    {
      var p := moving[i];
      assert p in ToSet(moving);
      if Taken(files, report, p) && (!merge || !site.Media(p)) {
        return None;
      }
      EntriesExtend(site, files, report, merge, uuids, moving, entries, p);
      entries := entries + [EntryFor(files, report, p, uuids(i))];
    }
    ListedManifest(site, files, report, merge, uuids, moving, entries);
    return Some(entries);
  }

  /** Planning right after an accepted review of the same files never meets a forbidden collision. */
  lemma AcceptedNeverCollides(site: Site, files: Files, report: Report, merge: bool)
    requires site.Valid() && Accepted(site, files, report, merge)
    ensures forall p :: p in Movable(site, files, report) && Taken(files, report, p) ==> merge && site.Media(p)
  {
    var blockers, collisions := Blockers(site, files, report), Collisions(site, files, report);
    forall p | p in Movable(site, files, report) && Taken(files, report, p) ensures merge && site.Media(p) {
      var target := TargetOf(report, p);
      assert Clashes(site, files, report, p) ==> target in blockers;
      assert Collides(site, files, report, p) ==> target in collisions;
    }
  }

  // ---- a manifest is safe to follow ----

  lemma TargetInjective(report: Report, p: Path, q: Path)
    requires report.source <= p && report.source <= q && TargetOf(report, p) == TargetOf(report, q)
    ensures p == q
  {
    var n := |report.destination|;
    assert TargetOf(report, p)[n..] == p[|report.source|..] && TargetOf(report, q)[n..] == q[|report.source|..];
    assert p == report.source + p[|report.source|..] && q == report.source + q[|report.source|..];
  }

  lemma TargetKeepsName(report: Report, p: Path)
    requires Inside(p, report.source)
    ensures Inside(TargetOf(report, p), report.destination) && Name(TargetOf(report, p)) == Name(p)
  {
  }

  /** Where one entry goes: strictly below the destination, onto an identical file or a free name. */
  lemma EntryLands(site: Site, files: Files, report: Report, uuids: nat -> string, entries: seq<Entry>, i: nat)
    requires site.Valid() && FreshUuids(site, files, uuids) && Manifest(site, files, report, uuids, entries)
             && i < |entries|
    ensures var e := entries[i];
            && Inside(e.source, report.source) && Inside(e.destination, report.destination)
            && e.source in files && e.hash == Digest(files[e.source])
            && (e.destination in files ==> files[e.destination] == files[e.source])
            && (Taken(files, report, e.source) ==>
                  uuids(i) + "-" <= Name(e.destination) && e.destination != TargetOf(report, e.source))
            && (!Taken(files, report, e.source) ==>
                  e.destination == TargetOf(report, e.source) && Name(e.destination) == Name(e.source))
  {
    var e := entries[i];
    assert e in entries && e.source in Sources(entries);
    TargetKeepsName(report, e.source);
    var target := TargetOf(report, e.source);
    if Taken(files, report, e.source) {
      assert Name(e.destination) == uuids(i) + "-" + Name(target);
      assert e.destination[..|report.destination|] == target[..|report.destination|];
    }
  }

  lemma DestinationsDiffer(site: Site, files: Files, report: Report, uuids: nat -> string, entries: seq<Entry>,
      i: nat, j: nat)
    requires site.Valid() && FreshUuids(site, files, uuids) && Manifest(site, files, report, uuids, entries)
    requires i < |entries| && j < |entries| && i != j
    ensures entries[i].destination != entries[j].destination
  {
    EntryLands(site, files, report, uuids, entries, i);
    EntryLands(site, files, report, uuids, entries, j);
    assert entries[i].source != entries[j].source by { assert i < j || j < i; }
    if entries[i].destination == entries[j].destination {
      var name := Name(entries[i].destination);
      if Taken(files, report, entries[i].source) && Taken(files, report, entries[j].source) {
        PrefixesOfOne(uuids(i) + "-", uuids(j) + "-", name);
        assert false;
      } else if !Taken(files, report, entries[i].source) && !Taken(files, report, entries[j].source) {
        TargetInjective(report, entries[i].source, entries[j].source);
      }
    }
  }

  lemma PrefixesOfOne(a: string, b: string, s: string)
    requires a <= s && b <= s
    ensures a <= b || b <= a
  {
    if |a| <= |b| { assert a == b[..|a|]; } else { assert b == a[..|b|]; }
  }

  /** Following the manifest, no entry touches another's files: distinct sources to distinct
      destinations, and nothing at the destination in the way. */
  lemma ManifestIsOk(site: Site, files: Files, report: Report, merge: bool, uuids: nat -> string, entries: seq<Entry>)
    requires site.Valid() && Accepted(site, files, report, merge)
    requires FreshUuids(site, files, uuids) && Manifest(site, files, report, uuids, entries)
    ensures ManifestOk(files, entries) && Rooted(report, entries)
  {
    forall i | 0 <= i < |entries|
      ensures report.source <= entries[i].source && report.destination <= entries[i].destination
      ensures entries[i].source in files && Digest(files[entries[i].source]) == entries[i].hash
      ensures entries[i].destination in files ==> files[entries[i].destination] == files[entries[i].source]
    {
      EntryLands(site, files, report, uuids, entries, i);
    }
    forall i, j | 0 <= i < j < |entries| ensures entries[i].destination != entries[j].destination {
      DestinationsDiffer(site, files, report, uuids, entries, i, j);
    }
    forall p | p in Sources(entries) && p in Destinations(entries) ensures false {
      CommonDescendant(report.source, report.destination, p);
    }
  }

  // ---- from an orderly installation to a well planned move ----

  /** What the code takes for granted about an installation, all of it visible before the move: roots
      and transport are no files, the preferences are a file of their own outside the destination, and the
      databases and the transport index are files of their own that do not carry reserved or media names
      and do not lie inside the destination. */
  ghost predicate Orderly(site: Site, files: Files, q: Journal) {
    && site.Valid() && !site.Media(site.Pending())
    && var report := q.preview;
    && report.source !in files && report.destination !in files && report.destination !in Fixed(site, q)
    && site.transport !in files
    && (q.preferences.Some? ==>
          q.preferences.value.path !in Companions(site) && !(report.destination <= q.preferences.value.path))
    && (forall p :: p in Managed(site) ==>
          && p !in Fixed(site, q) && !site.Media(p) && Name(p) != DATA_LOCK
          && p != report.source && !(report.destination <= p))
    && site.transport + ["blobs.db"] !in {site.database, site.reliquary}
  }

  /** What planning checks: the review accepts the move, the config is the one that was queued, and the
      queued documents can be read. */
  predicate Plannable(site: Site, files: Files, q: Journal)
    requires site.Valid()
  {
    && Accepted(site, files, q.preview, q.merge)
    && site.config in files && files[site.config] == q.configBefore && q.configBefore.Document?
    && (q.preferences.Some? ==> q.preferences.value.before.Document?)
  }

  /** The move does not take its own journal along. */
  predicate JournalClear(site: Site, q: Journal)
    requires site.Valid()
  {
    !(q.preview.operation == MoveFetch && Inside(site.Pending(), q.preview.source))
  }

  /** The manifest saved for a queued move: its entries and the two documents it will switch to. */
  ghost predicate PlannedFrom(q: Journal, plan: Journal) {
    && plan.entries.Some? && q.configBefore.Document?
    && plan.configAfter == Some(Document(ConfigAfter(q.configBefore.doc, q.preview, plan.entries.value)))
    && (q.preferences.Some? ==> q.preferences.value.before.Document?)
    && plan == q.(entries := plan.entries, configAfter := plan.configAfter, preferences :=
         match q.preferences
         case None => None
         case Some(change) => Some(change.(after :=
           Some(Document(PreferencesAfter(change.before.doc, q.preview, plan.entries.value))))))
  }

  predicate FreshQueue(q: Journal) {
    && q.version == 1 && q.entries.None? && q.configAfter.None?
    && !q.copied && !q.pathsUpdated && !q.referencesUpdated && !q.committed
  }

  /** A managed file is moved to its own name, never to a drawn one. */
  lemma ManagedTarget(site: Site, files: Files, q: Journal, uuids: nat -> string, entries: seq<Entry>, p: Path)
    requires Orderly(site, files, q) && Accepted(site, files, q.preview, q.merge)
    requires FreshUuids(site, files, uuids) && Manifest(site, files, q.preview, uuids, entries)
    requires p in Managed(site)
    ensures q.preview.operation == MoveData ==> Remap(p, q.preview, entries) == TargetOf(q.preview, p)
  {
    var found := FindEntry(entries, p);
    if found.Some? {
      var i :| 0 <= i < |entries| && entries[i] == found.value;
      EntryLands(site, files, q.preview, uuids, entries, i);
      AcceptedNeverCollides(site, files, q.preview, q.merge);
      assert p in Sources(entries);
    }
  }

  /** The config's companions lie beside it, so a destination that does not contain the config does
      not contain them either. */
  lemma FixedOutsideDestination(site: Site, files: Files, q: Journal, p: Path)
    requires Orderly(site, files, q) && !(q.preview.destination <= site.config) && p in Fixed(site, q)
    ensures !(q.preview.destination <= p)
  {
    var d := q.preview.destination;
    CompanionsTogether(site, d);
    hide WithExtension;
    assert p in {site.config, site.Pending(), site.Backup()} && d <= p && d != p ==> Inside(p, d);
  }

  /** A managed file outside the source is not moved, and nothing is moved onto a managed file. */
  lemma ManagedStays(site: Site, files: Files, q: Journal, uuids: nat -> string, entries: seq<Entry>, p: Path)
    requires Orderly(site, files, q) && Accepted(site, files, q.preview, q.merge)
    requires FreshUuids(site, files, uuids) && Manifest(site, files, q.preview, uuids, entries)
    requires p in Managed(site)
    ensures !(q.preview.source <= p) ==> p !in Sources(entries)
    ensures p !in Destinations(entries)
  {
    forall i | 0 <= i < |entries|
      ensures !(q.preview.source <= p) ==> entries[i].source != p
      ensures entries[i].destination != p
    {
      EntryLands(site, files, q.preview, uuids, entries, i);
    }
  }

  /** A managed file below the source is rewritten at its new place, where nothing was before and
      nothing but its own copy lands. */
  lemma ManagedMoves(site: Site, files: Files, q: Journal, uuids: nat -> string, entries: seq<Entry>, p: Path)
    requires Orderly(site, files, q) && Accepted(site, files, q.preview, q.merge)
    requires FreshUuids(site, files, uuids) && Manifest(site, files, q.preview, uuids, entries)
    requires p in Managed(site) && q.preview.source <= p
    ensures var t := TargetOf(q.preview, p);
            && t !in Sources(entries) && t !in Fixed(site, q) && t !in files
            && (forall i :: 0 <= i < |entries| && entries[i].destination == t ==> entries[i].source == p)
  {
    var report, t := q.preview, TargetOf(q.preview, p);
    TargetKeepsName(report, p);
    assert !site.Media(t) && Name(t) != DATA_LOCK;
    var blockers := Blockers(site, files, report);
    assert t in files ==> t in blockers;
    if t in Fixed(site, q) {
      FixedOutsideDestination(site, files, q, t);
    }
    forall i | 0 <= i < |entries|
      ensures entries[i].source != t
      ensures entries[i].destination == t ==> entries[i].source == p
    {
      EntryLands(site, files, report, uuids, entries, i);
      if entries[i].source == t {
        CommonDescendant(report.source, report.destination, t);
      }
      if !Taken(files, report, entries[i].source) && entries[i].destination == t {
        TargetInjective(report, entries[i].source, p);
      }
    }
  }

  /** Where a managed file is rewritten. */
  function NewPlace(q: Journal, p: Path): Path {
    if q.preview.operation == MoveData then TargetOf(q.preview, p) else p
  }

  lemma ManagedPlace(site: Site, files: Files, q: Journal, uuids: nat -> string, entries: seq<Entry>, p: Path)
    requires Orderly(site, files, q) && Accepted(site, files, q.preview, q.merge)
    requires FreshUuids(site, files, uuids) && Manifest(site, files, q.preview, uuids, entries)
    requires p in Managed(site)
    ensures var t := NewPlace(q, p);
            && Target(p, q.preview, entries) == t
            && (q.preview.operation != MoveFetch ==> t !in Sources(entries)) && t !in Fixed(site, q)
            && (t in files ==> t == p && !(q.preview.destination <= t))
            && (q.preview.destination <= t <==> t != p)
            && (forall i :: 0 <= i < |entries| && entries[i].destination == t ==> entries[i].source == p)
            && (q.preview.operation == MoveFetch ==> t !in Destinations(entries))
  {
    if q.preview.operation == MoveData {
      ManagedTarget(site, files, q, uuids, entries, p);
    }
    if q.preview.operation == MoveData && q.preview.source <= p {
      ManagedMoves(site, files, q, uuids, entries, p);
      CommonDescendantOfTarget(q.preview, p);
    } else if q.preview.operation == SelectData && q.preview.source <= p {
      assert Movable(site, files, q.preview) == {};
      forall i | 0 <= i < |entries| ensures entries[i].source in Sources(entries) { assert entries[i] in entries; }
    } else {
      ManagedStays(site, files, q, uuids, entries, p);
      forall i | 0 <= i < |entries| ensures entries[i].destination != p { assert entries[i] in entries; }
    }
  }

  lemma CommonDescendantOfTarget(report: Report, p: Path)
    requires Separate(report.source, report.destination) && report.source <= p
    ensures TargetOf(report, p) != p
  {
    if TargetOf(report, p) == p {
      CommonDescendant(report.source, report.destination, p);
    }
  }

  /** Two managed files are never rewritten at one place. */
  lemma PlacesDiffer(site: Site, files: Files, q: Journal, uuids: nat -> string, entries: seq<Entry>, a: Path, b: Path)
    requires Orderly(site, files, q) && Accepted(site, files, q.preview, q.merge)
    requires FreshUuids(site, files, uuids) && Manifest(site, files, q.preview, uuids, entries)
    requires a in Managed(site) && b in Managed(site) && a != b
    ensures NewPlace(q, a) != NewPlace(q, b)
  {
    ManagedPlace(site, files, q, uuids, entries, a);
    ManagedPlace(site, files, q, uuids, entries, b);
    if q.preview.operation == MoveData && q.preview.source <= a && q.preview.source <= b {
      if NewPlace(q, a) == NewPlace(q, b) {
        TargetInjective(q.preview, a, b);
      }
    }
  }

  /** The transport index moves with its directory. */
  lemma IndexPlace(site: Site, files: Files, q: Journal, uuids: nat -> string, entries: seq<Entry>)
    requires Orderly(site, files, q)
    requires Manifest(site, files, q.preview, uuids, entries)
    ensures TransportIndex(site, q.preview, entries) == NewPlace(q, site.transport + ["blobs.db"])
  {
    assert forall e :: e in entries ==> e.source in files;
    TransportIsDirectory(site, files, q);
    hide Orderly, Manifest;
    IndexMovesAlong(site, q, entries);
  }

  lemma TransportIsDirectory(site: Site, files: Files, q: Journal)
    requires Orderly(site, files, q)
    ensures site.transport !in files && site.transport + ["blobs.db"] != q.preview.source
  {
    assert site.transport + ["blobs.db"] in Managed(site);
  }

  lemma IndexMovesAlong(site: Site, q: Journal, entries: seq<Entry>)
    requires forall e :: e in entries ==> e.source != site.transport
    requires site.transport + ["blobs.db"] != q.preview.source
    ensures TransportIndex(site, q.preview, entries) == NewPlace(q, site.transport + ["blobs.db"])
  {
    var source, index := q.preview.source, site.transport + ["blobs.db"];
    assert source <= index && !(source <= site.transport) ==> source == index;
    if source <= site.transport {
      assert index[|source|..] == site.transport[|source|..] + ["blobs.db"];
    }
  }

  /** The config and its companions are not moved. */
  lemma CompanionNotMovable(site: Site, files: Files, q: Journal, p: Path)
    requires site.Valid() && JournalClear(site, q) && p in Companions(site)
    ensures p !in Movable(site, files, q.preview)
  {
    hide Movable, WithExtension;
    MovableMeans(site, files, q.preview, p);
    CompanionsTogether(site, q.preview.source);
  }

  lemma MovableMeans(site: Site, files: Files, report: Report, p: Path)
    requires site.Valid()
    ensures p in Movable(site, files, report) ==>
              && Inside(p, report.source) && report.operation != SelectData
              && (report.operation == MoveData ==> !Retained(site, p, report.source))
  {
  }

  /** The config and its companions lie inside a directory together. */
  lemma CompanionsTogether(site: Site, d: Path)
    requires site.Valid()
    ensures Inside(site.config, d) <==> Inside(site.Pending(), d)
    ensures Inside(site.Backup(), d) <==> Inside(site.Pending(), d)
  {
    var n := |site.config| - 1;
    assert |site.Pending()| == n + 1 && site.Pending()[..n] == site.config[..n];
    assert |site.Backup()| == n + 1 && site.Backup()[..n] == site.config[..n];
    forall a, b | a in {site.config, site.Pending(), site.Backup()} && b in {site.config, site.Pending(), site.Backup()}
      ensures Inside(a, d) ==> Inside(b, d)
    {
      if Inside(a, d) { ContainsSiblings(d, a, b); }
    }
  }

  /** Nothing is landed on the fixed files, and the config and its companions stay where they are. */
  lemma FixedStays(site: Site, files: Files, q: Journal, uuids: nat -> string, entries: seq<Entry>)
    requires Orderly(site, files, q) && JournalClear(site, q) && Accepted(site, files, q.preview, q.merge)
    requires FreshUuids(site, files, uuids) && Manifest(site, files, q.preview, uuids, entries)
    ensures Fixed(site, q) !! Destinations(entries) && Companions(site) !! Sources(entries)
  {
    forall p, i | p in Fixed(site, q) && 0 <= i < |entries|
      ensures entries[i].destination != p && (p in Companions(site) ==> entries[i].source != p)
    {
      FixedOutsideDestination(site, files, q, p);
      if p in Companions(site) { CompanionNotMovable(site, files, q, p); }
      EntryLands(site, files, q.preview, uuids, entries, i);
      assert entries[i] in entries && entries[i].source in Sources(entries);
    }
  }

  /** Both managed places and the pending file survive taking the journal file out of the picture. */
  lemma ManifestWithoutJournal(site: Site, files: Files, q: Journal, uuids: nat -> string, entries: seq<Entry>)
    requires Orderly(site, files, q) && JournalClear(site, q) && Accepted(site, files, q.preview, q.merge)
    requires FreshUuids(site, files, uuids) && Manifest(site, files, q.preview, uuids, entries)
    ensures ManifestOk(files - {site.Pending()}, entries) && Rooted(q.preview, entries)
  {
    ManifestIsOk(site, files, q.preview, q.merge, uuids, entries);
    FixedStays(site, files, q, uuids, entries);
    assert site.Pending() in Fixed(site, q);
    forall e | e in entries ensures e.source != site.Pending() && e.destination != site.Pending() {
      assert e.source in Sources(entries) && e.destination in Destinations(entries);
    }
  }

  /** What is rewritten in place is clear of everything else and readable after the copies. */
  lemma RewrittenIsClear(site: Site, files: Files, q: Journal, uuids: nat -> string, entries: seq<Entry>, p: Path)
    requires Orderly(site, files, q) && Accepted(site, files, q.preview, q.merge)
    requires FreshUuids(site, files, uuids) && Manifest(site, files, q.preview, uuids, entries)
    requires p in Rewritten(site, q.preview, entries)
    ensures p !in Fixed(site, q)
    ensures p !in if q.preview.operation == MoveFetch then Destinations(entries) else Sources(entries)
    ensures p in files ==> !(q.preview.destination <= p)
  {
    IndexPlace(site, files, q, uuids, entries);
    ManagedPlaceClear(site, files, q, uuids, entries, site.database);
    ManagedPlaceClear(site, files, q, uuids, entries, site.reliquary);
    ManagedPlaceClear(site, files, q, uuids, entries, site.transport + ["blobs.db"]);
    hide Orderly, Accepted, Manifest, FreshUuids, Fixed, Sources, Destinations, NewPlace, TransportIndex, Target;
  }

  lemma ManagedPlaceClear(site: Site, files: Files, q: Journal, uuids: nat -> string, entries: seq<Entry>, p: Path)
    requires Orderly(site, files, q) && Accepted(site, files, q.preview, q.merge)
    requires FreshUuids(site, files, uuids) && Manifest(site, files, q.preview, uuids, entries)
    requires p in Managed(site)
    ensures var t := NewPlace(q, p);
            && Target(p, q.preview, entries) == t && t !in Fixed(site, q)
            && (t !in if q.preview.operation == MoveFetch then Destinations(entries) else Sources(entries))
            && (t in files ==> !(q.preview.destination <= t))
  {
    ManagedPlace(site, files, q, uuids, entries, p);
  }

  lemma PlanFixedOk(site: Site, files: Files, q: Journal, uuids: nat -> string, plan: Journal)
    requires Orderly(site, files, q) && JournalClear(site, q) && Plannable(site, files, q)
    requires PlannedFrom(q, plan)
    requires FreshUuids(site, files, uuids) && Manifest(site, files, q.preview, uuids, plan.entries.value)
    ensures FixedOk(site, files - {site.Pending()}, plan)
  {
    ReservedNamesDiffer(site);
    FixedStays(site, files, q, uuids, plan.entries.value);
    assert Fixed(site, plan) == Fixed(site, q);
    forall p | p in Fixed(site, q) ensures !(q.preview.destination <= p) {
      FixedOutsideDestination(site, files, q, p);
    }
    forall p | p in Rewritten(site, q.preview, plan.entries.value) ensures p !in Fixed(site, q) {
      RewrittenIsClear(site, files, q, uuids, plan.entries.value, p);
    }
  }

  /** The transport index is no database. */
  lemma IndexApart(site: Site, files: Files, q: Journal, uuids: nat -> string, entries: seq<Entry>)
    requires Orderly(site, files, q) && Accepted(site, files, q.preview, q.merge)
    requires FreshUuids(site, files, uuids) && Manifest(site, files, q.preview, uuids, entries)
    ensures TransportIndex(site, q.preview, entries) !in Databases(site, q.preview, entries)
  {
    var index := site.transport + ["blobs.db"];
    IndexPlace(site, files, q, uuids, entries);
    ManagedPlaceClear(site, files, q, uuids, entries, site.database);
    ManagedPlaceClear(site, files, q, uuids, entries, site.reliquary);
    PlacesDiffer(site, files, q, uuids, entries, index, site.database);
    PlacesDiffer(site, files, q, uuids, entries, index, site.reliquary);
    hide Orderly, Accepted, Manifest, FreshUuids, Sources, Destinations, Fixed, TransportIndex;
  }

  lemma PlanInPlaceOk(site: Site, files: Files, q: Journal, uuids: nat -> string, plan: Journal)
    requires Orderly(site, files, q) && Accepted(site, files, q.preview, q.merge)
    requires PlannedFrom(q, plan)
    requires FreshUuids(site, files, uuids) && Manifest(site, files, q.preview, uuids, plan.entries.value)
    ensures InPlaceOk(site, files - {site.Pending()}, plan)
  {
    var entries := plan.entries.value;
    hide Orderly, Accepted, Manifest, FreshUuids, Rewritten, Databases, TransportIndex, Fixed;
    IndexApart(site, files, q, uuids, entries);
    forall p | p in Rewritten(site, q.preview, entries)
      ensures p !in if q.preview.operation == MoveFetch then Destinations(entries) else Sources(entries)
      ensures p in files ==> !(q.preview.destination <= p)
    {
      RewrittenIsClear(site, files, q, uuids, entries, p);
    }
  }

  /** The fetch-folder case the review does not look at: once its manifest is saved, a move can copy
      everything if and only if the journal file itself is not among the files to move. Otherwise
      saving the manifest has changed a file that the manifest says must not change. */
  lemma JournalInTheWay(site: Site, files: Files, q: Journal, uuids: nat -> string, plan: Journal)
    requires site.Valid() && FreshQueue(q) && site.Pending() in files && files[site.Pending()] == Pending(q)
    requires Accepted(site, files, q.preview, q.merge) && !(q.preview.destination <= site.Pending())
    requires !site.Media(site.Pending()) && PlannedFrom(q, plan)
    requires FreshUuids(site, files, uuids) && Manifest(site, files, q.preview, uuids, plan.entries.value)
    ensures CopiesPass(files[site.Pending() := Pending(plan)], plan.entries.value, |plan.entries.value|)
            <==> !(q.preview.operation == MoveFetch && Inside(site.Pending(), q.preview.source))
  {
    JournalMovable(site, files, q);
    var entries, saved := plan.entries.value, files[site.Pending() := Pending(plan)];
    ManifestIsOk(site, files, q.preview, q.merge, uuids, entries);
    forall i | 0 <= i < |entries| ensures entries[i].destination != site.Pending() {
      EntryLands(site, files, q.preview, uuids, entries, i);
    }
    assert site.Pending() !in Destinations(entries);
    if site.Pending() in Movable(site, files, q.preview) {
      var i :| 0 <= i < |entries| && entries[i].source == site.Pending();
      EntryLands(site, files, q.preview, uuids, entries, i);
      JournalEntryFails(site, files, q, uuids, plan, i);
      FailureStops(saved, entries, |entries|, i);
    } else {
      forall k: nat | k < |entries| ensures !CopyFails(CopyTo(saved, entries, k), entries[k]) {
        CopyGoesOn(files, entries, 0, k, site.Pending(), Pending(plan));
      }
      AllPass(saved, entries, |entries|);
    }
  }

  lemma JournalEntryFails(site: Site, files: Files, q: Journal, uuids: nat -> string, plan: Journal, i: nat)
    requires site.Valid() && FreshQueue(q) && site.Pending() in files && files[site.Pending()] == Pending(q)
    requires Accepted(site, files, q.preview, q.merge) && !(q.preview.destination <= site.Pending())
    requires PlannedFrom(q, plan)
    requires FreshUuids(site, files, uuids) && Manifest(site, files, q.preview, uuids, plan.entries.value)
    requires i < |plan.entries.value| && plan.entries.value[i].source == site.Pending()
    requires !site.Media(site.Pending())
    ensures CopyFails(CopyTo(files[site.Pending() := Pending(plan)], plan.entries.value, i), plan.entries.value[i])
  {
    var entries, saved := plan.entries.value, files[site.Pending() := Pending(plan)];
    var e := entries[i];
    EntryLands(site, files, q.preview, uuids, entries, i);
    var blockers := Blockers(site, files, q.preview);
    assert e.source in Sources(entries);
    assert Clashes(site, files, q.preview, e.source) ==> TargetOf(q.preview, e.source) in blockers;
    assert e.destination !in saved;
    CopyKeepsFiles(saved, entries, i);
    forall j | 0 <= j < i ensures entries[j].destination != e.destination {
      DestinationsDiffer(site, files, q.preview, uuids, entries, i, j);
    }
    CopyAdds(saved, entries, i);
    assert CopyTo(saved, entries, i)[e.source] == Pending(plan);
  }

  /** The journal file is only ever among the files to move when a fetch folder contains the config's
      directory. */
  lemma JournalMovable(site: Site, files: Files, q: Journal)
    requires site.Valid() && site.Pending() in files
    ensures site.Pending() in Movable(site, files, q.preview)
            <==> q.preview.operation == MoveFetch && Inside(site.Pending(), q.preview.source)
  {
    var name := Name(site.Pending());
    assert name[|name| - 1] == 'n' && DATA_LOCK[|DATA_LOCK| - 1] == 'k';
    assert site.Pending() != q.preview.source + [DATA_LOCK] by {
      assert Name(q.preview.source + [DATA_LOCK]) == DATA_LOCK;
    }
  }

  lemma PlanIsFresh(site: Site, files: Files, q: Journal, uuids: nat -> string, plan: Journal)
    requires site.Valid() && FreshQueue(q) && PlannedFrom(q, plan)
    requires Manifest(site, files, q.preview, uuids, plan.entries.value)
    ensures FreshManifest(plan)
  {
    var entries := plan.entries.value;
    forall e | e in entries ensures e.destinationHash.None? {
      var i :| 0 <= i < |entries| && entries[i] == e;
      assert entries[i] == EntryFor(files, q.preview, entries[i].source, uuids(i));
    }
  }

  /** Planning an accepted move of an orderly installation gives a well planned move, unless the move
      takes its own journal along. */
  lemma PlanIsWell(site: Site, files: Files, q: Journal, uuids: nat -> string, plan: Journal)
    requires Orderly(site, files, q) && JournalClear(site, q) && Plannable(site, files, q)
    requires FreshQueue(q) && PlannedFrom(q, plan)
    requires FreshUuids(site, files, uuids) && Manifest(site, files, q.preview, uuids, plan.entries.value)
    ensures WellPlanned(site, files - {site.Pending()}, plan) && FreshManifest(plan)
  {
    var entries := plan.entries.value;
    ManifestWithoutJournal(site, files, q, uuids, entries);
    PlanFixedOk(site, files, q, uuids, plan);
    PlanInPlaceOk(site, files, q, uuids, plan);
    PlanIsFresh(site, files, q, uuids, plan);
    assert q.preview.operation == SelectData ==> Sources(entries) == {};
    assert entries != [] ==> entries[0].source in Sources(entries);
  }
}
