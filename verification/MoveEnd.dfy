/** A finished move leaves one disk, however its starts were cut off: also where a start that was cut off
    before it saved its manifest had listed the files in another order and drawn other names. */
module MoveEnd {
  import opened Paths
  import opened Documents
  import opened StorageTypes
  import opened Remapping
  import opened MoveSpec
  import opened MoveTrack
  import opened MoveJournal
  import opened MovePlan
  import opened StorageMove
  import opened MoveTheorems

  /** The same entries, in any order. */
  ghost predicate Alike(a: seq<Entry>, b: seq<Entry>) {
    && (forall e :: e in a <==> e in b)
    && (forall i, j :: 0 <= i < j < |a| ==> a[i].source != a[j].source)
  }

  lemma RemapAlike(p: Path, report: Report, a: seq<Entry>, b: seq<Entry>)
    requires Alike(a, b)
    ensures Remap(p, report, a) == Remap(p, report, b)
  {
    var found, other := FindEntry(a, p), FindEntry(b, p);
    if found.Some? && other.Some? {
      var i :| 0 <= i < |a| && a[i] == found.value;
      var j :| 0 <= j < |a| && a[j] == other.value;
    }
  }

  lemma RewriteAlike(doc: Doc<Path>, report: Report, a: seq<Entry>, b: seq<Entry>)
    requires Alike(a, b)
    ensures Rewrite(doc, report, a) == Rewrite(doc, report, b)
  {
    var f, g := (p: Path) => Remap(p, report, a), (p: Path) => Remap(p, report, b);
    forall p: Path ensures f(p) == g(p) { RemapAlike(p, report, a, b); }
    MapTextsAlike(doc, f, g);
  }

  lemma RewriteContentAlike(content: Content, report: Report, a: seq<Entry>, b: seq<Entry>)
    requires Alike(a, b)
    ensures RewriteContent(content, report, a) == RewriteContent(content, report, b)
  {
    hide Alike;
    if content.Database? && Rewritable(content.rows) {
      forall i | 0 <= i < |content.rows|
        ensures RewriteCell(content.rows[i], report, a) == RewriteCell(content.rows[i], report, b)
      {
        match content.rows[i]
        case PathCell(p) => RemapAlike(p, report, a, b);
        case JsonCell(Parsed(value)) => RewriteAlike(value, report, a, b);
        case CheckpointCell(Parsed(value)) => RewriteAlike(value, report, a, b);
        case CheckpointCell(Opaque(text)) => RemapAlike(text, report, a, b);
        case _ =>
      }
    }
  }

  /** No two moved files hold the same. */
  ghost predicate AllDiffer(entries: seq<Entry>) {
    forall e, f :: e in entries && f in entries && e.hash == f.hash ==> e == f
  }

  lemma RepairAlike(references: map<Hash, Path>, a: seq<Entry>, b: seq<Entry>)
    requires Alike(a, b) && AllDiffer(a)
    ensures Repair(references, a) == Repair(references, b)
  {
    forall hash | hash in references ensures Repair(references, a)[hash] == Repair(references, b)[hash] {
      RepairAt(references, a, hash);
      RepairAt(references, b, hash);
    }
  }

  /** Both documents a move switches to, and where its own files lie, come out the same. */
  lemma DocumentsAlike(doc: Doc<Path>, report: Report, a: seq<Entry>, b: seq<Entry>)
    requires Alike(a, b)
    ensures ConfigAfter(doc, report, a) == ConfigAfter(doc, report, b)
    ensures PreferencesAfter(doc, report, a) == PreferencesAfter(doc, report, b)
  {
    hide Alike;
    RewriteAlike(doc, report, a, b);
    if doc.Table? {
      forall k | k in doc.fields ensures Rewrite(doc.fields[k], report, a) == Rewrite(doc.fields[k], report, b) {
        RewriteAlike(doc.fields[k], report, a, b);
      }
    }
  }

  lemma PlacesAlike(site: Site, report: Report, a: seq<Entry>, b: seq<Entry>)
    requires Alike(a, b)
    ensures Databases(site, report, a) == Databases(site, report, b)
    ensures TransportIndex(site, report, a) == TransportIndex(site, report, b)
  {
    hide Alike, Remap;
    RemapAlike(site.database, report, a, b);
    RemapAlike(site.reliquary, report, a, b);
    RemapAlike(site.transport, report, a, b);
  }

  /** Two manifests of one installation have the same entries when no file's place is taken by another. */
  lemma ManifestsAlike(site: Site, files: Files, report: Report, uuidsA: nat -> string, uuidsB: nat -> string,
      a: seq<Entry>, b: seq<Entry>)
    requires site.Valid() && Manifest(site, files, report, uuidsA, a) && Manifest(site, files, report, uuidsB, b)
    requires forall p :: p in Movable(site, files, report) && p in files ==> !Taken(files, report, p)
    ensures Alike(a, b)
  {
    hide Movable, Taken;
    forall e | e in a ensures e in b { InBoth(site, files, report, uuidsA, uuidsB, a, b, e); }
    forall e | e in b ensures e in a { InBoth(site, files, report, uuidsB, uuidsA, b, a, e); }
  }

  lemma InBoth(site: Site, files: Files, report: Report, uuidsA: nat -> string, uuidsB: nat -> string,
      a: seq<Entry>, b: seq<Entry>, e: Entry)
    requires site.Valid() && Manifest(site, files, report, uuidsA, a) && Manifest(site, files, report, uuidsB, b)
    requires forall p :: p in Movable(site, files, report) && p in files ==> !Taken(files, report, p)
    requires e in a
    ensures e in b
  {
    hide Movable, Taken;
    assert e.source in Sources(a);
    var i: nat :| i < |a| && a[i] == e;
    var j: nat :| j < |b| && b[j].source == e.source;
  }

  /** The one path at which the order of the manifest may show: the transport index, when several moved
      files hold the same. */
  ghost predicate OrderShows(site: Site, plan: Journal, p: Path)
    requires plan.entries.Some?
  {
    && plan.preview.operation != SelectData && p == TransportIndex(site, plan.preview, plan.entries.value)
    && !AllDiffer(plan.entries.value)
  }

  lemma UpdatedAlike(site: Site, a: Journal, b: Journal, p: Path, content: Content)
    requires a.entries.Some? && b.entries.Some? && Alike(a.entries.value, b.entries.value)
    requires a.preview == b.preview && !OrderShows(site, a, p)
    ensures Updated(site, a, p, content) == Updated(site, b, p, content)
  {
    hide Alike, AllDiffer;
    PlacesAlike(site, a.preview, a.entries.value, b.entries.value);
    RewriteContentAlike(content, a.preview, a.entries.value, b.entries.value);
    if content.Transport? && AllDiffer(a.entries.value) {
      RepairAlike(content.references, a.entries.value, b.entries.value);
    }
  }

  lemma AlikeSets(a: seq<Entry>, b: seq<Entry>)
    requires Alike(a, b)
    ensures Sources(a) == Sources(b) && Destinations(a) == Destinations(b)
  {
  }

  /** Two finished moves from one installation, with the same entries. */
  ghost predicate Twins(site: Site, base: Files, a: Journal, b: Journal, one: Files, other: Files) {
    && site.Valid() && a.entries.Some? && b.entries.Some? && b == a.(entries := b.entries)
    && Alike(a.entries.value, b.entries.value)
    && one == DiskAt(site, base, a, Finished) && other == DiskAt(site, base, b, Finished)
    && WellPlanned(site, base, a) && WellPlanned(site, base, b)
  }

  ghost predicate SameAt(one: Files, other: Files, p: Path) {
    p in one && p in other && one[p] == other[p]
  }

  /** A moved file ends the same. */
  lemma SameMoved(site: Site, base: Files, a: Journal, b: Journal, one: Files, other: Files, e: Entry)
    requires Twins(site, base, a, b, one, other) && e in a.entries.value
    requires !OrderShows(site, a, e.destination)
    ensures SameAt(one, other, e.destination)
  {
    hide WellPlanned, DiskAt, Updated, OrderShows, Sources, Destinations, Fixed;
    assert e in b.entries.value;
    var i: nat :| i < |a.entries.value| && a.entries.value[i] == e;
    var j: nat :| j < |b.entries.value| && b.entries.value[j] == e;
    FinalDisk(site, base, a);
    FinalDisk(site, base, b);
    UpdatedAlike(site, a, b, e.destination, base[e.source]);
  }

  /** The fixed files that are left at the end: config, backup and, where they are not moved, preferences. */
  lemma FixedLeft(site: Site, base: Files, plan: Journal, p: Path)
    requires WellPlanned(site, base, plan) && p in Fixed(site, plan) && p in DiskAt(site, base, plan, Finished)
    ensures p == site.config || p == site.Backup() || (p in PreferencesOf(plan) && p !in Sources(plan.entries.value))
  {
    hide DiskAt;
    FinalKeys(site, base, plan);
  }

  /** So does every other file. */
  lemma SameKept(site: Site, base: Files, a: Journal, b: Journal, one: Files, other: Files, p: Path)
    requires Twins(site, base, a, b, one, other)
    requires p in one && p !in Destinations(a.entries.value) && !OrderShows(site, a, p)
    ensures SameAt(one, other, p)
  {
    hide WellPlanned, DiskAt, Updated, OrderShows, Sources, Destinations, Alike;
    AlikeSets(a.entries.value, b.entries.value);
    FinalDisk(site, base, a);
    FinalDisk(site, base, b);
    if p !in Fixed(site, a) {
      UpdatedAlike(site, a, b, p, base[p]);
    } else {
      FixedLeft(site, base, a, p);
    }
  }

  /** Two finished moves with the same entries leave the same disk, up to the order in the index. */
  lemma SameDisk(site: Site, base: Files, a: Journal, b: Journal, one: Files, other: Files)
    requires Twins(site, base, a, b, one, other)
    ensures one.Keys == other.Keys
    ensures forall p :: p in one && !OrderShows(site, a, p) ==> SameAt(one, other, p)
  {
    hide WellPlanned, DiskAt, OrderShows, Sources, Alike, SameAt;
    AlikeSets(a.entries.value, b.entries.value);
    FinalDisk(site, base, a);
    FinalDisk(site, base, b);
    forall p | p in one && !OrderShows(site, a, p) ensures SameAt(one, other, p) {
      if p in Destinations(a.entries.value) {
        var e :| e in a.entries.value && e.destination == p;
        SameMoved(site, base, a, b, one, other, e);
      } else {
        SameKept(site, base, a, b, one, other, p);
      }
    }
  }

  lemma FinishedClear(site: Site, base: Files, plan: Journal)
    requires WellPlanned(site, base, plan)
    ensures site.Pending() !in DiskAt(site, base, plan, Finished)
  {
    PendingOutside(site, base, plan, Finished);
  }

  /** However many starts were cut off, and wherever: a queued move that finishes leaves one disk, whatever
      order its manifest lists the files in and whatever names were drawn for it, if no moved file's place
      is taken by another file. Only the index may tell equal files apart. */
  lemma OneEnd(site: Site, base: Files, q: Journal, uuidsA: nat -> string, uuidsB: nat -> string,
      a: Journal, b: Journal, one: Files, other: Files)
    requires site.Valid()
    requires Holds(site, base, q, Planned(a, Finished), one) && Holds(site, base, q, Planned(b, Finished), other)
    requires var files := base[site.Pending() := Pending(q)];
             && Manifest(site, files, q.preview, uuidsA, a.entries.value)
             && Manifest(site, files, q.preview, uuidsB, b.entries.value)
             && forall p :: p in Movable(site, files, q.preview) && p in files ==> !Taken(files, q.preview, p)
    ensures one.Keys == other.Keys && site.Pending() !in one
    ensures forall p :: p in one && !OrderShows(site, a, p) ==> SameAt(one, other, p)
  {
    hide WellPlanned, DiskAt, OrderShows, Movable, Taken, Manifest, Stalled;
    HoldsMeans(site, base, q, a, Finished, one);
    HoldsMeans(site, base, q, b, Finished, other);
    ManifestsAlike(site, base[site.Pending() := Pending(q)], q.preview, uuidsA, uuidsB, a.entries.value,
      b.entries.value);
    DocumentsAlike(q.configBefore.doc, q.preview, a.entries.value, b.entries.value);
    if q.preferences.Some? {
      DocumentsAlike(q.preferences.value.before.doc, q.preview, a.entries.value, b.entries.value);
    }
    SameDisk(site, base, a, b, one, other);
    FinishedClear(site, base, a);
  }
}
