/** A concrete installation for the storage move and one for the recovery on the Pi: what those models
    take for granted can be met. */
module Witnesses {
  import opened Wrappers
  import opened Paths
  import opened Text
  import opened Documents
  import opened StorageTypes
  import opened MoveSpec
  import opened MovePlan
  import opened MoveOutlook
  import opened Remapping
  import opened StorageMove
  import opened MoveTheorems
  import ConfigMerge
  import ConfigUpgrade
  import Upgrades
  import Trees
  import PiSnapshot
  import PiRecovery

  // ---- names ----

  function Drawn(i: nat): string { Decimal(i) }

  lemma DrawnApart(i: nat, j: nat)
    requires i != j
    ensures !(Drawn(i) + "-" <= Drawn(j) + "-")
  {
    var a, b := Decimal(i), Decimal(j);
    DecimalValue(i);
    DecimalValue(j);
    if |a| < |b| {
      assert (a + "-")[|a|] != (b + "-")[|a|];
    } else if |a| == |b| {
      assert a != b;
      var k :| 0 <= k < |a| && a[k] != b[k];
      assert (a + "-")[k] != (b + "-")[k];
    }
  }

  lemma NotDrawn(i: nat, name: string)
    requires name == "" || !IsDigit(name[0])
    ensures !(Drawn(i) + "-" <= name)
  {
    assert (Drawn(i) + "-")[0] == Drawn(i)[0];
  }

  /** Names that begin with a letter or a dot are not drawn ones. */
  lemma NamesAreFresh(site: Site, files: Files)
    requires forall p :: p in files || p in Managed(site) ==> Name(p) == "" || !IsDigit(Name(p)[0])
    ensures FreshUuids(site, files, Drawn)
  {
    hide Drawn, Managed;
    forall i: nat, p | p in files || p in Managed(site) ensures !(Drawn(i) + "-" <= Name(p)) {
      NotDrawn(i, Name(p));
    }
    forall i: nat, j: nat | i != j ensures !(Drawn(i) + "-" <= Drawn(j) + "-") {
      DrawnApart(i, j);
    }
  }

  lemma ExtensionIs(name: string, dot: nat)
    requires 0 < dot < |name| && name[dot] == '.' && forall j :: dot < j < |name| ==> name[j] != '.'
    ensures Extension(name) == name[dot + 1..]
  {
  }

  lemma CompanionName(config: Path, d: string, extension: string)
    requires config == [d, "x"]
    ensures WithExtension(config, extension) == [d, "x." + extension]
  {
    assert LastDot("x") == -1;
    assert config[..1] == [d];
    assert "x" + "." + extension == "x." + extension;
  }

  lemma CompanionNames(site: Site, d: string)
    requires site.config == [d, "x"]
    ensures site.Valid()
    ensures site.Pending() == [d, "x.toml.storage-move.json"] && site.Backup() == [d, "x.toml.storage-before"]
  {
    hide WithExtension;
    CompanionName(site.config, d, "toml.storage-move.json");
    CompanionName(site.config, d, "toml.storage-before");
    assert "x." + "toml.storage-move.json" == "x.toml.storage-move.json";
    assert "x." + "toml.storage-before" == "x.toml.storage-before";
  }

  const TUNES := {"mp3"}

  /** A name is that of a tune if what follows its last dot is. */
  lemma TuneOrNot(site: Site, p: Path, dot: nat)
    requires site.mediaExtensions == TUNES && p != [] && 0 < dot < |Name(p)| && Name(p)[dot] == '.'
    requires forall j :: dot < j < |Name(p)| ==> Name(p)[j] != '.'
    ensures Name(p)[dot + 1..] == "mp3" ==> site.Media(p)
    ensures |Name(p)| - dot - 1 != 3 ==> !site.Media(p)
  {
    ExtensionIs(Name(p), dot);
    assert |"mp3"| == 3;
  }

  lemma Tunes(site: Site)
    requires site.mediaExtensions == TUNES
    ensures forall d: Path :: site.Media(d + ["s.mp3"]) && site.Media(d + ["a.mp3"])
  {
    hide Extension;
    forall d: Path ensures site.Media(d + ["s.mp3"]) && site.Media(d + ["a.mp3"]) {
      TuneOrNot(site, d + ["s.mp3"], 1);
      TuneOrNot(site, d + ["a.mp3"], 1);
    }
  }

  lemma NoTunes(site: Site)
    requires site.mediaExtensions == TUNES
    ensures forall d: Path :: !site.Media(d + ["m.db"]) && !site.Media(d + ["r.db"]) && !site.Media(d + ["blobs.db"])
    ensures forall d: Path :: !site.Media(d + ["x.toml.storage-move.json"])
  {
    hide Extension;
    forall d: Path
      ensures !site.Media(d + ["m.db"]) && !site.Media(d + ["r.db"]) && !site.Media(d + ["blobs.db"])
      ensures !site.Media(d + ["x.toml.storage-move.json"])
    {
      TuneOrNot(site, d + ["m.db"], 1);
      TuneOrNot(site, d + ["r.db"], 1);
      TuneOrNot(site, d + ["blobs.db"], 5);
      TuneOrNot(site, d + ["x.toml.storage-move.json"], 19);
    }
  }

  // ---- a data move ----

  const SITE := Site(["c", "x"], ["d", "m.db"], ["d", "r.db"], ["d", "b"], TUNES)
  const CONFIG := Document(Table(map[]))
  const TUNE: Path := ["d", "s.mp3"]
  const LOGGED: Path := ["d", "logs", "a.mp3"]
  const INDEX: Path := ["d", "b", "blobs.db"]
  const PREFERENCES: Path := ["d", "charnel-config.toml"]
  const MOVED := Report(MoveData, ["d"], ["e"])
  const MOVE := Journal(1, MOVED, CONFIG, None, true, None, false, false, false, false,
    Some(DocumentChange(PREFERENCES, CONFIG, None)))

  /** A database with a path, an index with a reference, a tune that meets a different one, preferences,
      and a tune of the host that stays behind and meets a different one. */
  const DISK: Files := map[
    ["c", "x"] := CONFIG,
    ["d", "m.db"] := Database([PathCell(TUNE)]),
    INDEX := Transport(map[Digest(Bytes([1])) := TUNE]),
    TUNE := Bytes([1]),
    LOGGED := Bytes([1]),
    PREFERENCES := CONFIG,
    ["e", "s.mp3"] := Bytes([2]),
    ["e", "logs", "a.mp3"] := Bytes([2])]

  const MOVING: set<Path> := {["d", "m.db"], INDEX, TUNE}

  lemma NamesDiffer()
    ensures "m.db" != "logs" && "m.db" != "s.mp3" && "b" != "logs" && "s.mp3" != "logs"
    ensures "d" != "e" && "c" != "e" && "c" != "d"
  {
    assert "m.db"[0] == 'm' && "logs"[0] == 'l' && "s.mp3"[0] == 's' && "b"[0] == 'b';
    assert "d"[0] == 'd' && "e"[0] == 'e' && "c"[0] == 'c';
  }

  lemma OnDisk(f: Path)
    requires f in DISK
    ensures |f| >= 2 && f[0] in {"c", "d", "e"}
    ensures f[0] == "e" ==> f in {["e", "s.mp3"], ["e", "logs", "a.mp3"]}
  {
    NamesDiffer();
  }

  lemma Begins(d: Path, f: Path)
    requires |d| >= 2
    ensures d <= f ==> f[0] == d[0] && f[1] == d[1]
  {
  }

  lemma Targets()
    ensures TargetOf(MOVED, ["d", "m.db"]) == ["e", "m.db"]
    ensures TargetOf(MOVED, INDEX) == ["e", "b", "blobs.db"]
    ensures TargetOf(MOVED, TUNE) == ["e", "s.mp3"]
    ensures TargetOf(MOVED, LOGGED) == ["e", "logs", "a.mp3"]
  {
    assert ["d", "m.db"][1..] == ["m.db"] && INDEX[1..] == ["b", "blobs.db"];
    assert TUNE[1..] == ["s.mp3"] && LOGGED[1..] == ["logs", "a.mp3"];
  }

  lemma FreeForMoving(p: Path)
    requires p in MOVING
    ensures !Clashes(SITE, DISK, MOVED, p) && InTheWay(DISK, MOVED, p, 0) == {}
  {
    hide Extension, TargetOf;
    Targets();
    NamesDiffer();
    Tunes(SITE);
    assert TUNE == ["d"] + ["s.mp3"] && ["e", "s.mp3"] == ["e"] + ["s.mp3"];
    var target := TargetOf(MOVED, p);
    forall f | f in DISK ensures !Inside(f, target) {
      OnDisk(f);
      Begins(target, f);
    }
    forall k | |MOVED.destination| < k < |target| ensures target[..k] !in DISK {
      assert p == INDEX && k == 2 && target[..k] == ["e", "b"];
      assert "b"[0] != "s.mp3"[0];
    }
  }

  /** The two tunes at the destination are all that stands there. */
  lemma Standing(p: Path)
    requires p in Present(SITE, DISK, MOVED)
    ensures SITE.Media(p)
  {
    hide Extension;
    NamesDiffer();
    Tunes(SITE);
    OnDisk(p);
    assert p[0] == MOVED.destination[0];
    assert ["e", "s.mp3"] == ["e"] + ["s.mp3"] && ["e", "logs", "a.mp3"] == ["e", "logs"] + ["a.mp3"];
  }

  lemma Retains(p: Path)
    requires p in {LOGGED, PREFERENCES}
    ensures Retained(SITE, p, ["d"])
  {
  }

  lemma Leaving(p: Path)
    requires p in SourceTree(SITE, DISK, MOVED)
    ensures p in MOVING
  {
    hide Retained;
    NamesDiffer();
    Retains(LOGGED);
    Retains(PREFERENCES);
    assert p[0] == MOVED.source[0] && MOVED.source == ["d"];
    assert p in MOVING + {LOGGED, PREFERENCES};
  }

  lemma SomeMoveIsAccepted()
    ensures Accepted(SITE, DISK, MOVED, true)
  {
    hide Present, SourceTree, Clashes, InTheWay, Extension;
    NamesDiffer();
    forall p | p in Present(SITE, DISK, MOVED) ensures SITE.Media(p) {
      Standing(p);
    }
    forall p | p in SourceTree(SITE, DISK, MOVED)
      ensures !Clashes(SITE, DISK, MOVED, p) && InTheWay(DISK, MOVED, p, 0) == {}
    {
      Leaving(p);
      FreeForMoving(p);
    }
    assert Blockers(SITE, DISK, MOVED) == {};
    assert MOVED.source[0] != MOVED.destination[0] && SITE.config[0] != MOVED.destination[0];
  }

  lemma SomeMoveIsScheduled()
    ensures Schedules(SITE, DISK, MOVED, true, MOVE)
  {
    hide Accepted, WithExtension;
    CompanionNames(SITE, "c");
    NamesDiffer();
    SomeMoveIsAccepted();
    assert |"x.toml.storage-move.json"| != |"x"|;
  }

  lemma SomeMoveIsOrderly()
    ensures Orderly(SITE, DISK[SITE.Pending() := Pending(MOVE)], MOVE)
  {
    hide WithExtension, Extension, Retained, Managed, Fixed;
    CompanionNames(SITE, "c");
    NamesDiffer();
    NoTunes(SITE);
    Retains(PREFERENCES);
    assert ["c", "x.toml.storage-move.json"] == ["c"] + ["x.toml.storage-move.json"];
    assert ["d", "b"] + ["blobs.db"] == INDEX && |INDEX| == 3;
    assert PREFERENCES[0] != MOVED.destination[0];
    SomeManagedAreApart();
  }

  lemma SomeManagedAreApart()
    ensures MOVED.destination !in Fixed(SITE, MOVE)
    ensures forall p :: p in Managed(SITE) ==>
              && p !in Fixed(SITE, MOVE) && !SITE.Media(p) && Name(p) != DATA_LOCK
              && p != MOVED.source && !(MOVED.destination <= p)
  {
    hide WithExtension, Managed;
    CompanionNames(SITE, "c");
    NamesDiffer();
    assert Fixed(SITE, MOVE) == {["c", "x"], SITE.Pending(), SITE.Backup(), PREFERENCES};
    forall p | p in Managed(SITE) ensures ManagedFile(p) && p[0] != MOVED.destination[0] {
      SomeManaged(p);
    }
  }

  predicate ManagedFile(p: Path) {
    |p| >= 2 && p[0] == "d" && !SITE.Media(p) && Name(p) != DATA_LOCK && p != PREFERENCES
  }

  lemma SomeManaged(p: Path)
    requires p in Managed(SITE)
    ensures ManagedFile(p)
  {
    hide Extension;
    NoTunes(SITE);
    assert ["d", "b"] + ["blobs.db"] == INDEX && INDEX == ["d", "b"] + ["blobs.db"];
    assert ["d", "m.db"] == ["d"] + ["m.db"] && ["d", "r.db"] == ["d"] + ["r.db"];
    assert |DATA_LOCK| > |"blobs.db"|;
    assert "m.db"[0] != "charnel-config.toml"[0] && "r.db"[0] != "charnel-config.toml"[0];
  }

  lemma SomeNamesAreFresh()
    ensures FreshUuids(SITE, DISK[SITE.Pending() := Pending(MOVE)], Drawn)
  {
    hide WithExtension, FreshUuids, IsDigit;
    CompanionNames(SITE, "c");
    assert ["d", "b"] + ["blobs.db"] == INDEX;
    LettersAreNoDigits();
    NamesAreFresh(SITE, DISK[SITE.Pending() := Pending(MOVE)]);
  }

  lemma LettersAreNoDigits()
    ensures forall c :: 'a' <= c <= 'z' ==> !IsDigit(c)
  {
  }

  lemma SomeMoveIsWorkable()
    ensures Workable(SITE, DISK[SITE.Pending() := Pending(MOVE)], MOVE)
  {
    hide WithExtension, Arrives;
    CompanionNames(SITE, "c");
    NamesDiffer();
    assert ["d", "b"] + ["blobs.db"] == INDEX;
    assert "r.db"[0] != "s.mp3"[0] && "r.db"[0] != "m.db"[0] && "r.db"[0] != "charnel-config.toml"[0];
    assert SITE.Pending()[0] == "c";
  }

  /** There is a move that can be queued and finished, from an installation that is orderly; and a
      retained file of it whose redirected path leads to something else. */
  lemma SomeMoveIsReady()
    ensures Schedules(SITE, DISK, MOVED, true, MOVE) && Ready(SITE, DISK, MOVE, Drawn)
    ensures var files := DISK[SITE.Pending() := Pending(MOVE)];
            && Plannable(SITE, files, MOVE) && JournalClear(SITE, MOVE) && Workable(SITE, files, MOVE)
            && forall entries :: Undisturbed(SITE, files, MOVE, entries) && PreferencesHold(SITE, files, MOVE, entries)
  {
    hide Orderly, FreshUuids, Schedules, WithExtension, Accepted, Arrives, Movable;
    CompanionNames(SITE, "c");
    SomeMoveIsScheduled();
    SomeMoveIsOrderly();
    SomeNamesAreFresh();
    NamesDiffer();
    assert SITE.Pending()[0] != MOVED.source[0] && SITE.Pending()[0] != MOVED.destination[0];
    SomeMoveIsAccepted();
    ReviewIgnores(SITE, DISK, MOVED, true, SITE.Pending(), Pending(MOVE));
    SomeMoveIsWorkable();
    SomePreferencesStay();
  }

  lemma SomePreferencesStay()
    ensures SITE.Valid() && PREFERENCES !in Movable(SITE, DISK[SITE.Pending() := Pending(MOVE)], MOVED)
    ensures SITE.Pending() != PREFERENCES && SITE.Pending() != SITE.config
    ensures DISK[PREFERENCES] == CONFIG && DISK[SITE.config] == CONFIG
  {
    hide Retained, WithExtension;
    CompanionNames(SITE, "c");
    NamesDiffer();
    Retains(PREFERENCES);
    assert |"x.toml.storage-move.json"| != |"x"|;
  }

  /** In every such move the stored path of the retained tune leads to the other tune afterwards. */
  lemma SomePathMisleads(plan: Journal)
    requires plan.entries.Some? && PlannedFrom(MOVE, plan)
    requires SITE.Valid() && Manifest(SITE, DISK[SITE.Pending() := Pending(MOVE)], MOVED, Drawn, plan.entries.value)
    ensures var disk, to := DiskAt(SITE, DISK, plan, Finished), Remap(LOGGED, plan.preview, plan.entries.value);
            to in disk && disk[to] == Bytes([2]) != DISK[LOGGED]
  {
    hide Orderly, FreshUuids, Schedules, WithExtension, Accepted, Manifest, PlannedFrom, Workable, Undisturbed, DiskAt,
      WellPlanned, JournalClear, FreshManifest, Remap, DISK;
    var files := DISK[SITE.Pending() := Pending(MOVE)];
    SomeMoveIsReady();
    CompanionNames(SITE, "c");
    PlanKeepsReport(MOVE, plan);
    QueuedApart();
    PlanIsWell(SITE, files, MOVE, Drawn, plan);
    RetainedNotListed(plan.entries.value);
    RetainedPathDangles(SITE, DISK, plan, LOGGED);
    DestinationPreserved(SITE, DISK, plan, Finished, ["e", "logs", "a.mp3"]);
  }

  lemma QueuedApart()
    ensures SITE.Valid() && SITE.Pending() !in DISK
    ensures DISK[SITE.Pending() := Pending(MOVE)] - {SITE.Pending()} == DISK
    ensures LOGGED in DISK && DISK[LOGGED] == Bytes([1]) && MOVED.source <= LOGGED
    ensures ["e", "logs", "a.mp3"] in DISK && DISK[["e", "logs", "a.mp3"]] == Bytes([2])
    ensures MOVED.destination <= ["e", "logs", "a.mp3"] && TargetOf(MOVED, LOGGED) == ["e", "logs", "a.mp3"]
  {
    hide WithExtension;
    CompanionNames(SITE, "c");
    NamesDiffer();
    Targets();
    assert |"x.toml.storage-move.json"| != |"x"|;
  }

  lemma RetainedNotListed(entries: seq<Entry>)
    requires SITE.Valid() && Manifest(SITE, DISK[SITE.Pending() := Pending(MOVE)], MOVED, Drawn, entries)
    ensures LOGGED !in Sources(entries)
  {
    hide Retained, WithExtension, DISK;
    Retains(LOGGED);
  }

  // ---- two data moves that their preferences stop ----

  /** Preferences that are queued with one text and have another one when the application starts again. */
  const EDITED := Document(Table(map["volume" := Number(1)]))
  const KEPT_DISK: Files := map[["c", "x"] := CONFIG, PREFERENCES := CONFIG]

  /** Preferences below the source that name a file there. */
  const HOSTED: Path := ["d", "app", "charnel-config.toml"]
  const TELLING: Doc<Path> := Table(map["last" := Doc.Text(["d", "s"])])
  const HOSTED_DISK: Files := map[["c", "x"] := CONFIG, HOSTED := Document(TELLING)]

  function MoveWith(p: Path, before: Content): Journal {
    Journal(1, MOVED, CONFIG, None, false, None, false, false, false, false, Some(DocumentChange(p, before, None)))
  }

  /** What the two have in common: the config, the preferences, and nothing else. */
  predicate SmallMove(files: Files, p: Path) {
    p in {HOSTED, PREFERENCES} && files.Keys == {["c", "x"], p} && files[["c", "x"]] == CONFIG
  }

  lemma SmallMoveIsAccepted(files: Files, p: Path, before: Content)
    requires SmallMove(files, p)
    ensures SITE.Valid() && SITE.Pending() !in files && Accepted(SITE, files, MOVED, false)
    ensures Accepted(SITE, files[SITE.Pending() := Pending(MoveWith(p, before))], MOVED, false)
    ensures SITE.Pending() != p && SITE.Pending() != ["c", "x"]
  {
    hide Accepted, WithExtension;
    CompanionNames(SITE, "c");
    NamesDiffer();
    assert |"x.toml.storage-move.json"| != |"x"|;
    forall f | f in files ensures !(MOVED.destination <= f) {
      assert f[0] != MOVED.destination[0];
    }
    assert MOVED.source[0] != MOVED.destination[0] && SITE.config[0] != MOVED.destination[0];
    assert SITE.Pending()[0] != MOVED.source[0] && SITE.Pending()[0] != MOVED.destination[0];
    EmptyDestination(SITE, files, MOVED, false);
    ReviewIgnores(SITE, files, MOVED, false, SITE.Pending(), Pending(MoveWith(p, before)));
  }

  lemma SmallMoveIsOrderly(files: Files, p: Path, before: Content)
    requires SmallMove(files, p) && SITE.Valid()
    ensures Orderly(SITE, files[SITE.Pending() := Pending(MoveWith(p, before))], MoveWith(p, before))
  {
    hide WithExtension, Extension, Managed, Fixed;
    CompanionNames(SITE, "c");
    NamesDiffer();
    NoTunes(SITE);
    assert ["c", "x.toml.storage-move.json"] == ["c"] + ["x.toml.storage-move.json"];
    assert ["d", "b"] + ["blobs.db"] == INDEX && |INDEX| == 3;
    assert p[0] != MOVED.destination[0] && "b" != "app" by { assert |"b"| != |"app"|; }
    SmallManagedAreApart(p, before);
  }

  lemma SmallManagedAreApart(p: Path, before: Content)
    requires p in {HOSTED, PREFERENCES} && SITE.Valid()
    ensures MOVED.destination !in Fixed(SITE, MoveWith(p, before))
    ensures forall m :: m in Managed(SITE) ==>
              && m !in Fixed(SITE, MoveWith(p, before)) && !SITE.Media(m) && Name(m) != DATA_LOCK
              && m != MOVED.source && !(MOVED.destination <= m)
  {
    hide WithExtension, Managed;
    CompanionNames(SITE, "c");
    NamesDiffer();
    assert Fixed(SITE, MoveWith(p, before)) == {["c", "x"], SITE.Pending(), SITE.Backup(), p};
    forall m | m in Managed(SITE) ensures ManagedFile(m) && m[0] != MOVED.destination[0] && m != p {
      SomeManaged(m);
      NotHosted(m);
    }
  }

  lemma NotHosted(m: Path)
    requires m in Managed(SITE)
    ensures m != HOSTED
  {
    assert ["d", "b"] + ["blobs.db"] == INDEX;
    assert "b" != "app" by { assert |"b"| != |"app"|; }
  }

  lemma SmallMoveIsReady(files: Files, p: Path, before: Content)
    requires SmallMove(files, p) && before.Document?
    ensures var q := MoveWith(p, before);
            && Ready(SITE, files, q, Drawn) && Accepted(SITE, files, MOVED, false)
            && var queued := files[SITE.Pending() := Pending(q)];
            && Plannable(SITE, queued, q) && JournalClear(SITE, q) && Workable(SITE, queued, q)
            && forall entries :: Undisturbed(SITE, queued, q, entries)
  {
    hide WithExtension, Orderly, Accepted, FreshUuids, IsDigit, Drawn, Arrives;
    var q := MoveWith(p, before);
    CompanionNames(SITE, "c");
    NamesDiffer();
    SmallMoveIsAccepted(files, p, before);
    SmallMoveIsOrderly(files, p, before);
    assert ["d", "b"] + ["blobs.db"] == INDEX;
    LettersAreNoDigits();
    NamesAreFresh(SITE, files[SITE.Pending() := Pending(q)]);
    SmallMoveIsWorkable(files, p, before);
  }

  lemma SmallMoveIsWorkable(files: Files, p: Path, before: Content)
    requires SmallMove(files, p) && SITE.Valid()
    ensures Workable(SITE, files[SITE.Pending() := Pending(MoveWith(p, before))], MoveWith(p, before))
  {
    hide WithExtension, Movable;
    CompanionNames(SITE, "c");
    NamesDiffer();
    assert ["d", "b"] + ["blobs.db"] == INDEX;
    assert "r.db"[0] != "charnel-config.toml"[0] && "m.db"[0] != "charnel-config.toml"[0] && "b"[0] != "app"[0];
    assert SITE.Pending()[0] == "c";
  }

  /** Preferences edited after queueing: everything else is in order, and the move is planned but never
      ends, whatever the manifest. */
  lemma SomePreferencesEdited()
    ensures SITE.Valid() && Schedules(SITE, KEPT_DISK, MOVED, false, MoveWith(PREFERENCES, CONFIG))
    ensures var q, files := MoveWith(PREFERENCES, CONFIG), KEPT_DISK[PREFERENCES := EDITED];
            var queued := files[SITE.Pending() := Pending(q)];
            && Ready(SITE, files, q, Drawn) && Plannable(SITE, queued, q) && JournalClear(SITE, q)
            && Workable(SITE, queued, q)
            && forall entries :: Undisturbed(SITE, queued, q, entries) && !PreferencesHold(SITE, queued, q, entries)
  {
    hide Ready, Accepted, WithExtension, Plannable, Workable, Undisturbed, JournalClear, Movable;
    NamesDiffer();
    var q, files := MoveWith(PREFERENCES, CONFIG), KEPT_DISK[PREFERENCES := EDITED];
    SmallMoveIsReady(KEPT_DISK, PREFERENCES, CONFIG);
    SmallMoveIsAccepted(KEPT_DISK, PREFERENCES, CONFIG);
    SmallMoveIsReady(files, PREFERENCES, CONFIG);
    SmallMoveIsAccepted(files, PREFERENCES, CONFIG);
    assert "volume" in EDITED.doc.fields && "volume" !in CONFIG.doc.fields;
    forall entries ensures NewPreferences(q, entries) != EDITED && CONFIG != EDITED {
      assert NewPreferences(q, entries) == CONFIG;
    }
  }

  /** Preferences that move along and name a file of the source: the move switches the config and is then
      refused for good, whatever the manifest. */
  lemma SomePreferencesMove()
    ensures SITE.Valid() && Schedules(SITE, HOSTED_DISK, MOVED, false, MoveWith(HOSTED, Document(TELLING)))
    ensures var q := MoveWith(HOSTED, Document(TELLING));
            var queued := HOSTED_DISK[SITE.Pending() := Pending(q)];
            && Ready(SITE, HOSTED_DISK, q, Drawn) && Plannable(SITE, queued, q) && JournalClear(SITE, q)
            && Workable(SITE, queued, q)
            && forall entries :: Undisturbed(SITE, queued, q, entries)
                 && (Rooted(MOVED, entries) ==> !PreferencesHold(SITE, queued, q, entries))
  {
    hide Ready, Accepted, WithExtension, Plannable, Workable, Undisturbed, JournalClear;
    NamesDiffer();
    var q := MoveWith(HOSTED, Document(TELLING));
    SmallMoveIsReady(HOSTED_DISK, HOSTED, Document(TELLING));
    SmallMoveIsAccepted(HOSTED_DISK, HOSTED, Document(TELLING));
    HostedIsMoved();
    forall entries | Rooted(MOVED, entries) ensures NewPreferences(q, entries) != Document(TELLING) {
      PreferencesFixes(TELLING, MOVED, entries);
      assert ["d", "s"] in Texts(TELLING.fields["last"]) && "last" in TELLING.fields;
      assert !NamesNothing(Texts(TELLING.fields["last"]), MOVED.source);
    }
  }

  lemma HostedIsMoved()
    requires SITE.Valid()
    ensures HOSTED in Movable(SITE, HOSTED_DISK[SITE.Pending() := Pending(MoveWith(HOSTED, Document(TELLING)))], MOVED)
  {
    hide WithExtension;
    CompanionNames(SITE, "c");
    assert "x.toml.storage.lock"[0] == 'x' && "x.toml.storage-queue.lock"[0] == 'x';
    CompanionName(SITE.config, "c", "toml.storage.lock");
    CompanionName(SITE.config, "c", "toml.storage-queue.lock");
    assert HOSTED[0] == "d" && "d"[0] != "c"[0];
    assert |DATA_LOCK| != |"charnel-config.toml"|;
    assert HOSTED[1][0] == 'a';
    assert "charnel-config.toml"[0] != 'a' && "charnel.log"[0] != 'a' && "logs"[0] != 'a' && "WebKit"[0] != 'a'
           && "EBWebView"[0] != 'a' && "webview"[0] != 'a';
  }

  // ---- two fetch moves that are accepted and never end ----

  const FETCHED := Report(MoveFetch, ["f"], ["g"])
  const FETCH := Journal(1, FETCHED, CONFIG, None, false, None, false, false, false, false, None)

  /** A config inside the fetch folder. */
  const INSIDE := Site(["f", "x"], ["d", "m.db"], ["d", "r.db"], ["d", "b"], TUNES)
  const INSIDE_DISK: Files := map[["f", "x"] := CONFIG]

  /** A database inside the fetch folder that names a file there. */
  const BESIDE := Site(["c", "x"], ["d", "m.db"], ["f", "r.db"], ["d", "b"], TUNES)
  const BESIDE_DISK: Files := map[["c", "x"] := CONFIG, ["f", "r.db"] := Database([PathCell(["f", "v"])])]

  /** An empty destination blocks nothing. */
  lemma EmptyDestination(site: Site, files: Files, report: Report, merge: bool)
    requires site.Valid() && Separate(report.source, report.destination) && !(report.destination <= site.config)
    requires forall p :: p in files ==> !(report.destination <= p)
    ensures Accepted(site, files, report, merge)
  {
    forall p | p in SourceTree(site, files, report)
      ensures !Clashes(site, files, report, p) && !Collides(site, files, report, p)
              && InTheWay(files, report, p, 0) == {}
    {
      var target := TargetOf(report, p);
      assert report.destination <= target;
      assert forall f :: Inside(f, target) ==> report.destination <= f;
      assert forall k :: |report.destination| < k < |target| ==> report.destination <= target[..k];
    }
    assert Present(site, files, report) == {};
    hide Clashes, Collides, InTheWay, Present, SourceTree;
    assert Blockers(site, files, report) == {};
    assert Collisions(site, files, report) == {};
  }

  /** What the two have in common. */
  predicate SmallFetch(site: Site, files: Files, c: string) {
    && c in {"c", "f"} && site.config == [c, "x"] && site.mediaExtensions == TUNES
    && site.database == ["d", "m.db"] && site.reliquary in {["d", "r.db"], ["f", "r.db"]}
       && site.transport == ["d", "b"]
    && site.config in files && files[site.config] == CONFIG
    && forall p :: p in files ==> p in {[c, "x"], ["f", "r.db"]}
  }

  lemma FetchNames()
    ensures "c" != "g" && "d" != "g" && "f" != "g" && "c" != "d" && "f" != "d" && "c" != "f"
    ensures "x" !in {"m.db", "r.db", "blobs.db", "x.toml.storage-move.json", "x.toml.storage-before"}
    ensures "r.db" !in {"x.toml.storage-move.json", "x.toml.storage-before"}
  {
    assert "c"[0] == 'c' && "d"[0] == 'd' && "f"[0] == 'f' && "g"[0] == 'g';
    assert "r.db"[0] == 'r' && "x.toml.storage-move.json"[0] == 'x' && "x.toml.storage-before"[0] == 'x';
    assert |"x"| == 1;
  }

  lemma FetchIsAccepted(site: Site, files: Files, c: string)
    requires SmallFetch(site, files, c)
    ensures site.Valid() && Schedules(site, files, FETCHED, false, FETCH)
    ensures Accepted(site, files[site.Pending() := Pending(FETCH)], FETCHED, false)
  {
    hide Accepted, WithExtension;
    CompanionNames(site, c);
    FetchNames();
    var queued := files[site.Pending() := Pending(FETCH)];
    forall p | p in queued ensures !(FETCHED.destination <= p) {
      assert p[0] != FETCHED.destination[0];
    }
    assert FETCHED.source[0] != FETCHED.destination[0];
    assert site.config in queued;
    EmptyDestination(site, files, FETCHED, false);
    EmptyDestination(site, queued, FETCHED, false);
  }

  lemma FetchIsOrderly(site: Site, files: Files, c: string)
    requires SmallFetch(site, files, c) && site.Valid()
    ensures Orderly(site, files[site.Pending() := Pending(FETCH)], FETCH)
  {
    hide WithExtension, Extension;
    CompanionNames(site, c);
    FetchNames();
    NoTunes(site);
    assert [c, "x.toml.storage-move.json"] == [c] + ["x.toml.storage-move.json"];
    assert ["d", "b"] + ["blobs.db"] == INDEX && |INDEX| == 3;
    forall p | p in Managed(site) ensures FetchManaged(site, p) {
      FetchManagedIs(site, p);
    }
    hide Managed;
  }

  predicate FetchManaged(site: Site, p: Path) {
    |p| >= 2 && p[0] != "g" && !site.Media(p) && Name(p) != DATA_LOCK && p[1] in {"m.db", "r.db", "b"}
  }

  lemma FetchManagedIs(site: Site, p: Path)
    requires site.database == ["d", "m.db"] && site.reliquary in {["d", "r.db"], ["f", "r.db"]}
             && site.transport == ["d", "b"]
    requires site.mediaExtensions == TUNES && p in Managed(site)
    ensures FetchManaged(site, p)
  {
    hide Extension;
    FetchNames();
    NoTunes(site);
    assert ["d", "b"] + ["blobs.db"] == INDEX && INDEX == ["d", "b"] + ["blobs.db"];
    assert ["d", "m.db"] == ["d"] + ["m.db"] && ["d", "r.db"] == ["d"] + ["r.db"] && ["f", "r.db"] == ["f"] + ["r.db"];
    assert |DATA_LOCK| > |"blobs.db"|;
  }

  lemma FetchIsReady(site: Site, files: Files, c: string)
    requires SmallFetch(site, files, c)
    ensures site.Valid() && Schedules(site, files, FETCHED, false, FETCH) && Ready(site, files, FETCH, Drawn)
    ensures Plannable(site, files[site.Pending() := Pending(FETCH)], FETCH)
  {
    hide WithExtension, Orderly, Accepted, FreshUuids, IsDigit, Drawn;
    CompanionNames(site, c);
    FetchIsAccepted(site, files, c);
    FetchIsOrderly(site, files, c);
    assert ["d", "b"] + ["blobs.db"] == INDEX;
    LettersAreNoDigits();
    NamesAreFresh(site, files[site.Pending() := Pending(FETCH)]);
  }

  /** A fetch folder that holds the config: accepted, and stalled for good once its manifest is saved. */
  lemma SomeFetchStalls()
    ensures Schedules(INSIDE, INSIDE_DISK, FETCHED, false, FETCH) && Ready(INSIDE, INSIDE_DISK, FETCH, Drawn)
    ensures Plannable(INSIDE, INSIDE_DISK[INSIDE.Pending() := Pending(FETCH)], FETCH)
            && !JournalClear(INSIDE, FETCH)
  {
    hide Schedules, Ready, Plannable, WithExtension;
    CompanionNames(INSIDE, "f");
    FetchIsReady(INSIDE, INSIDE_DISK, "f");
  }

  /** A fetch folder that holds a database with a path into the folder: accepted and readable, but
      rewriting the database spoils the folder, whatever the manifest. */
  lemma SomeFetchSpoilsItself()
    ensures Schedules(BESIDE, BESIDE_DISK, FETCHED, false, FETCH) && Ready(BESIDE, BESIDE_DISK, FETCH, Drawn)
    ensures var files := BESIDE_DISK[BESIDE.Pending() := Pending(FETCH)];
            && Plannable(BESIDE, files, FETCH) && JournalClear(BESIDE, FETCH) && Workable(BESIDE, files, FETCH)
            && forall entries :: !Undisturbed(BESIDE, files, FETCH, entries)
  {
    hide Schedules, Ready, Plannable, WithExtension;
    CompanionNames(BESIDE, "c");
    FetchNames();
    FetchIsReady(BESIDE, BESIDE_DISK, "c");
    var files := BESIDE_DISK[BESIDE.Pending() := Pending(FETCH)];
    assert ["d", "b"] + ["blobs.db"] == INDEX;
    assert BESIDE.Pending()[0] != FETCHED.source[0];
    assert files[["f", "r.db"]] == Database([PathCell(["f", "v"])]);
    assert ["f", "v"] in CellPaths(files[["f", "r.db"]].rows[0]);
    assert !PointsElsewhere(files, FETCH, ["f", "r.db"]);
  }

  /** A database inside the fetch folder that names nothing there. */
  const QUIET_DISK: Files := map[["c", "x"] := CONFIG, ["f", "r.db"] := Database([OtherCell(0)])]

  /** A fetch folder that holds a database which the rewriting leaves alone (accepted by `QuietFetch`): the
      move can be finished, whatever the manifest, and then the database is gone from the path that the
      config names. */
  lemma SomeFetchLosesItsDatabase(plan: Journal)
    requires BESIDE.Valid() && plan.entries.Some? && PlannedFrom(FETCH, plan)
    requires Manifest(BESIDE, QUIET_DISK[BESIDE.Pending() := Pending(FETCH)], FETCHED, Drawn, plan.entries.value)
    ensures Ends(BESIDE, QUIET_DISK, FETCH, plan)
    ensures BESIDE.reliquary in QUIET_DISK && BESIDE.reliquary !in DiskAt(BESIDE, QUIET_DISK, plan, Finished)
  {
    hide Schedules, Ready, Plannable, WithExtension, Manifest, PlannedFrom, Ends, DiskAt, FreshUuids, Orderly,
      WellPlanned;
    var files := QUIET_DISK[BESIDE.Pending() := Pending(FETCH)];
    QuietFetch();
    PlanKeepsReport(FETCH, plan);
    ReadyMeans(BESIDE, QUIET_DISK);
    QuietUndisturbed(plan.entries.value);
    EndsExactly(BESIDE, files, FETCH, Drawn, plan);
    PlanIsWell(BESIDE, files, FETCH, Drawn, plan);
    FetchedListed(BESIDE, files, FETCH, Drawn, plan.entries.value, BESIDE.reliquary);
    FetchedDatabaseIsGone(BESIDE, QUIET_DISK, plan, BESIDE.reliquary);
  }

  lemma ReadyMeans(site: Site, base: Files)
    requires Ready(site, base, FETCH, Drawn)
    ensures site.Valid() && Orderly(site, base[site.Pending() := Pending(FETCH)], FETCH) && FreshQueue(FETCH)
    ensures FreshUuids(site, base[site.Pending() := Pending(FETCH)], Drawn)
    ensures base[site.Pending() := Pending(FETCH)] - {site.Pending()} == base
  {
  }

  /** A fetch folder that holds such a database is accepted. */
  lemma QuietFetch()
    ensures Schedules(BESIDE, QUIET_DISK, FETCHED, false, FETCH) && Ready(BESIDE, QUIET_DISK, FETCH, Drawn)
    ensures var files := QUIET_DISK[BESIDE.Pending() := Pending(FETCH)];
            && Plannable(BESIDE, files, FETCH) && JournalClear(BESIDE, FETCH) && Workable(BESIDE, files, FETCH)
            && BESIDE.reliquary in files && FETCHED.source <= BESIDE.reliquary && BESIDE.reliquary in Managed(BESIDE)
  {
    hide Schedules, Ready, Plannable, WithExtension;
    CompanionNames(BESIDE, "c");
    FetchNames();
    FetchIsReady(BESIDE, QUIET_DISK, "c");
    assert ["d", "b"] + ["blobs.db"] == INDEX;
    assert BESIDE.Pending()[0] != FETCHED.source[0];
  }

  lemma QuietUndisturbed(entries: seq<Entry>)
    requires BESIDE.Valid()
    ensures Undisturbed(BESIDE, QUIET_DISK[BESIDE.Pending() := Pending(FETCH)], FETCH, entries)
  {
    hide WithExtension;
    CompanionNames(BESIDE, "c");
    FetchNames();
    assert ["d", "b"] + ["blobs.db"] == INDEX;
    assert BESIDE.Pending()[0] != FETCHED.source[0] && INDEX[0] != FETCHED.source[0]
           && BESIDE.database[0] != FETCHED.source[0];
  }

  // ---- a config upgrade ----

  const SHIPPED: ConfigMerge.Item := Table(map[
    "server" := Table(map[
      "version" := Doc.Text("0.0.0"),
      "fetch_music" := Table(map["output_dir" := Doc.Text("/m")]),
      "fetch_video" := Table(map["output_dir" := Doc.Text(ConfigMerge.PLACEHOLDER)])]),
    "media" := Table(map["video_transcode_renditions" := List([])])])

  const WRITTEN: ConfigMerge.Item := Table(map["server" := Table(map["version" := Doc.Text("0.3.1")])])

  lemma LookStep(item: ConfigMerge.Item, key: string, rest: seq<string>)
    requires item.Table? && key in item.fields
    ensures ConfigMerge.Look(item, [key] + rest) == ConfigMerge.Look(item.fields[key], rest)
  {
    assert ([key] + rest)[1..] == rest;
  }

  lemma LookTwice(item: ConfigMerge.Item, key: string, next: string, rest: seq<string>)
    requires item.Table? && key in item.fields && item.fields[key].Table? && next in item.fields[key].fields
    ensures ConfigMerge.Look(item, [key, next] + rest) == ConfigMerge.Look(item.fields[key].fields[next], rest)
  {
    hide ConfigMerge.Look;
    LookStep(item, key, [next] + rest);
    LookStep(item.fields[key], next, rest);
    assert [key] + ([next] + rest) == [key, next] + rest;
  }

  lemma ShippedPlaces()
    ensures ConfigMerge.Look(SHIPPED, ["server"]) == Some(SHIPPED.fields["server"])
    ensures ConfigMerge.Look(SHIPPED, ["server", "version"]) == Some(Doc.Text("0.0.0"))
    ensures ConfigMerge.Look(SHIPPED, ["media", "video_transcode_renditions"]) == Some(Doc.List([]))
    ensures ConfigMerge.Look(SHIPPED, ["server", "fetch_video", "output_dir"])
            == Some(Doc.Text(ConfigMerge.PLACEHOLDER))
    ensures ConfigMerge.Look(SHIPPED, ["server", "fetch_music", "output_dir"]) == Some(Doc.Text("/m"))
  {
    var none: seq<string> := [];
    LookStep(SHIPPED, "server", none);
    LookTwice(SHIPPED, "server", "version", none);
    LookTwice(SHIPPED, "media", "video_transcode_renditions", none);
    LookTwice(SHIPPED, "server", "fetch_video", ["output_dir"]);
    LookTwice(SHIPPED, "server", "fetch_music", ["output_dir"]);
    LookStep(SHIPPED.fields["server"].fields["fetch_video"], "output_dir", none);
    LookStep(SHIPPED.fields["server"].fields["fetch_music"], "output_dir", none);
    assert ["server"] + none == ["server"] && ["output_dir"] + none == ["output_dir"];
    assert ["server", "version"] + none == ["server", "version"];
    assert ["media", "video_transcode_renditions"] + none == ["media", "video_transcode_renditions"];
    assert ["server", "fetch_video"] + ["output_dir"] == ["server", "fetch_video", "output_dir"];
    assert ["server", "fetch_music"] + ["output_dir"] == ["server", "fetch_music", "output_dir"];
  }

  /** There is a template of the assumed shape, a config to upgrade with it, and a binary past all gates. */
  lemma SomeUpgradeSettles()
    ensures ConfigUpgrade.TemplateShape(SHIPPED) && ConfigMerge.IsValue(WRITTEN)
    ensures Upgrades.TupleGreater(Upgrades.Tuple(Upgrades.Plain(0, 3, 22)), ConfigUpgrade.ARGS_GATE_2)
  {
    hide Upgrades.Tuple, Upgrades.Plain;
    Upgrades.TuplePlain(0, 3, 22);
    ShippedPlaces();
    assert |"/m"| != |ConfigMerge.PLACEHOLDER|;
  }

  // ---- a recovery ----

  const ROOT: Path := ["h", "u", "data"]
  const PI := PiSnapshot.Site([PiSnapshot.Entry(ROOT, true)], ["v", "backup"], "1", Drawn)
  const START: Trees.Tree := map[ROOT := Trees.Data(2), PiSnapshot.Saved(PI, 0) := Trees.Data(1)]

  /** There is a disk from which a recovery can start, with data that differs from its backup. */
  lemma SomeDiskIsRecoverable()
    ensures PiRecovery.Recoverable(PI, START)
  {
    RecoveryNames();
    RecoveryTrees();
  }

  lemma Names(draw: nat)
    ensures PiSnapshot.Place(PI, PiSnapshot.Source(0)) == ROOT
    ensures PiSnapshot.Place(PI, PiSnapshot.Failed(0)) == ["h", "u", "data.failed-1"]
    ensures PiSnapshot.Place(PI, PiSnapshot.Temp(0, draw)) == ["h", "u", ".data.restore-" + Drawn(draw)]
  {
    assert ROOT[..2] == ["h", "u"] && "" + "data" + (".failed-" + "1") == "data.failed-1";
    assert "." + "data" + (".restore-" + Drawn(draw)) == ".data.restore-" + Drawn(draw);
  }

  lemma TempsDiffer(i: nat, j: nat)
    requires i != j
    ensures ".data.restore-" + Drawn(i) != ".data.restore-" + Drawn(j)
  {
    DecimalValue(i);
    DecimalValue(j);
    assert (".data.restore-" + Drawn(i))[14..] == Drawn(i) && (".data.restore-" + Drawn(j))[14..] == Drawn(j);
  }

  lemma RecoveryNames()
    ensures PiSnapshot.Orderly(PI)
  {
    assert PI.backup[0] != ROOT[0];
    forall z: PiSnapshot.Zone | PiSnapshot.IsZone(PI, z) && !z.Source?
      ensures PiSnapshot.NewName(PI, PiSnapshot.Place(PI, z))
    {
      Names(if z.Temp? then z.draw else 0);
      assert PiSnapshot.Place(PI, z)[0] != PI.backup[0] && PiSnapshot.Place(PI, z)[2] != ROOT[2];
    }
    forall z: PiSnapshot.Zone, w: PiSnapshot.Zone | PiSnapshot.IsZone(PI, z) && PiSnapshot.IsZone(PI, w)
        && z.Temp? && (w.Failed? || (w.Temp? && w.draw != z.draw))
      ensures PiSnapshot.Place(PI, z) != PiSnapshot.Place(PI, w)
    {
      Names(z.draw);
      if w.Temp? {
        Names(w.draw);
        TempsDiffer(z.draw, w.draw);
      }
      assert PiSnapshot.Place(PI, z)[2] != PiSnapshot.Place(PI, w)[2];
    }
  }

  lemma OneNode(files: Trees.Tree, root: Path)
    requires root in files && forall p :: p in files && root <= p ==> p == root
    ensures Trees.Subtree(files, root) == map[[] := files[root]]
  {
    assert root + [] == root;
    forall r | r in Trees.Subtree(files, root) ensures r == [] {
      assert root <= root + r && |root + r| == |root|;
    }
  }

  lemma NoNode(files: Trees.Tree, root: Path)
    requires forall p :: p in files ==> !(root <= p)
    ensures Trees.Subtree(files, root) == map[]
  {
    assert forall r: Path :: root <= root + r;
    assert forall r :: r !in Trees.Subtree(files, root);
  }

  lemma RecoveryTrees()
    requires PiSnapshot.Orderly(PI)
    ensures PiRecovery.RootRecoverable(PI, START, 0)
  {
    hide PiSnapshot.Place, PiSnapshot.Orderly, Trees.Subtree;
    var saved := PiSnapshot.Saved(PI, 0);
    assert saved == ["v", "backup", Decimal(0)];
    Names(0);
    OneNode(START, ROOT);
    OneNode(START, saved);
    var original, backup := PiRecovery.At(PI, START, PiSnapshot.Source(0)), PiRecovery.Backup(PI, START, 0);
    assert original.Keys == {[]} && backup.Keys == {[]} && [] in backup;
    assert PiRecovery.WellShaped(original) && PiRecovery.WellShaped(backup);
    assert PI.entries[0].existed;
    assert ROOT[2] != "data.failed-1" && ROOT[0] != saved[0];
    NoNode(START, PiSnapshot.Place(PI, PiSnapshot.Failed(0)));
    forall draw: nat ensures PiRecovery.At(PI, START, PiSnapshot.Temp(0, draw)) == map[] {
      Names(draw);
      assert (".data.restore-" + Drawn(draw))[0] != ROOT[2][0];
      NoNode(START, PiSnapshot.Place(PI, PiSnapshot.Temp(0, draw)));
    }
  }
}
