/** The reach of a storage move in plain names: which files it takes along, where each of them goes, and
    what at the destination keeps it from being accepted. Nothing here mentions how the listing, the
    review or the manifest are computed. */
module MoveScope {
  import opened Paths
  import opened StorageTypes
  import opened Remapping
  import opened MoveSpec
  import opened MovePlan

  /** What is left of a file name without its last extension. */
  ghost predicate NamedFrom(name: string, stem: string) {
    || (stem != "" && exists extension :: '.' !in extension && name == stem + "." + extension)
    || (stem == name != "" && '.' !in name[1..])
  }

  lemma StemIs(name: string, stem: string)
    requires NamedFrom(name, stem)
    ensures Stem(name) == stem
  {
    var dot := LastDot(name);
    if stem == name && '.' !in name[1..] {
      forall j | 0 < j < |name| ensures name[j] != '.' { assert name[j] == name[1..][j - 1]; }
    } else {
      var extension :| '.' !in extension && name == stem + "." + extension;
      assert name[|stem|] == '.';
      forall j | |stem| < j < |name| ensures name[j] != '.' { assert name[j] == extension[j - |stem| - 1]; }
      assert name[..|stem|] == stem;
    }
  }

  /** A file with a stem and an extension is media if and only if the extension is one of media. */
  lemma MediaByExtension(site: Site, directory: Path, stem: string, extension: string)
    requires stem != "" && '.' !in extension
    ensures site.Media(directory + [stem + "." + extension]) <==> extension in site.mediaExtensions
  {
    var name := stem + "." + extension;
    StemIs(name, stem);
    var dot := LastDot(name);
    assert name[|stem|] == '.';
    forall j | |stem| < j < |name| ensures name[j] != '.' { assert name[j] == extension[j - |stem| - 1]; }
    assert name[|stem| + 1..] == extension;
  }

  /** A name without a dot, or with one only in front, has no extension. */
  lemma MediaWithoutExtension(site: Site, directory: Path, name: string)
    requires name != "" && '.' !in name[1..]
    ensures site.Media(directory + [name]) <==> "" in site.mediaExtensions
  {
    forall j | 0 < j < |name| ensures name[j] != '.' { assert name[j] == name[1..][j - 1]; }
    assert LastDot(name) <= 0;
  }

  /** The files beside a config that belong to it. */
  ghost function Beside(directory: Path, stem: string): set<Path> {
    {directory + [stem + ".toml.storage-move.json"], directory + [stem + ".toml.storage.lock"],
     directory + [stem + ".toml.storage-queue.lock"], directory + [stem + ".toml.storage-before"]}
  }

  /** Every config has such a name. */
  lemma SomeStem(site: Site)
    requires site.Valid() && Name(site.config) != ""
    ensures ConfigBeside(site, Beside(site.config[..|site.config| - 1], Stem(Name(site.config))))
  {
    hide NamedFrom, Stem, Beside;
    StemNames(Name(site.config));
    assert site.config == site.config[..|site.config| - 1] + [Name(site.config)];
  }

  lemma StemNames(name: string)
    requires name != ""
    ensures NamedFrom(name, Stem(name))
  {
    var dot := LastDot(name);
    if dot > 0 {
      var extension := name[dot + 1..];
      assert forall j :: 0 <= j < |extension| ==> extension[j] == name[dot + 1 + j];
      assert name == name[..dot] + "." + extension;
    } else {
      assert forall j :: 0 <= j < |name[1..]| ==> name[1..][j] == name[j + 1];
    }
  }

  lemma SiblingIs(config: Path, directory: Path, name: string, stem: string, extension: string, full: string)
    requires config == directory + [name] && NamedFrom(name, stem) && full == stem + ("." + extension)
    ensures WithExtension(config, extension) == directory + [full]
  {
    StemIs(name, stem);
    assert stem + "." + extension == full;
    assert config[..|config| - 1] == directory;
  }

  /** The config is named like that, and these are the files beside it. */
  ghost predicate ConfigBeside(site: Site, beside: set<Path>) {
    exists directory, name, stem ::
      site.config == directory + [name] && NamedFrom(name, stem) && beside == Beside(directory, stem)
  }

  lemma BesideIs(site: Site, beside: set<Path>)
    requires ConfigBeside(site, beside)
    ensures site.Valid()
    ensures beside == {site.Pending(), WithExtension(site.config, "toml.storage.lock"),
                       WithExtension(site.config, "toml.storage-queue.lock"), site.Backup()}
  {
    hide WithExtension, NamedFrom;
    var directory, name, stem :|
      site.config == directory + [name] && NamedFrom(name, stem) && beside == Beside(directory, stem);
    SiblingIs(site.config, directory, name, stem, "toml.storage-move.json", stem + ".toml.storage-move.json");
    SiblingIs(site.config, directory, name, stem, "toml.storage.lock", stem + ".toml.storage.lock");
    SiblingIs(site.config, directory, name, stem, "toml.storage-queue.lock", stem + ".toml.storage-queue.lock");
    SiblingIs(site.config, directory, name, stem, "toml.storage-before", stem + ".toml.storage-before");
  }

  lemma KeptBeside(site: Site, beside: set<Path>, p: Path, root: Path)
    requires ConfigBeside(site, beside) && Inside(p, root)
    ensures site.Valid()
    ensures Retained(site, p, root) <==>
              || p == site.config || p in beside || p == root + [".freqhole-storage.lock"]
              || p[|root|] in {"charnel-config.toml", "charnel.log", "logs", "WebKit", "EBWebView", "webview"}
  {
    hide WithExtension, ConfigBeside;
    BesideIs(site, beside);
  }

  /** The files below the source that a move looks at. A data move leaves alone the config, the four files
      beside it and what belongs to the host; selecting looks at none. */
  ghost predicate Concerned(site: Site, files: Files, report: Report, beside: set<Path>, p: Path) {
    && p in files && Inside(p, report.source) && p != report.source + [".freqhole-storage.lock"]
    && match report.operation
       case SelectData => false
       case MoveFetch => true
       case MoveData =>
         && p != site.config && p !in beside
         && p[|report.source|] !in
           {"charnel-config.toml", "charnel.log", "logs", "WebKit", "EBWebView", "webview"}
  }

  lemma ConcernedListed(site: Site, files: Files, report: Report, beside: set<Path>, p: Path)
    requires site.Valid() && ConfigBeside(site, beside)
    ensures p in SourceTree(site, files, report) <==> Concerned(site, files, report, beside, p)
  {
    hide Retained, ConfigBeside;
    if Inside(p, report.source) {
      KeptBeside(site, beside, p, report.source);
    }
  }

  /** A move takes along exactly the files it looks at, but for data locks at any depth. */
  lemma MoveTakes(site: Site, files: Files, report: Report, uuids: nat -> string, entries: seq<Entry>,
      beside: set<Path>)
    requires site.Valid() && ConfigBeside(site, beside) && Manifest(site, files, report, uuids, entries)
    ensures forall p :: p in Sources(entries) <==>
              Concerned(site, files, report, beside, p) && p[|p| - 1] != ".freqhole-storage.lock"
  {
    hide SourceTree, ConfigBeside, Concerned;
    forall p ensures p in SourceTree(site, files, report) <==> Concerned(site, files, report, beside, p) {
      ConcernedListed(site, files, report, beside, p);
    }
    ConcernedInside(site, files, report, beside);
  }

  lemma ConcernedInside(site: Site, files: Files, report: Report, beside: set<Path>)
    ensures forall p :: Concerned(site, files, report, beside, p) ==> p != []
  {
  }

  /** The place below the destination with the name that a file has below the source. */
  ghost function Place(report: Report, p: Path): Path
    requires report.source <= p
  {
    report.destination + p[|report.source|..]
  }

  lemma PlaceIs(report: Report, p: Path)
    requires report.source <= p
    ensures TargetOf(report, p) == Place(report, p)
  {
  }

  /** Every file goes to the place with its own name below the destination or, where something else has that
      name already, next to it under the drawn name; the digest is that of the file as it was planned. */
  lemma MoveLands(site: Site, files: Files, report: Report, uuids: nat -> string, entries: seq<Entry>, i: nat)
    requires site.Valid() && Manifest(site, files, report, uuids, entries) && i < |entries|
    ensures var e := entries[i];
            && e.source in files && Inside(e.source, report.source)
            && e.hash == Digest(files[e.source]) && e.destinationHash.None?
            && var place := Place(report, e.source);
               e.destination ==
               if place in files && files[place] != files[e.source]
               then place[..|place| - 1] + [uuids(i) + "-" + e.source[|e.source| - 1]]
               else place
  {
    var e := entries[i];
    assert e.source in Sources(entries);
    PlaceIs(report, e.source);
    assert Place(report, e.source) != [] && Name(Place(report, e.source)) == Name(e.source);
  }

  /** Nothing stands in the way of one file: its own place is free, or both it and what stands there are
      media, with the same content or for merging; no file lies where it needs a directory. */
  ghost predicate Free(site: Site, files: Files, report: Report, merge: bool, p: Path)
    requires report.source <= p && p in files
  {
    var place := Place(report, p);
    && (place in files ==> site.Media(p) && site.Media(place) && (merge || files[p] == files[place]))
    && (place !in files ==> forall f :: f in files ==> !(place < f))
    && (forall f :: f in files && f < place ==> f <= report.destination)
  }

  lemma ParentsExactly(files: Files, report: Report, p: Path)
    requires report.source <= p
    ensures (forall f :: f in files && f < Place(report, p) ==> f <= report.destination)
            <==> InTheWay(files, report, p, 0) == {}
  {
    hide Remap;
    PlaceIs(report, p);
    var place, way := Place(report, p), InTheWay(files, report, p, 0);
    forall f | f in files && f < place && !(f <= report.destination) ensures f in way {
      assert f == place[..|f|] && report.destination == place[..|report.destination|];
      assert |f| > |report.destination| || f <= report.destination;
    }
    forall f | f in way ensures f in files && f < place && !(f <= report.destination) {
    }
  }

  lemma FreeExactly(site: Site, files: Files, report: Report, merge: bool, p: Path)
    requires report.source <= p && p in files
    ensures Free(site, files, report, merge, p) <==>
              && !Clashes(site, files, report, p) && InTheWay(files, report, p, 0) == {}
              && (merge || !Collides(site, files, report, p))
  {
    hide InTheWay, Remap;
    PlaceIs(report, p);
    ParentsExactly(files, report, p);
  }

  /** A move is accepted if and only if its two directories are not nested, the destination does not hold the
      config and, data locks aside, only media, and nothing stands in the way of any file it looks at. */
  lemma AcceptedExactly(site: Site, files: Files, report: Report, merge: bool, beside: set<Path>)
    requires site.Valid() && ConfigBeside(site, beside)
    ensures Accepted(site, files, report, merge) <==>
              && !(report.source <= report.destination) && !(report.destination <= report.source)
              && !(report.destination <= site.config)
              && (forall p :: p in files && Inside(p, report.destination) ==>
                    p[|p| - 1] == ".freqhole-storage.lock" || site.Media(p))
              && (forall p :: Concerned(site, files, report, beside, p) ==> Free(site, files, report, merge, p))
  {
    hide ConfigBeside, Clashes, Collides, InTheWay, Free, Concerned;
    var moving := SourceTree(site, files, report);
    forall p ensures p in moving <==> Concerned(site, files, report, beside, p) {
      ConcernedListed(site, files, report, beside, p);
    }
    assert forall p :: p in moving ==> p in files && Inside(p, report.source);
    forall p | p in moving
      ensures Free(site, files, report, merge, p) <==>
              && !Clashes(site, files, report, p) && InTheWay(files, report, p, 0) == {}
              && (merge || !Collides(site, files, report, p))
    {
      FreeExactly(site, files, report, merge, p);
    }
    NothingBlocks(site, files, report, moving);
    NothingCollides(site, files, report, moving);
    MediaOnly(site, files, report);
  }

  lemma NothingBlocks(site: Site, files: Files, report: Report, moving: set<Path>)
    ensures BlockersOf(site, files, report, moving) == {} <==>
            forall p :: p in moving ==> !Clashes(site, files, report, p) && InTheWay(files, report, p, 0) == {}
  {
    hide Clashes, InTheWay;
    var blockers := BlockersOf(site, files, report, moving);
    forall p | p in moving
      ensures Clashes(site, files, report, p) ==> TargetOf(report, p) in blockers
      ensures forall q :: q in InTheWay(files, report, p, 0) ==> q in blockers
    {
    }
  }

  lemma NothingCollides(site: Site, files: Files, report: Report, moving: set<Path>)
    ensures CollisionsOf(site, files, report, moving) == {} <==>
            forall p :: p in moving ==> !Collides(site, files, report, p)
  {
    hide Collides;
    var collisions := CollisionsOf(site, files, report, moving);
    assert forall p :: p in moving && Collides(site, files, report, p) ==> TargetOf(report, p) in collisions;
  }

  lemma MediaOnly(site: Site, files: Files, report: Report)
    requires site.Valid()
    ensures (set p | p in Present(site, files, report) && !site.Media(p)) == {} <==>
            (forall p :: p in files && Inside(p, report.destination) ==>
               p[|p| - 1] == ".freqhole-storage.lock" || site.Media(p))
  {
    var standing := set p | p in Present(site, files, report) && !site.Media(p);
    forall p | p in files && Inside(p, report.destination) && p[|p| - 1] != ".freqhole-storage.lock" && !site.Media(p)
      ensures p in standing
    {
      assert p in Present(site, files, report);
    }
  }
}
