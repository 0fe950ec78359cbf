/** Choosing what a Charnel update on the Pi backs up, and where the backup and the recovery keep
    things. Models `snapshot_roots`, `snapshot` and the names used by `recover` in
    scripts/raspberry-pi/charnel.py. */
module PiSnapshot {
  import opened Wrappers
  import opened Paths
  import opened Text

  // ---- choosing the roots ----

  /** A path is the parts that pathlib splits it into, of which the first is the root directory. The program
      keeps its own files below `root`. */
  predicate TooBroad(p: Path, root: Path, home: Path) {
    p <= root || p == home || |p| < 3
  }

  /** Refused are the root directory and what lies right in it, the home directory, and whatever the program's
      own directory is or lies in. */
  lemma BroadPaths(p: Path, root: Path, home: Path)
    ensures TooBroad(p, root, home) <==>
              || p == [] || (exists first :: p == [first]) || (exists first, second :: p == [first, second])
              || p == home || exists below :: root == p + below
  {
    assert |p| == 1 ==> p == [p[0]];
    assert |p| == 2 ==> p == [p[0], p[1]];
    assert p <= root ==> root == p + root[|p|..];
  }

  predicate Shortest(p: Path, paths: set<Path>) {
    p in paths && forall q :: q in paths ==> |p| <= |q|
  }

  lemma {:induction false} ShortestExists(paths: set<Path>)
    requires paths != {}
    ensures exists p :: Shortest(p, paths)
  {
    var p :| p in paths;
    if paths == {p} {
      assert Shortest(p, paths);
    } else {
      ShortestExists(paths - {p});
      var q :| Shortest(q, paths - {p});
      assert Shortest(if |q| < |p| then q else p, paths);
    }
  }

  /** Some root contains the path. */
  predicate Covered(p: Path, roots: seq<Path>) {
    exists i :: 0 <= i < |roots| && roots[i] <= p
  }

  /** No root contains another. */
  predicate Spread(roots: seq<Path>) {
    forall i, j :: 0 <= i < j < |roots| ==> Separate(roots[i], roots[j])
  }

  lemma RootAdded(roots: seq<Path>, path: Path)
    requires Spread(roots) && !Covered(path, roots) && forall r :: r in roots ==> |r| <= |path|
    ensures Spread(roots + [path]) && Covered(path, roots + [path])
    ensures forall p :: Covered(p, roots) ==> Covered(p, roots + [path])
  {
    assert (roots + [path])[|roots|] == path;
    forall i | 0 <= i < |roots| ensures Separate(roots[i], path) {
      assert !(roots[i] <= path) && roots[i] in roots;
      assert |roots[i]| == |path| ==> roots[i] != path;
    }
    forall p | Covered(p, roots) ensures Covered(p, roots + [path]) {
      var i :| 0 <= i < |roots| && roots[i] <= p;
      assert (roots + [path])[i] <= p;
    }
  }

  lemma NoRootsSpread()
    ensures Spread([])
  {
  }

  /** Selects roots from the requested paths, shortest first, leaving out what a selected root already
      contains; refuses everything when one path is too broad. The selected roots are requested, cover
      all requested paths, and none contains another. */
  method SnapshotRoots(requested: set<Path>, root: Path, home: Path) returns (selected: Option<seq<Path>>)
    ensures selected.None? <==> exists p :: p in requested && TooBroad(p, root, home)
    ensures selected.Some? ==>
              && (forall p :: p in selected.value ==> p in requested)
              && (forall p :: p in requested ==> Covered(p, selected.value))
              && Spread(selected.value)
  {
    hide Spread, Covered;
    var rest, roots := requested, [];
    NoRootsSpread();
    while rest != {}
      invariant rest <= requested && Spread(roots)
      invariant forall p :: p in roots ==> p in requested
      invariant forall p :: p in requested && p !in rest ==> !TooBroad(p, root, home) && Covered(p, roots)
      invariant forall r, q :: r in roots && q in rest ==> |r| <= |q|
      decreases rest
    {
      ShortestExists(rest);
      var path :| Shortest(path, rest);
      if TooBroad(path, root, home) {
        return None;
      }
      if !Covered(path, roots) {
        RootAdded(roots, path);
        roots := roots + [path];
      }
      rest := rest - {path};
    }
    return Some(roots);
  }

  // ---- names ----

  /** One root of the snapshot, as its manifest records it. */
  datatype Entry = Entry(source: Path, existed: bool)

  /** A transaction's backup directory, its manifest, and the random names that temporary files get. */
  datatype Site = Site(entries: seq<Entry>, backup: Path, stamp: string, tokens: nat -> string)

  /** The sibling of a path whose name is the path's own between a prefix and a suffix. */
  function NamedAfter(p: Path, prefix: string, suffix: string): Path
    requires p != []
  {
    p[..|p| - 1] + [prefix + Name(p) + suffix]
  }

  function Saved(site: Site, i: nat): Path {
    site.backup + [Decimal(i)]
  }

  /** The places that a recovery works on. */
  datatype Zone = Source(i: nat) | Failed(i: nat) | Temp(i: nat, draw: nat)

  predicate IsZone(site: Site, z: Zone) {
    z.i < |site.entries| && site.entries[z.i].source != []
  }

  function Place(site: Site, z: Zone): Path
    requires IsZone(site, z)
  {
    var source := site.entries[z.i].source;
    match z
    case Source(_) => source
    case Failed(_) => NamedAfter(source, "", ".failed-" + site.stamp)
    case Temp(_, draw) => NamedAfter(source, ".", ".restore-" + site.tokens(draw))
  }

  /** No root and no part of the backup is at or below the path. */
  predicate NewName(site: Site, p: Path) {
    !(p <= site.backup) && forall i :: 0 <= i < |site.entries| ==> !(p <= site.entries[i].source)
  }

  /** The roots are as `SnapshotRoots` returns them, the backup is elsewhere, and the names derived from
      the time stamp and from random tokens are new. */
  ghost predicate Orderly(site: Site) {
    var n := |site.entries|;
    && (forall i :: 0 <= i < n ==> site.entries[i].source != [] && Separate(site.entries[i].source, site.backup))
    && (forall i, j :: 0 <= i < j < n ==> Separate(site.entries[i].source, site.entries[j].source))
    && (forall z :: IsZone(site, z) && !z.Source? ==> NewName(site, Place(site, z)))
    && (forall z, w :: IsZone(site, z) && IsZone(site, w) && z.Temp? && (w.Failed? || (w.Temp? && w.draw != z.draw)) ==>
          Place(site, z) != Place(site, w))
  }

  lemma SiblingNames(p: Path, q: Path, prefix: string, suffix: string)
    requires p != [] && q != [] && NamedAfter(p, prefix, suffix) == NamedAfter(q, prefix, suffix)
    ensures p == q
  {
    var left, right := NamedAfter(p, prefix, suffix), NamedAfter(q, prefix, suffix);
    assert left[|p| - 1] == prefix + Name(p) + suffix && right[|q| - 1] == prefix + Name(q) + suffix;
    SameBetween(prefix, Name(p), Name(q), suffix);
    assert left[..|p| - 1] == p[..|p| - 1] && right[..|q| - 1] == q[..|q| - 1];
    assert p == p[..|p| - 1] + [Name(p)] && q == q[..|q| - 1] + [Name(q)];
  }

  lemma SameBetween(prefix: string, a: string, b: string, suffix: string)
    requires prefix + a + suffix == prefix + b + suffix
    ensures a == b
  {
    assert (prefix + a + suffix)[|prefix|..|prefix| + |a|] == a;
    assert (prefix + b + suffix)[|prefix|..|prefix| + |b|] == b;
  }

  lemma PlacesDiffer(site: Site, z: Zone, w: Zone)
    requires Orderly(site) && IsZone(site, z) && IsZone(site, w) && z != w
    ensures Place(site, z) != Place(site, w)
  {
    var p, q := site.entries[z.i].source, site.entries[w.i].source;
    if Place(site, z) == Place(site, w) {
      if z.Failed? && w.Failed? {
        SiblingNames(p, q, "", ".failed-" + site.stamp);
      } else if z.Temp? && w.Temp? {
        SiblingNames(p, q, ".", ".restore-" + site.tokens(z.draw));
      }
    }
  }

  /** No place that a recovery works on lies in another one, or in the backup. */
  lemma ZonesApart(site: Site, z: Zone, w: Zone)
    requires Orderly(site) && IsZone(site, z) && IsZone(site, w) && z != w
    ensures Separate(Place(site, z), Place(site, w))
  {
    PlacesDiffer(site, z, w);
    NotInside(site, z, w);
    NotInside(site, w, z);
  }

  lemma NotInside(site: Site, z: Zone, w: Zone)
    requires Orderly(site) && IsZone(site, z) && IsZone(site, w) && Place(site, z) != Place(site, w)
    ensures !(Place(site, z) <= Place(site, w))
  {
    var p, q := Place(site, z), site.entries[w.i].source;
    if !w.Source? {
      ContainsSiblings(p, Place(site, w), q);
    }
  }

  lemma BackupApart(site: Site, z: Zone)
    requires Orderly(site) && IsZone(site, z)
    ensures Separate(Place(site, z), site.backup)
  {
    var source := site.entries[z.i].source;
    if !z.Source? {
      ContainsSiblings(site.backup, Place(site, z), source);
    }
  }
}
