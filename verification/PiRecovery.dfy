/** Crash-safe recovery of Charnel's data on the Pi: every root of the backup is staged beside its
    source, swapped in by two renames, and recorded in a progress file, so that a recovery that is cut
    off at any write can be started again. Models the restoring loop of `recover` and the copying of
    `snapshot` in scripts/raspberry-pi/charnel.py. */
module PiRecovery {
  import opened Wrappers
  import opened Paths
  import opened Text
  import opened Trees
  import opened PiSnapshot

  /** What recovery.json records about one root. */
  datatype Item = Prepared(staged: Option<Path>) | Restored

  datatype Outcome =
    | Done | PowerLost | TargetExists(i: nat) | RefusingToOverwrite(i: nat) | LostBothCopies(i: nat)

  // ---- what a recovery starts from ----

  function At(site: Site, files: Tree, z: Zone): Tree
    requires IsZone(site, z)
  {
    Subtree(files, Place(site, z))
  }

  function Backup(site: Site, files: Tree, i: nat): Tree {
    Subtree(files, Saved(site, i))
  }

  /** A tree with anything in it has a root, and a file has nothing below it. */
  predicate WellShaped(tree: Tree) {
    tree != map[] ==> [] in tree && (tree[[]].Data? ==> tree.Keys == {[]})
  }

  /** The backup holds what the manifest says, and nothing stands under the names that the recovery is
      going to use. */
  ghost predicate Recoverable(site: Site, start: Tree) {
    && Orderly(site)
    && forall i: nat :: i < |site.entries| ==> RootRecoverable(site, start, i)
  }

  ghost predicate RootRecoverable(site: Site, start: Tree, i: nat)
    requires i < |site.entries| && IsZone(site, Source(i))
  {
    && WellShaped(At(site, start, Source(i))) && WellShaped(Backup(site, start, i))
    && (site.entries[i].existed <==> Backup(site, start, i) != map[])
    && At(site, start, Failed(i)) == map[]
    && forall draw: nat :: At(site, start, Temp(i, draw)) == map[]
  }

  // ---- what is kept, root by root ----

  /** A prepared root: untouched, moved away, or swapped. */
  predicate InSwap(source: Tree, failed: Tree, staged: Tree, original: Tree, backup: Tree) {
    || (source == original && failed == map[] && staged == backup)
    || (source == map[] && failed == original && staged == backup)
    || (source == backup && failed == original && staged == map[])
  }

  /** The disk holds what the progress file says about a root. */
  ghost predicate RootOk(site: Site, start: Tree, files: Tree, draws: nat, i: nat, item: Option<Item>)
    requires i < |site.entries| && IsZone(site, Source(i))
  {
    var source, failed := At(site, files, Source(i)), At(site, files, Failed(i));
    var original, backup := At(site, start, Source(i)), Backup(site, start, i);
    match item
    case None => source == original && failed == map[]
    case Some(Restored) => source == backup && failed == original
    case Some(Prepared(None)) => backup == map[] && InSwap(source, failed, map[], original, backup)
    case Some(Prepared(Some(path))) =>
      && backup != map[]
      && exists draw: nat :: draw < draws && path == Place(site, Temp(i, draw))
           && InSwap(source, failed, At(site, files, Temp(i, draw)), original, backup)
  }

  function Recorded(progress: map<nat, Item>, i: nat): Option<Item> {
    if i in progress then Some(progress[i]) else None
  }

  /** The places of one root that have been used so far. */
  ghost function OwnPlaces(site: Site, i: nat, draws: nat): set<Path>
    requires IsZone(site, Source(i))
  {
    {Place(site, Source(i)), Place(site, Failed(i))} + set draw: nat | draw < draws :: Place(site, Temp(i, draw))
  }

  /** Used places of all roots. */
  ghost function Places(site: Site, draws: nat): set<Path>
    requires Orderly(site)
  {
    set i: nat, p | i < |site.entries| && p in OwnPlaces(site, i, draws) :: p
  }

  /** The invariant of a recovery, through all its runs. */
  ghost predicate Consistent(site: Site, start: Tree, files: Tree, progress: map<nat, Item>, draws: nat)
    requires Orderly(site)
  {
    && SameOutside(start, files, Places(site, draws))
    && (forall i: nat :: i < |site.entries| ==> RootOk(site, start, files, draws, i, Recorded(progress, i)))
    && (forall i: nat, draw: nat :: i < |site.entries| && draw >= draws ==> At(site, files, Temp(i, draw)) == map[])
  }

  lemma OwnPlace(site: Site, i: nat, draws: nat, p: Path) returns (z: Zone)
    requires IsZone(site, Source(i)) && p in OwnPlaces(site, i, draws)
    ensures z.i == i && IsZone(site, z) && p == Place(site, z) && (z.Temp? ==> z.draw < draws)
  {
    if p == Place(site, Source(i)) {
      z := Source(i);
    } else if p == Place(site, Failed(i)) {
      z := Failed(i);
    } else {
      var draw: nat :| draw < draws && p == Place(site, Temp(i, draw));
      z := Temp(i, draw);
    }
  }

  /** Work on one root leaves every other place of the recovery alone. */
  lemma PlaceKept(site: Site, before: Tree, after: Tree, i: nat, draws: nat, w: Zone)
    requires Orderly(site) && i < |site.entries| && SameOutside(before, after, OwnPlaces(site, i, draws))
    requires IsZone(site, w) && (w.i != i || (w.Temp? && w.draw >= draws))
    ensures At(site, after, w) == At(site, before, w)
  {
    forall p | p in OwnPlaces(site, i, draws) ensures Separate(p, Place(site, w)) {
      var z := OwnPlace(site, i, draws, p);
      ZonesApart(site, z, w);
    }
    SubtreeKept(before, after, OwnPlaces(site, i, draws), Place(site, w));
  }

  lemma BackupKept(site: Site, before: Tree, after: Tree, draws: nat, root: Path)
    requires Orderly(site) && SameOutside(before, after, Places(site, draws)) && site.backup <= root
    ensures Subtree(after, root) == Subtree(before, root)
  {
    forall p | p in Places(site, draws) ensures Separate(p, root) {
      var i: nat :| i < |site.entries| && p in OwnPlaces(site, i, draws);
      var z := OwnPlace(site, i, draws, p);
      BackupApart(site, z);
      if p <= root {
        CommonDescendant(p, site.backup, root);
      }
    }
    SubtreeKept(before, after, Places(site, draws), root);
  }

  lemma OtherRootKept(site: Site, start: Tree, before: Tree, after: Tree, i: nat, draws: nat, draws': nat,
      j: nat, item: Option<Item>)
    requires Orderly(site) && i < |site.entries| && j < |site.entries| && i != j && draws <= draws'
    requires SameOutside(before, after, OwnPlaces(site, i, draws'))
    requires RootOk(site, start, before, draws, j, item)
    ensures RootOk(site, start, after, draws', j, item)
  {
    hide InSwap, At, OwnPlaces, Place;
    PlaceKept(site, before, after, i, draws', Source(j));
    PlaceKept(site, before, after, i, draws', Failed(j));
    if item.Some? && item.value.Prepared? && item.value.staged.Some? {
      var draw: nat :| draw < draws && item.value.staged.value == Place(site, Temp(j, draw))
        && InSwap(At(site, before, Source(j)), At(site, before, Failed(j)), At(site, before, Temp(j, draw)),
                  At(site, start, Source(j)), Backup(site, start, j));
      PlaceKept(site, before, after, i, draws', Temp(j, draw));
    }
  }

  /** Work on one root that leaves that root in order leaves everything in order. */
  lemma StepKeeps(site: Site, start: Tree, before: Tree, after: Tree, progress: map<nat, Item>,
      progress': map<nat, Item>,
                  draws: nat, draws': nat, i: nat)
    requires Orderly(site) && i < |site.entries| && draws <= draws'
    requires Consistent(site, start, before, progress, draws)
    requires SameOutside(before, after, OwnPlaces(site, i, draws'))
    requires forall j :: j != i ==> Recorded(progress', j) == Recorded(progress, j)
    requires RootOk(site, start, after, draws', i, Recorded(progress', i))
    ensures Consistent(site, start, after, progress', draws')
  {
    hide RootOk, SameOutside;
    forall j: nat | j < |site.entries| ensures RootOk(site, start, after, draws', j, Recorded(progress', j)) {
      if j != i {
        OtherRootKept(site, start, before, after, i, draws, draws', j, Recorded(progress, j));
      }
    }
    forall j: nat, draw: nat | j < |site.entries| && draw >= draws' ensures At(site, after, Temp(j, draw)) == map[] {
      PlaceKept(site, before, after, i, draws', Temp(j, draw));
    }
    assert OwnPlaces(site, i, draws') <= Places(site, draws');
    SameOutsideGrows(before, after, OwnPlaces(site, i, draws'), Places(site, draws'));
    PlacesGrow(site, draws, draws');
    SameOutsideGrows(start, before, Places(site, draws), Places(site, draws'));
    SameOutsideCompose(start, before, after, Places(site, draws'));
  }

  lemma PlacesGrow(site: Site, draws: nat, draws': nat)
    requires Orderly(site) && draws <= draws'
    ensures Places(site, draws) <= Places(site, draws')
  {
    forall p | p in Places(site, draws) ensures p in Places(site, draws') {
      var i: nat :| i < |site.entries| && p in OwnPlaces(site, i, draws);
      var z := OwnPlace(site, i, draws, p);
      assert p in OwnPlaces(site, i, draws');
    }
  }

  lemma StartConsistent(site: Site, start: Tree)
    requires Recoverable(site, start)
    ensures Consistent(site, start, start, map[], 0)
  {
    hide Place, Subtree, InSwap, NewName, Separate, Places;
    forall i: nat | i < |site.entries| ensures RootOk(site, start, start, 0, i, None) {
      assert RootRecoverable(site, start, i);
    }
    forall i: nat, draw: nat | i < |site.entries| ensures At(site, start, Temp(i, draw)) == map[] {
      assert RootRecoverable(site, start, i);
    }
  }

  // ---- the swap ----

  /** The place of a staged copy, as a zone. */
  lemma StagedZone(site: Site, start: Tree, files: Tree, draws: nat, i: nat, path: Path) returns (draw: nat)
    requires i < |site.entries| && IsZone(site, Source(i))
    requires RootOk(site, start, files, draws, i, Some(Prepared(Some(path))))
    ensures draw < draws && path == Place(site, Temp(i, draw)) && Backup(site, start, i) != map[]
    ensures InSwap(At(site, files, Source(i)), At(site, files, Failed(i)), At(site, files, Temp(i, draw)),
                   At(site, start, Source(i)), Backup(site, start, i))
  {
    draw :| draw < draws && path == Place(site, Temp(i, draw))
      && InSwap(At(site, files, Source(i)), At(site, files, Failed(i)), At(site, files, Temp(i, draw)),
                At(site, start, Source(i)), Backup(site, start, i));
  }

  ghost predicate Ready(site: Site, start: Tree, files: Tree, draws: nat, i: nat, staged: Option<Path>) {
    && Orderly(site) && i < |site.entries| && RootRecoverable(site, start, i)
    && RootOk(site, start, files, draws, i, Some(Prepared(staged)))
  }

  predicate OwnZone(i: nat, draws: nat, z: Zone) {
    z.i == i && (z.Temp? ==> z.draw < draws)
  }

  /** A rename between two places of a root, seen from both and from a third place. */
  lemma RenamedPlaces(site: Site, files: Tree, draws: nat, i: nat, from: Zone, to: Zone, other: Zone)
    requires Orderly(site) && i < |site.entries| && OwnZone(i, draws, from) && OwnZone(i, draws, to) && other.i == i
    requires from != to && other != from && other != to && At(site, files, to) == map[]
    ensures var after := Rename(files, Place(site, from), Place(site, to));
            && At(site, after, to) == At(site, files, from) && At(site, after, from) == map[]
            && At(site, after, other) == At(site, files, other)
            && SameOutside(files, after, OwnPlaces(site, i, draws))
  {
    hide Rename, SameOutside, NewName, Subtree, Place;
    var zones := {Place(site, from), Place(site, to)};
    var after := Rename(files, Place(site, from), Place(site, to));
    ZonesApart(site, from, to);
    ZonesApart(site, from, other);
    ZonesApart(site, to, other);
    RenameMoves(files, Place(site, from), Place(site, to));
    SubtreeKept(files, after, zones, Place(site, other));
    SameOutsideGrows(files, after, zones, OwnPlaces(site, i, draws));
  }

  lemma Present(site: Site, files: Tree, z: Zone)
    requires IsZone(site, z)
    ensures Place(site, z) in files <==> [] in At(site, files, z)
  {
    SameRootAsPresent(files, Place(site, z));
  }

  /** When a swap still has a source to move away, the name for the failed data is free, and moving it
      there is a step of the swap. */
  lemma MoveAway(site: Site, start: Tree, files: Tree, draws: nat, i: nat, staged: Option<Path>)
    requires Ready(site, start, files, draws, i, staged)
    requires Place(site, Source(i)) in files && (staged.Some? ==> staged.value in files)
    ensures Place(site, Failed(i)) !in files
    ensures var after := Rename(files, Place(site, Source(i)), Place(site, Failed(i)));
            && Ready(site, start, after, draws, i, staged)
            && SameOutside(files, after, OwnPlaces(site, i, draws))
            && Place(site, Source(i)) !in after && (staged.Some? ==> staged.value in after)
  {
    hide Rename, SameOutside, NewName, Place, At, OwnPlaces, Backup;
    var after := Rename(files, Place(site, Source(i)), Place(site, Failed(i)));
    Present(site, files, Source(i));
    Present(site, files, Failed(i));
    Present(site, after, Source(i));
    if staged.Some? {
      var draw := StagedZone(site, start, files, draws, i, staged.value);
      Present(site, files, Temp(i, draw));
      Present(site, after, Temp(i, draw));
      RenamedPlaces(site, files, draws, i, Source(i), Failed(i), Temp(i, draw));
    } else {
      RenamedPlaces(site, files, draws, i, Source(i), Failed(i), Temp(i, draws));
    }
  }

  /** Moving the staged copy to the free source finishes the swap. */
  lemma MoveIn(site: Site, start: Tree, files: Tree, draws: nat, i: nat, path: Path)
    requires Ready(site, start, files, draws, i, Some(path))
    requires Place(site, Source(i)) !in files && path in files
    ensures var after := Rename(files, path, Place(site, Source(i)));
            && Ready(site, start, after, draws, i, Some(path))
            && RootOk(site, start, after, draws, i, Some(Restored))
            && SameOutside(files, after, OwnPlaces(site, i, draws))
  {
    hide Rename, SameOutside, NewName, Place, At, OwnPlaces, Backup;
    var draw := StagedZone(site, start, files, draws, i, path);
    Present(site, files, Source(i));
    Present(site, files, Temp(i, draw));
    RenamedPlaces(site, files, draws, i, Temp(i, draw), Source(i), Failed(i));
  }

  /** A swap with nothing left to move is finished. */
  lemma NothingToMove(site: Site, start: Tree, files: Tree, draws: nat, i: nat, staged: Option<Path>)
    requires Ready(site, start, files, draws, i, staged)
    ensures staged.None? && Place(site, Source(i)) !in files ==> RootOk(site, start, files, draws, i, Some(Restored))
    ensures staged.Some? && staged.value !in files ==>
              Place(site, Source(i)) in files && RootOk(site, start, files, draws, i, Some(Restored))
  {
    hide NewName, Subtree;
    SameRootAsPresent(files, Place(site, Source(i)));
    if staged.Some? {
      var draw := StagedZone(site, start, files, draws, i, staged.value);
      SameRootAsPresent(files, staged.value);
    }
  }

  // ---- how many writes are left ----

  /** Writes that restoring one root takes at most. */
  function Cost(site: Site, start: Tree, i: nat): nat {
    |Backup(site, start, i)| + 6
  }

  /** Writes that restoring the first n roots still takes at most. */
  function Remaining(site: Site, start: Tree, progress: map<nat, Item>, n: nat): nat {
    if n == 0 then 0 else
    Remaining(site, start, progress, n - 1)
      + if Recorded(progress, n - 1) == Some(Restored) then 0 else Cost(site, start, n - 1)
  }

  lemma BackupChildApart(site: Site, place: Path, i: nat)
    requires Separate(place, site.backup)
    ensures Separate(Saved(site, i), place) && Separate(place, Saved(site, i))
  {
    var saved := Saved(site, i);
    if place <= saved {
      CommonDescendant(place, site.backup, saved);
    }
    assert saved <= place ==> site.backup <= place;
  }

  lemma EmptyFile(files: Tree, place: Path)
    requires Subtree(files, place) == map[]
    ensures var created := files[place := Data(0)];
            Subtree(created, place) == map[[] := Data(0)] && SameOutside(files, created, {place})
  {
    hide SameOutside;
    assert place + [] == place;
    WriteNode(files, place, [], Data(0));
  }

  lemma OneFile(files: Tree, place: Path, node: Node)
    requires Subtree(files, place) == map[[] := Data(0)]
    ensures Subtree(files[place := node], place) == map[[] := node] && SameOutside(files, files[place := node], {place})
  {
    hide SameOutside;
    assert place + [] == place;
    WriteNode(files, place, [], node);
  }

  /** Between runs the backup of a root is what it was, and still there. */
  lemma BackupUnchanged(site: Site, start: Tree, files: Tree, progress: map<nat, Item>, draws: nat, i: nat)
    requires Recoverable(site, start) && Consistent(site, start, files, progress, draws)
    requires i < |site.entries| && RootRecoverable(site, start, i)
    ensures Backup(site, files, i) == Backup(site, start, i)
    ensures site.entries[i].existed ==> Saved(site, i) in files
  {
    hide RootOk, Places, Place, NewName;
    BackupKept(site, start, files, draws, Saved(site, i));
    SameRootAsPresent(files, Saved(site, i));
  }

  /** Staging alone, finished or not, leaves a root that is not recorded yet in order. */
  lemma StagedKeeps(site: Site, start: Tree, before: Tree, after: Tree, progress: map<nat, Item>, draws: nat, i: nat)
    requires Orderly(site) && i < |site.entries| && Recorded(progress, i) == None
    requires Consistent(site, start, before, progress, draws)
    requires SameOutside(before, after, {Place(site, Temp(i, draws))})
    ensures Consistent(site, start, after, progress, draws + 1)
    ensures At(site, after, Source(i)) == At(site, before, Source(i))
            && At(site, after, Failed(i)) == At(site, before, Failed(i))
  {
    hide SameOutside, Places, NewName;
    var place := Place(site, Temp(i, draws));
    ZonesApart(site, Temp(i, draws), Source(i));
    ZonesApart(site, Temp(i, draws), Failed(i));
    SubtreeKept(before, after, {place}, Place(site, Source(i)));
    SubtreeKept(before, after, {place}, Place(site, Failed(i)));
    assert RootOk(site, start, before, draws, i, None);
    assert place in OwnPlaces(site, i, draws + 1);
    SameOutsideGrows(before, after, {place}, OwnPlaces(site, i, draws + 1));
    StepKeeps(site, start, before, after, progress, progress, draws, draws + 1, i);
  }

  /** A root that is not recorded is untouched: its name for failed data and the next temporary name
      are free. */
  lemma Unrecorded(site: Site, start: Tree, files: Tree, progress: map<nat, Item>, draws: nat, i: nat)
    requires Orderly(site) && i < |site.entries| && i !in progress
    requires Consistent(site, start, files, progress, draws)
    ensures Place(site, Failed(i)) !in files && At(site, files, Temp(i, draws)) == map[]
    ensures RootOk(site, start, files, draws, i, None)
  {
    hide Places, SameOutside, NewName, Place;
    assert RootOk(site, start, files, draws, i, Recorded(progress, i));
    Present(site, files, Failed(i));
  }

  lemma NowPrepared(site: Site, start: Tree, files: Tree, draws: nat, i: nat, staged: Option<Path>)
    requires Orderly(site) && i < |site.entries| && RootRecoverable(site, start, i)
    requires RootOk(site, start, files, draws, i, None)
    requires staged.Some? <==> site.entries[i].existed
    requires staged.Some? ==>
               draws > 0 && staged.value == Place(site, Temp(i, draws - 1))
                 && Subtree(files, staged.value) == Backup(site, start, i)
    ensures RootOk(site, start, files, draws, i, Some(Prepared(staged)))
  {
    hide Place, Subtree, NewName;
    if staged.Some? {
      assert InSwap(At(site, files, Source(i)), At(site, files, Failed(i)), At(site, files, Temp(i, draws - 1)),
                    At(site, start, Source(i)), Backup(site, start, i));
    }
  }

  /** A change of the record alone. */
  lemma RecordKeeps(site: Site, start: Tree, files: Tree, progress: map<nat, Item>, draws: nat, i: nat, item: Item)
    requires Orderly(site) && i < |site.entries| && Consistent(site, start, files, progress, draws)
    requires RootOk(site, start, files, draws, i, Some(item))
    ensures Consistent(site, start, files, progress[i := item], draws)
  {
    hide RootOk;
    SameAsItself(files, OwnPlaces(site, i, draws));
    StepKeeps(site, start, files, files, progress, progress[i := item], draws, draws, i);
  }

  lemma RootKnown(site: Site, start: Tree, files: Tree, progress: map<nat, Item>, draws: nat, i: nat)
    requires Recoverable(site, start) && i < |site.entries| && Consistent(site, start, files, progress, draws)
    ensures Orderly(site) && IsZone(site, Source(i)) && RootRecoverable(site, start, i)
    ensures RootOk(site, start, files, draws, i, Recorded(progress, i))
    ensures site.entries[i].existed ==> WellShaped(Backup(site, start, i))
  {
    hide RootOk, SameOutside, NewName, Places;
  }

  predicate RestoredUpTo(progress: map<nat, Item>, n: nat) {
    forall i: nat :: i < n ==> Recorded(progress, i) == Some(Restored)
  }

  lemma {:induction false} RemainingShrinks(site: Site, start: Tree, before: map<nat, Item>, after: map<nat,
      Item>, n: nat)
    requires forall i :: Recorded(before, i) == Some(Restored) ==> Recorded(after, i) == Some(Restored)
    ensures Remaining(site, start, after, n) <= Remaining(site, start, before, n)
  {
    hide Cost;
    if n > 0 {
      RemainingShrinks(site, start, before, after, n - 1);
    }
  }

  lemma {:induction false} RemainingGrows(site: Site, start: Tree, progress: map<nat, Item>, m: nat, n: nat)
    requires m <= n
    ensures Remaining(site, start, progress, m) <= Remaining(site, start, progress, n)
  {
    hide Cost;
    if m < n {
      RemainingGrows(site, start, progress, m, n - 1);
    }
  }

  /** Every run lasts long enough to restore any one root. */
  ghost predicate LongEnough(site: Site, start: Tree, powers: seq<nat>) {
    forall k, i: nat :: 0 <= k < |powers| && i < |site.entries| ==> powers[k] >= Cost(site, start, i)
  }

  // ---- what a finished recovery means ----

  /** Every root holds what the backup holds, or is absent if it was; what failed is kept under the name
      for failed data; the backup is as it was; and only places of the recovery differ at all. */
  lemma RecoveryRestores(site: Site, start: Tree, files: Tree, progress: map<nat, Item>, draws: nat)
    requires Recoverable(site, start) && Consistent(site, start, files, progress, draws)
    requires RestoredUpTo(progress, |site.entries|)
    ensures forall i: nat :: i < |site.entries| ==>
              && At(site, files, Source(i)) == Backup(site, start, i)
              && (site.entries[i].source in files <==> site.entries[i].existed)
              && At(site, files, Failed(i)) == At(site, start, Source(i))
    ensures Subtree(files, site.backup) == Subtree(start, site.backup)
    ensures SameOutside(start, files, Places(site, draws))
  {
    hide SameOutside, Subtree, NewName, Separate, Places;
    forall i: nat | i < |site.entries|
      ensures At(site, files, Source(i)) == Backup(site, start, i)
      ensures site.entries[i].source in files <==> site.entries[i].existed
      ensures At(site, files, Failed(i)) == At(site, start, Source(i))
    {
      RootKnown(site, start, files, progress, draws, i);
      Present(site, files, Source(i));
    }
    BackupKept(site, start, files, draws, site.backup);
  }

  /** Any two recoveries of the same disk that end, however often each was cut off, leave the same disk,
      but for what is left under temporary names. */
  lemma RecoveriesEndAlike(site: Site, start: Tree, a: Tree, b: Tree, progressA: map<nat, Item>,
      progressB: map<nat, Item>,
                           drawsA: nat, drawsB: nat, p: Path)
    requires Recoverable(site, start)
    requires Consistent(site, start, a, progressA, drawsA) && RestoredUpTo(progressA, |site.entries|)
    requires Consistent(site, start, b, progressB, drawsB) && RestoredUpTo(progressB, |site.entries|)
    requires forall i: nat, draw: nat :: i < |site.entries| && (draw < drawsA || draw < drawsB) ==>
               !(Place(site, Temp(i, draw)) <= p)
    ensures SameAt(a, b, p)
  {
    hide Consistent, Places, NewName, Separate, Subtree, RootRecoverable, RestoredUpTo, SameAt, SameOutside, Place,
      Clear;
    if i: nat :| i < |site.entries| && (Place(site, Source(i)) <= p || Place(site, Failed(i)) <= p) {
      RestoredPlace(site, start, a, progressA, drawsA, i);
      RestoredPlace(site, start, b, progressB, drawsB, i);
      InBoth(a, b, Place(site, if Place(site, Source(i)) <= p then Source(i) else Failed(i)), p);
    } else {
      OutsidePlaces(site, drawsA, p);
      OutsidePlaces(site, drawsB, p);
      OutsideKept(site, start, a, progressA, drawsA, p);
      OutsideKept(site, start, b, progressB, drawsB, p);
      SameAtBoth(start, a, b, p);
    }
  }

  lemma RestoredPlace(site: Site, start: Tree, files: Tree, progress: map<nat, Item>, draws: nat, i: nat)
    requires Recoverable(site, start) && Consistent(site, start, files, progress, draws)
    requires RestoredUpTo(progress, |site.entries|) && i < |site.entries|
    ensures At(site, files, Source(i)) == Backup(site, start, i)
    ensures At(site, files, Failed(i)) == At(site, start, Source(i))
  {
    hide Consistent, At, Places, NewName, Separate, Subtree, RootRecoverable, RestoredUpTo, SameOutside;
    RecoveryRestores(site, start, files, progress, draws);
  }

  lemma OutsideKept(site: Site, start: Tree, files: Tree, progress: map<nat, Item>, draws: nat, p: Path)
    requires Orderly(site) && Consistent(site, start, files, progress, draws) && Clear(p, Places(site, draws))
    ensures SameAt(start, files, p)
  {
    hide RootOk, Places, Place, NewName, Clear;
  }

  lemma SameAtBoth(start: Tree, a: Tree, b: Tree, p: Path)
    requires SameAt(start, a, p) && SameAt(start, b, p)
    ensures SameAt(a, b, p)
  {
  }

  lemma InBoth(a: Tree, b: Tree, root: Path, p: Path)
    requires Subtree(a, root) == Subtree(b, root) && root <= p
    ensures SameAt(a, b, p)
  {
    var r := p[|root|..];
    assert root + r == p;
    assert r in Subtree(a, root) <==> r in Subtree(b, root);
    assert r in Subtree(a, root) ==> Subtree(a, root)[r] == a[p] == b[p];
  }

  lemma OutsidePlaces(site: Site, draws: nat, p: Path)
    requires Orderly(site)
    requires forall i: nat :: i < |site.entries| ==> !(Place(site, Source(i)) <= p) && !(Place(site, Failed(i)) <= p)
    requires forall i: nat, draw: nat :: i < |site.entries| && draw < draws ==> !(Place(site, Temp(i, draw)) <= p)
    ensures Clear(p, Places(site, draws))
  {
    forall q | q in Places(site, draws) ensures !(q <= p) {
      var i: nat :| i < |site.entries| && q in OwnPlaces(site, i, draws);
      var z := OwnPlace(site, i, draws, q);
    }
  }

  // ---- the snapshot ----

  /** The first n roots are listed as they were, and the existing ones copied. */
  ghost predicate SavedAs(site: Site, before: Tree, after: Tree, roots: seq<Path>, entries: seq<Entry>, n: nat)
    requires n <= |roots| && n <= |entries|
  {
    forall i: nat :: i < n ==>
      && entries[i] == Entry(roots[i], roots[i] in before)
      && Backup(site, after, i) == if roots[i] in before then Subtree(before, roots[i]) else map[]
  }

  lemma SavedApart(site: Site, i: nat, j: nat)
    requires i != j
    ensures Separate(Saved(site, i), Saved(site, j))
  {
    DecimalValue(i);
    DecimalValue(j);
    assert Saved(site, i)[|site.backup|] == Decimal(i) && Saved(site, j)[|site.backup|] == Decimal(j);
  }

  /** From some number on, nothing is saved yet. */
  ghost predicate NoneSavedFrom(site: Site, files: Tree, n: nat) {
    forall i: nat :: i >= n ==> Backup(site, files, i) == map[]
  }

  /** Making the empty backup directory. */
  lemma DirectoryMade(site: Site, files: Tree)
    requires Subtree(files, site.backup) == map[]
    ensures NoneSavedFrom(site, files[site.backup := Dir], 0)
    ensures SameOutside(files, files[site.backup := Dir], {site.backup})
  {
    hide SameOutside, Saved;
    var made := files[site.backup := Dir];
    assert site.backup + [] == site.backup;
    WriteNode(files, site.backup, [], Dir);
    forall i: nat ensures Backup(site, made, i) == map[] {
      forall r: Path ensures Saved(site, i) + r !in made {
        SavedBelow(site, i, r);
        assert [Decimal(i)] + r !in Subtree(made, site.backup);
      }
      assert forall r :: r !in Backup(site, made, i);
    }
  }

  lemma SavedBelow(site: Site, i: nat, r: Path)
    ensures Saved(site, i) + r == site.backup + ([Decimal(i)] + r)
  {
  }

  /** A copy into one directory of the backup leaves the others and everything outside alone. */
  lemma CopyInBackup(site: Site, start: Tree, before: Tree, after: Tree, i: nat)
    requires SameOutside(start, before, {site.backup}) && SameOutside(before, after, {Saved(site, i)})
    ensures SameOutside(start, after, {site.backup})
    ensures forall j: nat :: j != i ==> Backup(site, after, j) == Backup(site, before, j)
  {
    hide Saved, Subtree;
    forall j: nat | j != i ensures Backup(site, after, j) == Backup(site, before, j) {
      SavedApart(site, i, j);
      SubtreeKept(before, after, {Saved(site, i)}, Saved(site, j));
    }
    forall p: Path | Clear(p, {site.backup}) ensures SameAt(start, after, p) {
      SavedInBackup(site, i, p);
      assert Clear(p, {Saved(site, i)});
    }
  }

  lemma SavedInBackup(site: Site, i: nat, p: Path)
    ensures Saved(site, i) <= p ==> site.backup <= p
    ensures Clear(p, {site.backup}) ==> !(site.backup <= p)
  {
    assert site.backup in {site.backup};
    assert site.backup <= Saved(site, i);
  }

  /** A recovery undoes whatever an update did to the roots since their snapshot. */
  lemma RecoveryUndoesTheUpdate(site: Site, atSnapshot: Tree, saved: Tree, start: Tree, files: Tree,
                                progress: map<nat, Item>, draws: nat)
    requires Recoverable(site, start) && Consistent(site, start, files, progress, draws)
    requires RestoredUpTo(progress, |site.entries|)
    requires SavedAs(site, atSnapshot, saved,
             seq(|site.entries|, i requires 0 <= i < |site.entries| => site.entries[i].source),
                     site.entries, |site.entries|)
    requires forall i: nat :: i < |site.entries| ==>
               && Rooted(Subtree(atSnapshot, site.entries[i].source))
               && Backup(site, start, i) == Backup(site, saved, i)
    ensures forall i: nat :: i < |site.entries| ==>
              Subtree(files, site.entries[i].source) == Subtree(atSnapshot, site.entries[i].source)
  {
    hide Consistent, Places, NewName, Separate, Subtree, RootRecoverable, RestoredUpTo, SameOutside;
    forall i: nat | i < |site.entries|
      ensures Subtree(files, site.entries[i].source) == Subtree(atSnapshot, site.entries[i].source)
    {
      RestoredPlace(site, start, files, progress, draws, i);
      SameRootAsPresent(atSnapshot, site.entries[i].source);
    }
  }

  /** What a snapshot lists is what a recovery needs: if each root was a whole tree, the backup is left alone
      and the names for failed and temporary data are free, every root can be recovered, whatever else has
      become of the disk. */
  lemma SnapshotCanBeRecovered(site: Site, atSnapshot: Tree, saved: Tree, start: Tree, roots: seq<Path>,
      entries: seq<Entry>)
    requires |entries| == |roots| && SavedAs(site, atSnapshot, saved, roots, entries, |roots|)
    requires var listed := site.(entries := entries);
             && Orderly(listed)
             && forall i: nat :: i < |roots| ==>
               && Rooted(Subtree(atSnapshot, roots[i])) && WellShaped(Subtree(atSnapshot, roots[i]))
               && Backup(listed, start, i) == Backup(site, saved, i)
               && WellShaped(Subtree(start, roots[i]))
               && At(listed, start, Failed(i)) == map[] && forall draw: nat :: At(listed, start, Temp(i, draw)) == map[]
    ensures Recoverable(site.(entries := entries), start)
    ensures forall i: nat :: i < |roots| ==> entries[i].source == roots[i]
  {
    hide Subtree;
    var listed := site.(entries := entries);
    forall i: nat | i < |roots| ensures IsZone(listed, Source(i)) && RootRecoverable(listed, start, i) {
      SameRootAsPresent(atSnapshot, roots[i]);
    }
  }

  // ---- the machine ----

  class Device {
    const site: Site
    var files: Tree
    var progress: map<nat, Item>   // recovery.json
    var draws: nat                 // random names drawn so far
    var power: nat                 // writes before the run is cut off

    constructor (site: Site, files: Tree)
      ensures this.site == site && this.files == files && progress == map[] && draws == 0
    {
      this.site, this.files, progress, draws, power := site, files, map[], 0, 0;
    }

    method Write(path: Path, node: Node) returns (outcome: Outcome)
      modifies this`files, this`power
      ensures outcome == if old(power) > 0 then Done else PowerLost
      ensures files == if outcome.Done? then old(files)[path := node] else old(files)
      ensures power == if outcome.Done? then old(power) - 1 else 0
    {
      if power == 0 {
        return PowerLost;
      }
      files, power := files[path := node], power - 1;
      return Done;
    }

    method Unlink(path: Path) returns (outcome: Outcome)
      modifies this`files, this`power
      ensures outcome == if old(power) > 0 then Done else PowerLost
      ensures files == if outcome.Done? then old(files) - {path} else old(files)
      ensures power == if outcome.Done? then old(power) - 1 else 0
    {
      if power == 0 {
        return PowerLost;
      }
      files, power := files - {path}, power - 1;
      return Done;
    }

    method RenameTo(from: Path, to: Path) returns (outcome: Outcome)
      modifies this`files, this`power
      ensures outcome == if old(power) > 0 then Done else PowerLost
      ensures files == if outcome.Done? then Rename(old(files), from, to) else old(files)
      ensures power == if outcome.Done? then old(power) - 1 else 0
    {
      if power == 0 {
        return PowerLost;
      }
      files, power := Rename(files, from, to), power - 1;
      return Done;
    }

    method SaveProgress(i: nat, item: Item) returns (outcome: Outcome)
      modifies this`progress, this`power
      ensures outcome == if old(power) > 0 then Done else PowerLost
      ensures progress == if outcome.Done? then old(progress)[i := item] else old(progress)
      ensures power == if outcome.Done? then old(power) - 1 else 0
    {
      if power == 0 {
        return PowerLost;
      }
      progress, power := progress[i := item], power - 1;
      return Done;
    }

    /** Copies a tree to a place where nothing is, one node at a time. */
    method CopyTree(from: Path, to: Path) returns (outcome: Outcome)
      requires Separate(from, to) && Subtree(files, to) == map[]
      modifies this`files, this`power
      ensures SameOutside(old(files), files, {to})
      ensures outcome == if old(power) >= |Subtree(old(files), from)| then Done else PowerLost
      ensures outcome.Done? ==>
                && Subtree(files, to) == Subtree(old(files), from)
                && power == old(power) - |Subtree(old(files), from)|
    {
      hide Subtree, SameOutside;
      var tree := Subtree(files, from);
      var rest := tree.Keys;
      SameAsItself(files, {to});
      assert |tree.Keys| == |tree|;
      while rest != {}
        invariant rest <= tree.Keys
        invariant SameOutside(old(files), files, {to})
        invariant Subtree(files, to) == tree - rest
        invariant power + |tree| == old(power) + |rest|
        decreases rest
      {
        var relative :| relative in rest;
        ghost var before := files;
        outcome := Write(to + relative, tree[relative]);
        if outcome.PowerLost? {
          assert 0 < |rest|;
          return;
        }
        WriteNode(before, to, relative, tree[relative]);
        SameOutsideCompose(old(files), before, files, {to});
        assert (tree - rest)[relative := tree[relative]] == tree - (rest - {relative});
        rest := rest - {relative};
      }
      outcome := Done;
    }

    /** Swaps one root: its source is moved to the name for failed data, then the staged copy to the
        source; each rename only if it has not happened yet. */
    method Swap(i: nat, staged: Option<Path>, ghost start: Tree) returns (outcome: Outcome)
      requires i < |site.entries| && IsZone(site, Source(i)) && Ready(site, start, files, draws, i, staged)
      modifies this`files, this`power
      ensures outcome.Done? || outcome.PowerLost?
      ensures SameOutside(old(files), files, OwnPlaces(site, i, draws))
      ensures Ready(site, start, files, draws, i, staged)
      ensures outcome.Done? ==> RootOk(site, start, files, draws, i, Some(Restored)) && power + 2 >= old(power)
      ensures old(power) >= 2 ==> outcome.Done?
    {
      hide Ready, RootOk, SameOutside, OwnPlaces, Rename, Place, At, Backup;
      var source, failed := Place(site, Source(i)), Place(site, Failed(i));
      SameAsItself(files, OwnPlaces(site, i, draws));
      NothingToMove(site, start, files, draws, i, staged);
      if staged.None? || staged.value in files {
        if source in files {
          MoveAway(site, start, files, draws, i, staged);
          if failed in files {
            return RefusingToOverwrite(i);
          }
          outcome := RenameTo(source, failed);
          if outcome.PowerLost? {
            return;
          }
          NothingToMove(site, start, files, draws, i, staged);
        }
        if staged.Some? {
          MoveIn(site, start, files, draws, i, staged.value);
          ghost var before := files;
          outcome := RenameTo(staged.value, source);
          if outcome.PowerLost? {
            return;
          }
          SameOutsideCompose(old(files), before, files, OwnPlaces(site, i, draws));
        }
      } else if source !in files {
        return LostBothCopies(i);
      }
      outcome := Done;
    }

    /** Stages a root: a new temporary name beside the source, then a copy of the saved file or tree. */
    method StageCopy(i: nat) returns (outcome: Outcome, staged: Path)
      requires Orderly(site) && i < |site.entries| && At(site, files, Temp(i, draws)) == map[]
      requires Saved(site, i) in files && WellShaped(Backup(site, files, i))
      modifies this`files, this`power, this`draws
      ensures outcome.Done? || outcome.PowerLost?
      ensures draws == old(draws) + 1 && staged == Place(site, Temp(i, old(draws)))
      ensures SameOutside(old(files), files, {staged})
      ensures outcome.Done? ==>
                && Subtree(files, staged) == Backup(site, old(files), i)
                && power + |Backup(site, old(files), i)| + 2 >= old(power)
      ensures old(power) >= |Backup(site, old(files), i)| + 2 ==> outcome.Done?
    {
      hide Place, Subtree, SameOutside, NewName, Separate;
      BackupApart(site, Temp(i, draws));
      staged := Place(site, Temp(i, draws));
      draws := draws + 1;
      var saved := Saved(site, i);
      SameRootAsPresent(files, saved);
      BackupChildApart(site, staged, i);
      SameAsItself(files, {staged});
      outcome := Write(staged, Data(0));
      if outcome.PowerLost? {
        return;
      }
      ghost var created := files;
      EmptyFile(old(files), staged);
      SubtreeKept(old(files), created, {staged}, saved);
      if files[saved].Dir? {
        outcome := Unlink(staged);
        if outcome.PowerLost? {
          return;
        }
        ghost var removed := files;
        RemoveNode(created, staged);
        SubtreeKept(created, removed, {staged}, saved);
        SameOutsideCompose(old(files), created, removed, {staged});
        outcome := CopyTree(saved, staged);
        SameOutsideCompose(old(files), removed, files, {staged});
      } else {
        outcome := Write(staged, files[saved]);
        if outcome.Done? {
          OneFile(created, staged, created[saved]);
          assert Backup(site, old(files), i) == map[[] := created[saved]];
          SameOutsideCompose(old(files), created, files, {staged});
        }
      }
    }

    /** Stages a root that the backup holds; nothing to stage is no staged copy. */
    method StageIfSaved(i: nat, ghost start: Tree) returns (outcome: Outcome, staged: Option<Path>)
      requires Recoverable(site, start) && i < |site.entries| && i !in progress
      requires Consistent(site, start, files, progress, draws)
      modifies this`files, this`power, this`draws
      ensures outcome.Done? || outcome.PowerLost?
      ensures Consistent(site, start, files, progress, draws)
      ensures outcome.Done? ==> RootOk(site, start, files, draws, i, Some(Prepared(staged)))
      ensures outcome.Done? ==> power + |Backup(site, start, i)| + 2 >= old(power)
      ensures old(power) >= |Backup(site, start, i)| + 2 ==> outcome.Done?
    {
      hide Consistent, RootOk, Recoverable, RootRecoverable, Orderly, Place, Subtree, SameOutside, OwnPlaces, InSwap,
        Saved, WellShaped;
      RootKnown(site, start, files, progress, draws, i);
      Unrecorded(site, start, files, progress, draws, i);
      staged := None;
      if site.entries[i].existed {
        BackupUnchanged(site, start, files, progress, draws, i);
        ghost var before, drawn := files, draws;
        var path;
        outcome, path := StageCopy(i);
        StagedKeeps(site, start, before, files, progress, drawn, i);
        if outcome.PowerLost? {
          return;
        }
        staged := Some(path);
        Unrecorded(site, start, files, progress, draws, i);
      }
      NowPrepared(site, start, files, draws, i, staged);
      outcome := Done;
    }

    /** Makes sure that a root is prepared: stages it and records that, unless an earlier run has. */
    method Prepare(i: nat, ghost start: Tree) returns (outcome: Outcome)
      requires Recoverable(site, start) && i < |site.entries|
      requires Consistent(site, start, files, progress, draws)
      requires Recorded(progress, i) != Some(Restored)
      modifies this`files, this`progress, this`power, this`draws
      ensures outcome.Done? || outcome.PowerLost?
      ensures Consistent(site, start, files, progress, draws)
      ensures forall j :: j != i ==> Recorded(progress, j) == Recorded(old(progress), j)
      ensures outcome.Done? ==> i in progress && progress[i].Prepared?
      ensures outcome.Done? ==> power + Cost(site, start, i) - 3 >= old(power)
      ensures old(power) >= Cost(site, start, i) - 3 ==> outcome.Done?
    {
      hide Consistent, RootOk, Recoverable, RootRecoverable, Orderly, Place, Subtree, SameOutside, OwnPlaces, InSwap,
        Saved, WellShaped;
      RootKnown(site, start, files, progress, draws, i);
      if i in progress {
        return Done;
      }
      var failed := Place(site, Failed(i));
      Unrecorded(site, start, files, progress, draws, i);
      if failed in files {
        return TargetExists(i);
      }
      var staged;
      outcome, staged := StageIfSaved(i, start);
      if outcome.PowerLost? {
        return;
      }
      RecordKeeps(site, start, files, progress, draws, i, Prepared(staged));
      outcome := SaveProgress(i, Prepared(staged));
    }

    /** Swaps a prepared root and records that it is restored. */
    method Finish(i: nat, ghost start: Tree) returns (outcome: Outcome)
      requires Recoverable(site, start) && i < |site.entries| && i in progress && progress[i].Prepared?
      requires Consistent(site, start, files, progress, draws)
      modifies this`files, this`progress, this`power
      ensures outcome.Done? || outcome.PowerLost?
      ensures Consistent(site, start, files, progress, draws)
      ensures forall j :: j != i ==> Recorded(progress, j) == Recorded(old(progress), j)
      ensures outcome.Done? ==> Recorded(progress, i) == Some(Restored) && power + 3 >= old(power)
      ensures old(power) >= 3 ==> outcome.Done?
    {
      hide Consistent, RootOk, Recoverable, RootRecoverable, Orderly, Place, Subtree, SameOutside, OwnPlaces, InSwap,
        Saved, WellShaped;
      RootKnown(site, start, files, progress, draws, i);
      ghost var was := files;
      outcome := Swap(i, progress[i].staged, start);
      StepKeeps(site, start, was, files, progress, progress, draws, draws, i);
      if outcome.PowerLost? {
        return;
      }
      RecordKeeps(site, start, files, progress, draws, i, Restored);
      outcome := SaveProgress(i, Restored);
    }

    /** Restores one root, from wherever an earlier run left it. */
    method RestoreRoot(i: nat, ghost start: Tree) returns (outcome: Outcome)
      requires Recoverable(site, start) && i < |site.entries|
      requires Consistent(site, start, files, progress, draws)
      modifies this`files, this`progress, this`power, this`draws
      ensures outcome.Done? || outcome.PowerLost?
      ensures Consistent(site, start, files, progress, draws)
      ensures forall j :: j != i ==> Recorded(progress, j) == Recorded(old(progress), j)
      ensures outcome.Done? ==> Recorded(progress, i) == Some(Restored)
      ensures Recorded(old(progress), i) == Some(Restored) ==>
              outcome.Done? && progress == old(progress) && power == old(power) && files == old(files)
      ensures old(power) >= Cost(site, start, i) ==> outcome.Done? && power + Cost(site, start, i) >= old(power)
    {
      hide Consistent, RootOk, Recoverable, Backup;
      if i in progress && progress[i].Restored? {
        return Done;
      }
      outcome := Prepare(i, start);
      if outcome.Done? {
        outcome := Finish(i, start);
      }
    }

    /** Restores every root in turn; in place of an error, a run that is cut off just stops. */
    method Recover(ghost start: Tree) returns (outcome: Outcome)
      requires Recoverable(site, start)
      requires Consistent(site, start, files, progress, draws)
      modifies this`files, this`progress, this`power, this`draws
      ensures outcome.Done? || outcome.PowerLost?
      ensures Consistent(site, start, files, progress, draws)
      ensures outcome.Done? ==> RestoredUpTo(progress, |site.entries|)
      ensures forall i :: Recorded(old(progress), i) == Some(Restored) ==> Recorded(progress, i) == Some(Restored)
      ensures old(power) >= Remaining(site, start, old(progress), |site.entries|) ==>
                outcome.Done? && power + Remaining(site, start, old(progress), |site.entries|) >= old(power)
      ensures RestoredUpTo(old(progress), |site.entries|) ==>
                outcome.Done? && files == old(files) && progress == old(progress) && power == old(power)
      ensures forall i: nat ::
              i < |site.entries| && RestoredUpTo(old(progress), i) && old(power) >= Cost(site, start, i) ==>
                RestoredUpTo(progress, i + 1)
    {
      hide Consistent, RootOk, Backup, Cost, RootRecoverable, NewName, Separate, Place;
      for i := 0 to |site.entries|
        invariant Orderly(site) && Consistent(site, start, files, progress, draws)
        invariant RestoredUpTo(progress, i)
        invariant forall j :: j >= i ==> Recorded(progress, j) == Recorded(old(progress), j)
        invariant forall j :: Recorded(old(progress), j) == Some(Restored) ==> Recorded(progress, j) == Some(Restored)
        invariant RestoredUpTo(old(progress), i) ==>
                    power == old(power) && files == old(files) && progress == old(progress)
        invariant old(power) >= Remaining(site, start, old(progress), i) ==>
                    power + Remaining(site, start, old(progress), i) >= old(power)
      {
        RemainingGrows(site, start, old(progress), i + 1, |site.entries|);
        outcome := RestoreRoot(i, start);
        if outcome.PowerLost? {
          return;
        }
      }
      outcome := Done;
    }

    /** Starts the recovery again after every crash, for any number of crashes at any writes, until it
        ends. It ends in the first run that lasts long enough for all that remains, and at the latest
        after one more run than there are roots when every run lasts long enough for one root. */
    method RecoverThroughCrashes(powers: seq<nat>) returns (outcome: Outcome)
      requires Recoverable(site, files) && progress == map[] && draws == 0
      modifies this
      ensures outcome.Done? || outcome.PowerLost?
      ensures Consistent(site, old(files), files, progress, draws)
      ensures outcome.Done? ==> RestoredUpTo(progress, |site.entries|)
      ensures (exists k :: 0 <= k < |powers| && powers[k] >= Remaining(site, old(files), map[], |site.entries|)) ==>
              outcome.Done?
      ensures |powers| > |site.entries| && LongEnough(site, old(files), powers) ==> outcome.Done?
    {
      hide Consistent, RootOk, Backup, Cost, RootRecoverable, NewName, Separate, Place;
      ghost var start := files;
      StartConsistent(site, start);
      outcome := PowerLost;
      for r := 0 to |powers|
        invariant outcome.PowerLost? && Consistent(site, start, files, progress, draws)
        invariant forall k :: 0 <= k < r ==> powers[k] < Remaining(site, start, map[], |site.entries|)
        invariant LongEnough(site, start, powers) ==> RestoredUpTo(progress, r) && r <= |site.entries|
      {
        power := powers[r];
        RemainingShrinks(site, start, map[], progress, |site.entries|);
        outcome := Recover(start);
        if outcome.Done? {
          return;
        }
      }
    }

    /** Copies every root that exists into the new backup directory and lists all of them in order. */
    method Snapshot(roots: seq<Path>) returns (outcome: Outcome, entries: seq<Entry>)
      requires Subtree(files, site.backup) == map[]
      requires forall i :: 0 <= i < |roots| ==> Separate(roots[i], site.backup)
      modifies this`files, this`power
      ensures outcome.Done? || outcome.PowerLost?
      ensures SameOutside(old(files), files, {site.backup})
      ensures outcome.Done? ==> |entries| == |roots| && SavedAs(site, old(files), files, roots, entries, |roots|)
    {
      hide Subtree, SameOutside, Saved;
      entries := [];
      ghost var start := files;
      outcome := Write(site.backup, Dir);
      if outcome.PowerLost? {
        SameAsItself(files, {site.backup});
        return;
      }
      DirectoryMade(site, start);
      for i := 0 to |roots|
        invariant |entries| == i && SavedAs(site, start, files, roots, entries, i)
        invariant SameOutside(start, files, {site.backup})
        invariant NoneSavedFrom(site, files, i)
      {
        var source := roots[i];
        SubtreeKept(start, files, {site.backup}, source);
        SameRootAsPresent(start, source);
        SameRootAsPresent(files, source);
        ghost var before := files;
        entries := entries + [Entry(source, source in files)];
        if source in files {
          BackupChildApart(site, source, i);
          assert Backup(site, files, i) == map[];
          outcome := CopyTree(source, Saved(site, i));
          CopyInBackup(site, start, before, files, i);
          if outcome.PowerLost? {
            return;
          }
        }
      }
      outcome := Done;
    }
  }
}
