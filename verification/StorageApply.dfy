/** The journaled phases of a storage move, as the next start runs them. Each phase is proved to keep
    the disk on the chain of the planned move, wherever the power ends it, and to leave everything it
    was not asked to touch alone on any disk at all. */
module StorageApply {
  import opened Wrappers
  import opened Paths
  import opened StorageTypes
  import opened Remapping
  import opened MoveSpec
  import opened MoveChain
  import opened MoveTrack
  import opened MoveJournal
  import opened StorageMachine

  /** The disk is at this moment of the move planned as `plan` on `base`. */
  ghost predicate OnTrack(site: Site, base: Files, plan: Journal, m: Moment, files: Files) {
    && site.Valid() && WellPlanned(site, base, plan) && FreshManifest(plan)
    && ValidMoment(site, plan, m) && Reachable(site, base, plan, m)
    && files == DiskAt(site, base, plan, m)
  }

  /** What a run that started at m with so much power may leave: a later moment of the same chain, at
      least one step on unless the power ended within the first three writes. It only stops with an
      error at a moment where every run does, and from such a moment it does not move. */
  ghost predicate Advanced(site: Site, base: Files, plan: Journal, m: Moment, m': Moment, files: Files,
      outcome: Outcome, power: nat) {
    && OnTrack(site, base, plan, m', files)
    && NotEarlier(m', m)
    && (outcome.Failed? ==> Refused(site, base, plan, m'))
    && (Refused(site, base, plan, m) ==> m' == m)
    && (outcome.PowerLost? ==> !m'.Finished?)
    && (outcome.PowerLost? && power >= 3 ==> Later(m', m))
  }

  lemma AdvancedOn(site: Site, base: Files, plan: Journal, m: Moment, m': Moment, files: Files, outcome: Outcome,
      power: nat)
    requires Advanced(site, base, plan, m, m', files, outcome, power)
    ensures OnTrack(site, base, plan, m', files)
  {
  }

  /** One phase after another advances as far as both together. */
  lemma AdvancedThen(site: Site, base: Files, plan: Journal, m: Moment, middle: Moment, m': Moment, between: Files,
      after: Files, outcome: Outcome, power: nat, left: nat)
    requires Advanced(site, base, plan, m, middle, between, Done, power)
    requires Advanced(site, base, plan, middle, m', after, outcome, left)
    requires if middle == m then left == power else Later(middle, m)
    ensures Advanced(site, base, plan, m, m', after, outcome, power)
  {
    hide OnTrack;
  }

  lemma StaysRefused(site: Site, base: Files, plan: Journal, m: Moment, m': Moment, files: Files)
    requires OnTrack(site, base, plan, m', files) && NotEarlier(m', m) && StageOf(m) <= 2
    ensures Refused(site, base, plan, m) ==> m' == m
  {
    hide WellPlanned, DiskAt, DatabasesReadable, SourcesKept;
    if Refused(site, base, plan, m) {
      RefusedIsLast(site, base, plan, m, m');
    }
  }

  method Save(disk: Storage, j: Journal) returns (outcome: Outcome)
    requires disk.site.Valid()
    modifies disk
    ensures outcome == if old(disk.power) > 0 then Done else PowerLost
    ensures disk.files == if outcome.Done? then old(disk.files)[disk.site.Pending() := Pending(j)] else old(disk.files)
    ensures disk.power == if outcome.Done? then old(disk.power) - 1 else 0
  {
    outcome := disk.WriteAtomic(disk.site.Pending(), Pending(j));
  }

  /** The flags of the journal tell the stage, and its other fields are those of the plan. */
  lemma JournalShows(site: Site, base: Files, plan: Journal, m: Moment)
    requires FreshManifest(plan)
    ensures var j := JournalAt(site, base, plan, m);
            && (j.copied <==> StageOf(m) >= 1) && (j.pathsUpdated <==> StageOf(m) >= 2)
            && (j.referencesUpdated <==> StageOf(m) >= 3) && (j.committed <==> StageOf(m) >= 4)
            && j.entries.Some? && j.preview == plan.preview && j.configBefore == plan.configBefore
            && j.configAfter == plan.configAfter && j.preferences == plan.preferences && j.version == 1
            && (StageOf(m) == 0 ==> j == plan)
            && (StageOf(m) == 1 ==> j == plan.(copied := true))
            && (StageOf(m) == 2 ==> j.entries == Some(PointedEntries(site, base, plan)))
            && (StageOf(m) >= 3 ==> j.entries == Some(RepairedEntries(site, base, plan)))
  {
  }

  lemma JournalFlags(site: Site, base: Files, plan: Journal, m: Moment)
    requires plan.entries.Some? && FreshManifest(plan)
    ensures var j := JournalAt(site, base, plan, m);
            && (j.copied <==> StageOf(m) >= 1) && (j.pathsUpdated <==> StageOf(m) >= 2)
            && (j.referencesUpdated <==> StageOf(m) >= 3) && (j.committed <==> StageOf(m) >= 4)
  {
    JournalShows(site, base, plan, m);
  }

  /** Completing a stage in the journal is moving to the next stage. */
  lemma JournalMoves(site: Site, base: Files, plan: Journal, m: Moment, m': Moment)
    requires FreshManifest(plan) && StageOf(m') == StageOf(m) + 1 && StageOf(m') <= 4
    ensures var j := JournalAt(site, base, plan, m);
            JournalAt(site, base, plan, m') ==
              match StageOf(m)
              case 0 => j.(copied := true)
              case 1 => j.(pathsUpdated := true, entries := Some(PointedEntries(site, base, plan)))
              case 2 => j.(referencesUpdated := true, entries := Some(RepairedEntries(site, base, plan)))
              case _ => j.(committed := true)
  {
  }

  /** Saving the next stage's journal, when the body is where that stage starts, enters the stage. */
  lemma StageSaved(site: Site, base: Files, plan: Journal, m: Moment, m': Moment, files: Files, j: Journal)
    requires OnTrack(site, base, plan, m, files) && !m.Finished? && !m'.Finished?
    requires ValidMoment(site, plan, m') && Reachable(site, base, plan, m')
    requires BodyAt(site, base, plan, m') == BodyAt(site, base, plan, m)
    requires j == JournalAt(site, base, plan, m')
    ensures OnTrack(site, base, plan, m', files[site.Pending() := Pending(j)])
  {
    hide WellPlanned, BodyAt, JournalAt;
    PutTwice(BodyAt(site, base, plan, m), site.Pending(), Pending(JournalAt(site, base, plan, m)), Pending(j));
  }

  lemma PutTwice(files: Files, p: Path, a: Content, b: Content)
    ensures files[p := a][p := b] == files[p := b]
    ensures p !in files ==> files[p := a] - {p} == files
  {
  }

  // ---- copy and verify ----

  lemma CopyTracked(site: Site, base: Files, plan: Journal, m: Moment, was: Files, k: nat, copied: Files)
    requires OnTrack(site, base, plan, m, was) && m.Copying? && k <= |plan.entries.value|
    requires copied == CopyTo(was, plan.entries.value, k)
    ensures OnTrack(site, base, plan, Copying(if k > m.k then k else m.k), copied)
    ensures forall i :: 0 <= i < |plan.entries.value| ==> !CopyFails(copied, plan.entries.value[i])
    ensures |copied| > |was| ==> k > m.k
  {
    CopiedClear(site, base, plan, m.k);
    var before := CopyTo(base, plan.entries.value, m.k);
    assert was == before[site.Pending() := Pending(plan)];
    CopyGoesOn(base, plan.entries.value, m.k, k, site.Pending(), Pending(plan));
  }

  lemma CopySaved(site: Site, base: Files, plan: Journal, copied: Files)
    requires plan.entries.Some? && OnTrack(site, base, plan, Copying(|plan.entries.value|), copied)
    ensures OnTrack(site, base, plan, Rewriting(0), copied[site.Pending() := Pending(plan.(copied := true))])
  {
    hide WellPlanned, DiskAt;
    StageSaved(site, base, plan, Copying(|plan.entries.value|), Rewriting(0), copied, plan.(copied := true));
  }

  method CopyPhase(disk: Storage, j: Journal, ghost base: Files, ghost plan: Journal, ghost m: Moment)
    returns (outcome: Outcome, j': Journal, ghost m': Moment)
    requires disk.site.Valid() && j.entries.Some?
    modifies disk
    ensures j.copied ==> outcome.Done? && disk.files == old(disk.files) && disk.power == old(disk.power) && m' == m
    ensures j' == j.(copied := true)
    ensures Keeps(disk.site, j, old(disk.files), disk.files)
    ensures OnTrack(disk.site, base, plan, m, old(disk.files)) && j == JournalAt(disk.site, base, plan, m) ==>
              && Advanced(disk.site, base, plan, m, m', disk.files, outcome, old(disk.power))
              && (outcome.Done? ==>
                 j' == JournalAt(disk.site, base, plan, m') && m' == if j.copied then m else Rewriting(0))
    ensures Stalled(disk.site, base, plan, m, old(disk.files)) && j == plan ==>
              Stopped(disk.site, base, plan, m, m', disk.files, outcome.Done?, outcome.PowerLost?, old(disk.power))
  {
    hide WellPlanned, Reachable, Refused, DiskAt, JournalAt, Keeps, Leaves, StalledBefore, CopyTo, CopyFails,
      CopiesPass;
    j', m' := j.(copied := true), m;
    KeepsSame(disk.site, j, disk.files);
    if j.copied {
      return Done, j', m';
    }
    ghost var was, power := disk.files, disk.power;
    ghost var tracked := OnTrack(disk.site, base, plan, m, was) && j == JournalAt(disk.site, base, plan, m);
    ghost var k;
    outcome, k := disk.CopyAll(j.entries.value);
    CopyKeeps(disk.site, j, was, k);
    if Stalled(disk.site, base, plan, m, was) && j == plan {
      StallStays(disk.site, base, plan, m, was, k);
      m' := Copying(if k > m.k then k else m.k);
    }
    KeepsSave(disk.site, j, was, disk.files, j');
    if tracked {
      JournalShows(disk.site, base, plan, m);
      JournalMoves(disk.site, base, plan, m, Rewriting(0));
      CopyTracked(disk.site, base, plan, m, was, k, disk.files);
      m' := Copying(if k > m.k then k else m.k);
      StaysRefused(disk.site, base, plan, m, m', disk.files);
    }
    if !outcome.Done? {
      return;
    }
    ghost var copied := disk.files;
    outcome := Save(disk, j');
    if outcome.Done? && tracked {
      CopySaved(disk.site, base, plan, copied);
      m' := Rewriting(0);
      StaysRefused(disk.site, base, plan, m, m', disk.files);
    }
  }

  // ---- stored paths ----

  lemma PathsTracked(site: Site, base: Files, plan: Journal, m: Moment, was: Files, k: nat, pointed: Files)
    requires OnTrack(site, base, plan, m, was) && m.Rewriting?
    requires k <= |Databases(site, plan.preview, plan.entries.value)|
    requires pointed
             == RewriteTo(was, Databases(site, plan.preview, plan.entries.value), k, plan.preview, plan.entries.value)
    requires FirstReadable(site, plan, was, k)
    ensures OnTrack(site, base, plan, Rewriting(if k > m.k then k else m.k), pointed)
    ensures forall d :: d in Databases(site, plan.preview, plan.entries.value) ==>
              (RewriteFails(pointed, d) <==> RewriteFails(Copied(base, plan), d))
  {
    var databases, content := Databases(site, plan.preview, plan.entries.value), Pending(plan.(copied := true));
    CopiedClear(site, base, plan, |plan.entries.value|);
    assert was == Pointed(site, base, plan, m.k)[site.Pending() := content];
    RewriteGoesOn(Copied(base, plan), databases, m.k, k, plan.preview, plan.entries.value, site.Pending(), content);
    var most := if k > m.k then k else m.k;
    RewriteGoesOn(Copied(base, plan), databases, most, 0, plan.preview, plan.entries.value, site.Pending(), content);
    forall i | 0 <= i < most ensures !RewriteFails(Copied(base, plan), databases[i]) {
      if i < k {
        RewriteKeepsFailing(was, databases, i, plan.preview, plan.entries.value, databases[i]);
      }
    }
  }

  /** The first k databases were not refused when their turn came. */
  ghost predicate FirstReadable(site: Site, j: Journal, files: Files, k: nat)
    requires j.entries.Some? && k <= |Databases(site, j.preview, j.entries.value)|
  {
    var databases := Databases(site, j.preview, j.entries.value);
    forall i :: 0 <= i < k ==>
      !RewriteFails(RewriteTo(files, databases, i, j.preview, j.entries.value), databases[i])
  }

  lemma PathsHashed(site: Site, base: Files, plan: Journal, pointed: Files)
    requires WellPlanned(site, base, plan)
    requires OnTrack(site, base, plan, Rewriting(|Databases(site, plan.preview, plan.entries.value)|), pointed)
    ensures forall e :: e in plan.entries.value ==>
              && e.destination in pointed
              && (e.destination in Databases(site, plan.preview, plan.entries.value)
                 || Digest(pointed[e.destination]) == e.hash)
    ensures Hashed(pointed, plan.entries.value) == PointedEntries(site, base, plan)
  {
    var entries, body := plan.entries.value, AllPointed(site, base, plan);
    assert pointed == body[site.Pending() := Pending(plan.(copied := true))];
    forall i | 0 <= i < |entries|
      ensures entries[i].destination in pointed && pointed[entries[i].destination] == body[entries[i].destination]
      ensures entries[i].destination in Databases(site, plan.preview, entries)
              || Digest(pointed[entries[i].destination]) == entries[i].hash
    {
      DestinationAt(site, base, plan, i);
      assert site.Pending() in Fixed(site, plan) && entries[i] in entries;
    }
    assert Hashed(pointed, entries) == PointedEntries(site, base, plan);
  }

  lemma PathsSaved(site: Site, base: Files, plan: Journal, pointed: Files, j: Journal)
    requires plan.entries.Some?
    requires OnTrack(site, base, plan, Rewriting(|Databases(site, plan.preview, plan.entries.value)|), pointed)
    requires j == JournalAt(site, base, plan, Referencing(false))
    ensures OnTrack(site, base, plan, Referencing(false), pointed[site.Pending() := Pending(j)])
  {
    hide WellPlanned, DiskAt, PointedEntries, RewriteTo, CopyTo;
    StageSaved(site, base, plan, Rewriting(|Databases(site, plan.preview, plan.entries.value)|), Referencing(false),
      pointed, j);
  }

  /** A destination is gone, or differs from its source without being a rewritten database. */
  predicate HashFails(files: Files, databases: seq<Path>, e: Entry) {
    e.destination in files ==> e.destination !in databases && Digest(files[e.destination]) != e.hash
  }

  /** What rewriting the stored paths did: the first k databases are rewritten; either that is all of
      them and every destination has its digest, or there is a reason why not. */
  ghost predicate PathsPointed(site: Site, j: Journal, was: Files, after: Files, outcome: Outcome,
      hashed: seq<Entry>, k: nat)
    requires j.entries.Some?
  {
    var entries := j.entries.value;
    var databases := Databases(site, j.preview, entries);
    && k <= |databases|
    && after == RewriteTo(was, databases, k, j.preview, entries)
    && FirstReadable(site, j, was, k)
    && SameMoves(entries, hashed)
    && match outcome
       case Done => k == |databases| && hashed == Hashed(after, entries)
       case PowerLost => k < |databases|
       case Failed(_) =>
         || (k < |databases| && RewriteFails(after, databases[k]))
         || (k == |databases| && exists e :: e in entries && HashFails(after, databases, e))
  }

  /** Rewrites the databases of a journal and takes the digests of all destinations. */
  method PointPaths(disk: Storage, j: Journal) returns (outcome: Outcome, hashed: seq<Entry>, ghost k: nat)
    requires disk.site.Valid() && j.entries.Some?
    modifies disk
    ensures PathsPointed(disk.site, j, old(disk.files), disk.files, outcome, hashed, k)
    ensures SameMoves(j.entries.value, hashed) && k <= 2
    ensures outcome.PowerLost? ==> k < 2 && disk.power == 0
    ensures old(disk.power) <= disk.power + k
  {
    hashed := j.entries.value;
    var databases := Databases(disk.site, j.preview, j.entries.value);
    outcome, k := disk.RewriteDatabases(databases, j.preview, j.entries.value);
    if outcome.Done? {
      var result := disk.HashDestinations(j.entries.value, databases);
      if result.None? {
        outcome := Failed(DestinationChanged);
      } else {
        hashed := result.value;
      }
    }
  }

  /** Rewriting the stored paths on the chain stays on it, and fails exactly at a database that cannot
      be rewritten. */
  lemma PathsAdvance(site: Site, base: Files, plan: Journal, m: Moment, was: Files, after: Files,
      outcome: Outcome, hashed: seq<Entry>, k: nat)
    requires OnTrack(site, base, plan, m, was) && m.Rewriting?
    requires PathsPointed(site, plan.(copied := true), was, after, outcome, hashed, k)
    ensures OnTrack(site, base, plan, Rewriting(if k > m.k then k else m.k), after)
    ensures outcome.Failed? ==> Refused(site, base, plan, Rewriting(if k > m.k then k else m.k))
    ensures outcome.Done? ==>
              && k == |Databases(site, plan.preview, plan.entries.value)|
              && OnTrack(site, base, plan, Rewriting(k), after)
              && hashed == PointedEntries(site, base, plan)
  {
    hide WellPlanned, DiskAt;
    PathsTracked(site, base, plan, m, was, k, after);
    if k == |Databases(site, plan.preview, plan.entries.value)| {
      PathsHashed(site, base, plan, after);
    }
  }

  lemma PathsKeep(site: Site, j: Journal, was: Files, after: Files, outcome: Outcome, hashed: seq<Entry>, k: nat)
    requires site.Valid() && j.entries.Some? && PathsPointed(site, j, was, after, outcome, hashed, k)
    ensures Keeps(site, j, was, after)
  {
    RewriteKeeps(site, j, was, k);
  }

  method PathsPhase(disk: Storage, j: Journal, ghost base: Files, ghost plan: Journal, ghost m: Moment)
    returns (outcome: Outcome, j': Journal, ghost m': Moment)
    requires disk.site.Valid() && j.entries.Some?
    modifies disk
    ensures j.pathsUpdated ==>
            outcome.Done? && j' == j && disk.files == old(disk.files) && disk.power == old(disk.power) && m' == m
    ensures j'.entries.Some? && SameMoves(j.entries.value, j'.entries.value)
    ensures outcome.Done? ==> j' == j.(pathsUpdated := true, entries := j'.entries)
    ensures Keeps(disk.site, j, old(disk.files), disk.files)
    ensures OnTrack(disk.site, base, plan, m, old(disk.files)) && j == JournalAt(disk.site, base, plan, m)
            && j.copied ==>
              && Advanced(disk.site, base, plan, m, m', disk.files, outcome, old(disk.power))
              && (outcome.Done? ==>
                 j' == JournalAt(disk.site, base, plan, m') && m' == if j.pathsUpdated then m else Referencing(false))
  {
    hide WellPlanned, Reachable, Refused, DiskAt, JournalAt, Keeps, Leaves, PathsPointed;
    j', m' := j, m;
    KeepsSame(disk.site, j, disk.files);
    if j.pathsUpdated {
      return Done, j', m';
    }
    ghost var was := disk.files;
    ghost var tracked := OnTrack(disk.site, base, plan, m, was) && j == JournalAt(disk.site, base, plan, m) && j.copied;
    var hashed;
    ghost var k;
    outcome, hashed, k := PointPaths(disk, j);
    ghost var pointed := disk.files;
    PathsKeep(disk.site, j, was, pointed, outcome, hashed, k);
    if tracked {
      JournalShows(disk.site, base, plan, m);
      JournalMoves(disk.site, base, plan, m, Referencing(false));
      PathsAdvance(disk.site, base, plan, m, was, pointed, outcome, hashed, k);
      m' := Rewriting(if k > m.k then k else m.k);
      StaysRefused(disk.site, base, plan, m, m', pointed);
    }
    if !outcome.Done? {
      return;
    }
    j' := j.(pathsUpdated := true, entries := Some(hashed));
    KeepsSave(disk.site, j, was, pointed, j');
    outcome := Save(disk, j');
    if outcome.Done? && tracked {
      PathsSaved(disk.site, base, plan, pointed, j');
      m' := Referencing(false);
      StaysRefused(disk.site, base, plan, m, m', disk.files);
    }
  }

  // ---- transport references ----

  /** What repairing the transport references did: nothing without an index; otherwise the repaired
      index with fresh digests where it moved, or the reason why not. */
  ghost predicate TransportRepaired(site: Site, j: Journal, was: Files, after: Files, outcome: Outcome,
      hashed: seq<Entry>)
    requires j.entries.Some?
  {
    var entries := j.entries.value;
    var index := TransportIndex(site, j.preview, entries);
    if j.preview.operation == SelectData || index !in was then
      outcome.Done? && after == was && hashed == entries
    else
      match outcome
      case Done =>
        && after == RepairAtPath(was, index, entries) && !RepairFails(was, index)
        && hashed == if j.preview.operation == MoveData
                     then Rehashed(after, entries, TransportDir(site, j.preview, entries)) else entries
      case PowerLost => after == was
      case Failed(_) =>
        || (after == was && RepairFails(was, index))
        || (after == RepairAtPath(was, index, entries) && j.preview.operation == MoveData
            && exists e :: e in entries && e.destination !in after)
  }

  /** Repairs the transport index, if there is one, and takes fresh digests below it when it moved. */
  method RepairTransport(disk: Storage, j: Journal) returns (outcome: Outcome, hashed: seq<Entry>)
    requires disk.site.Valid() && j.entries.Some?
    modifies disk
    ensures TransportRepaired(disk.site, j, old(disk.files), disk.files, outcome, hashed)
    ensures outcome.PowerLost? ==> old(disk.power) == 0
    ensures SameMoves(j.entries.value, hashed)
    ensures old(disk.power) <= disk.power + 1
  {
    outcome, hashed := Done, j.entries.value;
    var transport := TransportDir(disk.site, j.preview, j.entries.value);
    var index := transport + ["blobs.db"];
    if j.preview.operation != SelectData && index in disk.files {
      if !disk.files[index].Transport? {
        return Failed(BadTransport), hashed;
      }
      outcome := disk.WriteAtomic(index, Transport(Repair(disk.files[index].references, j.entries.value)));
      if outcome.Done? && j.preview.operation == MoveData {
        var result := disk.RehashTransport(j.entries.value, transport);
        if result.None? {
          return Failed(FileMissing), hashed;
        }
        hashed := result.value;
      }
    }
  }

  lemma ReferencesNamed(site: Site, base: Files, plan: Journal, m: Moment)
    requires WellPlanned(site, base, plan) && m.Referencing?
    ensures var j := JournalAt(site, base, plan, m);
            && SameMoves(plan.entries.value, j.entries.value)
            && TransportIndex(site, j.preview, j.entries.value)
               == TransportIndex(site, plan.preview, plan.entries.value)
            && TransportDir(site, j.preview, j.entries.value) == TransportDir(site, plan.preview, plan.entries.value)
  {
    SameMovesNames(site, plan.preview, plan.entries.value, PointedEntries(site, base, plan));
  }

  lemma ReferencesTracked(site: Site, base: Files, plan: Journal, m: Moment, was: Files, after: Files)
    requires OnTrack(site, base, plan, m, was) && m.Referencing? && plan.preview.operation != SelectData
    requires after == RepairAtPath(was, TransportIndex(site, plan.preview, plan.entries.value),
                                   JournalAt(site, base, plan, m).entries.value)
    requires IndexReadable(site, base, plan)
    ensures OnTrack(site, base, plan, Referencing(true), after)
  {
    var j := JournalAt(site, base, plan, m);
    var index := TransportIndex(site, plan.preview, plan.entries.value);
    ReferencesNamed(site, base, plan, m);
    assert index in Rewritten(site, plan.preview, plan.entries.value) && site.Pending() in Fixed(site, plan);
    assert was == BodyAt(site, base, plan, m)[site.Pending() := Pending(j)];
    RepairGoesOn(AllPointed(site, base, plan), index, plan.entries.value, j.entries.value, site.Pending(), Pending(j));
    assert after == Repaired(site, base, plan)[site.Pending() := Pending(j)];
  }

  /** With no index to repair, nothing is left to do. */
  lemma ReferencesSkipped(site: Site, base: Files, plan: Journal, m: Moment, was: Files)
    requires OnTrack(site, base, plan, m, was) && m.Referencing?
    requires plan.preview.operation == SelectData || TransportIndex(site, plan.preview, plan.entries.value) !in was
    ensures OnTrack(site, base, plan, Referencing(true), was)
    ensures PointedEntries(site, base, plan) == RepairedEntries(site, base, plan)
  {
    var index := TransportIndex(site, plan.preview, plan.entries.value);
    assert was == BodyAt(site, base, plan, m)[site.Pending() := Pending(JournalAt(site, base, plan, m))];
    if plan.preview.operation != SelectData {
      RepairedAt(site, base, plan);
      PointedAt(site, base, plan, |Databases(site, plan.preview, plan.entries.value)|);
      assert index !in AllPointed(site, base, plan);
    }
    assert Repaired(site, base, plan) == AllPointed(site, base, plan);
  }

  /** The index is refused when its turn comes if and only if it was malformed once copied. */
  lemma ReferencesReadable(site: Site, base: Files, plan: Journal, m: Moment, was: Files)
    requires OnTrack(site, base, plan, m, was) && m.Referencing? && plan.preview.operation != SelectData
    ensures var index := TransportIndex(site, plan.preview, plan.entries.value);
            && (RepairFails(was, index) <==> !IndexReadable(site, base, plan))
            && (index in was <==> index in AllPointed(site, base, plan))
  {
    var index := TransportIndex(site, plan.preview, plan.entries.value);
    IndexPointed(site, base, plan);
    assert index in Rewritten(site, plan.preview, plan.entries.value) && site.Pending() in Fixed(site, plan);
    assert was == BodyAt(site, base, plan, m)[site.Pending() := Pending(JournalAt(site, base, plan, m))];
  }

  /** Rewriting the databases does not touch the index, and repairing it keeps what kind of file it is. */
  lemma IndexPointed(site: Site, base: Files, plan: Journal)
    requires WellPlanned(site, base, plan) && plan.preview.operation != SelectData
    ensures var index, pointed := TransportIndex(site, plan.preview, plan.entries.value), AllPointed(site, base, plan);
            && (index in pointed <==> index in Copied(base, plan))
            && (index in Repaired(site, base, plan) <==> index in Copied(base, plan))
            && (index in pointed ==>
                  && pointed[index] == Copied(base, plan)[index]
                  && Repaired(site, base, plan)[index] == RepairContent(pointed[index], plan.entries.value))
  {
    RepairedAt(site, base, plan);
    var databases := Databases(site, plan.preview, plan.entries.value);
    PointedAt(site, base, plan, |databases|);
    assert databases[..|databases|] == databases;
  }

  /** The fresh digests do not depend on the journal file. */
  lemma RehashedPut(files: Files, entries: seq<Entry>, transport: Path, p: Path, content: Content)
    requires forall e :: e in entries ==> e.destination != p
    ensures Rehashed(files[p := content], entries, transport) == Rehashed(files, entries, transport)
  {
    assert forall i :: 0 <= i < |entries| ==> entries[i] in entries;
  }

  lemma ReferencesHashed(site: Site, base: Files, plan: Journal, m: Moment, after: Files)
    requires OnTrack(site, base, plan, Referencing(true), after) && plan.preview.operation == MoveData
    requires TransportIndex(site, plan.preview, plan.entries.value) in AllPointed(site, base, plan)
    ensures forall e :: e in PointedEntries(site, base, plan) ==> e.destination in after
    ensures Rehashed(after, PointedEntries(site, base, plan), TransportDir(site, plan.preview, plan.entries.value))
            == RepairedEntries(site, base, plan)
  {
    var pointed, body := PointedEntries(site, base, plan), Repaired(site, base, plan);
    var transport := TransportDir(site, plan.preview, plan.entries.value);
    assert site.Pending() in Fixed(site, plan);
    forall i | 0 <= i < |pointed|
      ensures pointed[i].destination in body && pointed[i].destination != site.Pending()
    {
      DestinationAt(site, base, plan, i);
    }
    hide WellPlanned, Repaired, PointedEntries, Rehashed;
    RehashedPut(body, pointed, transport, site.Pending(), Pending(JournalAt(site, base, plan, Referencing(true))));
  }

  /** One repair, wherever a crash had left it, ends with the index repaired, and fails exactly when the
      index is malformed. */
  lemma ReferencesAdvance(site: Site, base: Files, plan: Journal, m: Moment, was: Files, after: Files,
      outcome: Outcome, hashed: seq<Entry>)
    requires OnTrack(site, base, plan, m, was) && m.Referencing?
    requires TransportRepaired(site, JournalAt(site, base, plan, m), was, after, outcome, hashed)
    ensures outcome.Failed? ==> Refused(site, base, plan, m)
    ensures !outcome.Done? ==> after == was
    ensures outcome.Done? ==>
            OnTrack(site, base, plan, Referencing(true), after) && hashed == RepairedEntries(site, base, plan)
  {
    hide WellPlanned, DiskAt, Repaired, Rehashed, IndexReadable, PointedEntries;
    ReferencesNamed(site, base, plan, m);
    var index := TransportIndex(site, plan.preview, plan.entries.value);
    if plan.preview.operation == SelectData || index !in was {
      ReferencesSkipped(site, base, plan, m, was);
    } else {
      ReferencesReadable(site, base, plan, m, was);
      if !RepairFails(was, index) && after == RepairAtPath(was, index, PointedEntries(site, base, plan)) {
        ReferencesTracked(site, base, plan, m, was, after);
        if plan.preview.operation == MoveData {
          ReferencesHashed(site, base, plan, m, after);
        }
      }
    }
  }

  lemma ReferencesSaved(site: Site, base: Files, plan: Journal, after: Files, j: Journal)
    requires OnTrack(site, base, plan, Referencing(true), after)
    requires j == JournalAt(site, base, plan, Committing(0))
    ensures OnTrack(site, base, plan, Committing(0), after[site.Pending() := Pending(j)])
  {
    hide WellPlanned, DiskAt, RepairedEntries, Repaired;
    StageSaved(site, base, plan, Referencing(true), Committing(0), after, j);
  }

  lemma ReferencesKeep(site: Site, j: Journal, was: Files, after: Files, outcome: Outcome, hashed: seq<Entry>)
    requires site.Valid() && j.entries.Some? && TransportRepaired(site, j, was, after, outcome, hashed)
    ensures Keeps(site, j, was, after)
  {
    KeepsSame(site, j, was);
    if j.preview.operation != SelectData {
      RepairKeeps(site, j, was);
    }
  }

  method ReferencesPhase(disk: Storage, j: Journal, ghost base: Files, ghost plan: Journal, ghost m: Moment)
    returns (outcome: Outcome, j': Journal, ghost m': Moment)
    requires disk.site.Valid() && j.entries.Some?
    modifies disk
    ensures j.referencesUpdated ==>
            outcome.Done? && j' == j && disk.files == old(disk.files) && disk.power == old(disk.power) && m' == m
    ensures j'.entries.Some? && SameMoves(j.entries.value, j'.entries.value)
    ensures outcome.Done? ==> j' == j.(referencesUpdated := true, entries := j'.entries)
    ensures Keeps(disk.site, j, old(disk.files), disk.files)
    ensures OnTrack(disk.site, base, plan, m, old(disk.files)) && j == JournalAt(disk.site, base, plan, m)
            && j.pathsUpdated ==>
              && Advanced(disk.site, base, plan, m, m', disk.files, outcome, old(disk.power))
              && (outcome.Done? ==>
                 j' == JournalAt(disk.site, base, plan, m') && m' == if j.referencesUpdated then m else Committing(0))
  {
    hide WellPlanned, Reachable, Refused, DiskAt, JournalAt, Keeps, Leaves, TransportRepaired;
    j', m' := j, m;
    KeepsSame(disk.site, j, disk.files);
    if j.referencesUpdated {
      return Done, j', m';
    }
    ghost var was := disk.files;
    ghost var tracked := OnTrack(disk.site, base, plan, m, was) && j == JournalAt(disk.site, base, plan, m)
      && j.pathsUpdated;
    ghost var index := TransportIndex(disk.site, j.preview, j.entries.value);
    var hashed;
    outcome, hashed := RepairTransport(disk, j);
    ghost var after := disk.files;
    ReferencesKeep(disk.site, j, was, after, outcome, hashed);
    if tracked {
      JournalShows(disk.site, base, plan, m);
      JournalMoves(disk.site, base, plan, m, Committing(0));
      ReferencesAdvance(disk.site, base, plan, m, was, after, outcome, hashed);
      m' := if outcome.Done? then Referencing(true) else m;
      StaysRefused(disk.site, base, plan, m, m', after);
    }
    if !outcome.Done? {
      return;
    }
    j' := j.(referencesUpdated := true, entries := Some(hashed));
    KeepsSave(disk.site, j, was, after, j');
    outcome := Save(disk, j');
    if outcome.Done? && tracked {
      ReferencesSaved(disk.site, base, plan, after, j');
      m' := Committing(0);
      StaysRefused(disk.site, base, plan, m, m', disk.files);
    }
  }

  // ---- cutover ----

  /** Switches the preferences unless they already are, and refuses to when someone edited them. */
  method CutPreferences(disk: Storage, j: Journal) returns (outcome: Outcome)
    modifies disk
    ensures outcome.Failed? <==> PreferencesFail(old(disk.files), j)
    ensures disk.files == if outcome.Done? then SwitchPreferences(old(disk.files), j) else old(disk.files)
    ensures outcome.PowerLost? ==> old(disk.power) == 0 == disk.power
    ensures disk.power <= old(disk.power) <= disk.power + if outcome.Done? then 1 else 0
  {
    if j.preferences.None? {
      return Done;
    }
    var change := j.preferences.value;
    if change.path !in disk.files || change.after.None? {
      return Failed(PreferencesMissing);
    }
    var current := disk.files[change.path];
    if current == change.after.value {
      assert disk.files[change.path := current] == disk.files;
      return Done;
    }
    if current != change.before {
      return Failed(PreferencesChanged);
    }
    outcome := disk.WriteAtomic(change.path, change.after.value);
  }

  /** The cutover: preferences, then a backup that is never replaced, then the config. */
  method CutOver(disk: Storage, j: Journal, current: Content) returns (outcome: Outcome, ghost step: nat)
    requires disk.site.Valid() && j.configAfter.Some?
    modifies disk
    ensures step <= 3 && disk.files == CutTo(disk.site, old(disk.files), j, current, step)
    ensures outcome.Done? ==> step == 3
    ensures outcome.PowerLost? ==> step < 3 && disk.power == 0
    ensures outcome.Failed? <==> PreferencesFail(old(disk.files), j)
    ensures outcome.Failed? ==> step == 0
    ensures old(disk.power) <= disk.power + step
    ensures disk.site.Backup() in old(disk.files) ==> old(disk.power) <= disk.power + 2
  {
    step := 0;
    outcome := CutPreferences(disk, j);
    if !outcome.Done? {
      return;
    }
    step := 1;
    if current == j.configBefore {
      if disk.site.Backup() !in disk.files {
        outcome := disk.PersistNoClobber(disk.site.Backup(), j.configBefore);
        if !outcome.Done? {
          return;
        }
      }
      step := 2;
      outcome := disk.WriteAtomic(disk.site.config, j.configAfter.value);
      if !outcome.Done? {
        return;
      }
    }
    step := 3;
  }

  /** Cutting over again after a crash changes nothing that was already switched. */
  lemma CutResumes(site: Site, files: Files, j: Journal, current: Content, s: nat, step: nat, content: Content)
    requires site.Valid() && FreshManifest(j) && s <= 3 && step <= 3
    requires j.preferences.Some? ==> j.preferences.value.path !in {site.config, site.Pending(), site.Backup()}
    requires current == j.configBefore || s == 3
    ensures CutTo(site, CutTo(site, files, j, j.configBefore, s)[site.Pending() := content], j, current, step)
            == CutTo(site, files, j, j.configBefore, if step > s then step else s)[site.Pending() := content]
  {
    ReservedNamesDiffer(site);
    hide FreshManifest;
    var once := CutTo(site, files, j, j.configBefore, s);
    CutPut(site, once, j, current, step, content);
    CutTwice(site, files, j, current, s, step);
  }

  lemma CutPut(site: Site, files: Files, j: Journal, current: Content, step: nat, content: Content)
    requires site.Valid() && site.Pending() != site.config && site.Pending() != site.Backup()
    requires j.preferences.Some? ==> j.preferences.value.path != site.Pending()
    ensures CutTo(site, files[site.Pending() := content], j, current, step)
            == CutTo(site, files, j, current, step)[site.Pending() := content]
  {
  }

  lemma CutTwice(site: Site, files: Files, j: Journal, current: Content, s: nat, step: nat)
    requires site.Valid() && s <= 3 && step <= 3 && site.config != site.Backup()
    requires j.preferences.Some? ==> j.preferences.value.path !in {site.config, site.Pending(), site.Backup()}
    requires current == j.configBefore || s == 3
    ensures CutTo(site, CutTo(site, files, j, j.configBefore, s), j, current, step)
            == CutTo(site, files, j, j.configBefore, if step > s then step else s)
  {
  }

  lemma CommitTracked(site: Site, base: Files, plan: Journal, m: Moment, was: Files, current: Content, step: nat,
      after: Files)
    requires OnTrack(site, base, plan, m, was) && m.Committing? && step <= 3
    requires site.config in was && was[site.config] == current
    requires after == CutTo(site, was, JournalAt(site, base, plan, m), current, step)
    requires !Refused(site, base, plan, m)
    ensures OnTrack(site, base, plan, Committing(if step > m.step then step else m.step), after)
    ensures m.step >= 2 ==> site.Backup() in was
  {
    var j := JournalAt(site, base, plan, m);
    ReservedNamesDiffer(site);
    CommittedAt(site, base, plan, m.step);
    CutIgnores(site, was, plan, j, current, step);
    hide WellPlanned, CutTo, Repaired, RepairedEntries, JournalAt;
    CutResumes(site, Repaired(site, base, plan), plan, current, m.step, step, Pending(j));
  }

  /** The cutover only reads the documents of the journal. */
  lemma CutIgnores(site: Site, files: Files, a: Journal, b: Journal, current: Content, step: nat)
    requires site.Valid() && a.configBefore == b.configBefore && a.configAfter == b.configAfter
             && a.preferences == b.preferences
    ensures CutTo(site, files, a, current, step) == CutTo(site, files, b, current, step)
  {
  }

  /** On the chain the checks before the cutover pass if and only if the moment is not a refused one. */
  lemma CommitChecks(site: Site, base: Files, plan: Journal, m: Moment, was: Files)
    requires OnTrack(site, base, plan, m, was) && m.Committing?
    ensures var j := JournalAt(site, base, plan, m);
            j.entries.Some? && (ReadyToCut(j, was) <==> !Refused(site, base, plan, m))
  {
    CommitPreferences(site, base, plan, m, was);
    forall i | 0 <= i < |plan.entries.value|
      ensures SameSource(plan.entries.value[i], RepairedEntries(site, base, plan)[i], base, was)
      ensures CommitSourceIs(site, base, plan, m, was, plan.entries.value[i])
    {
      CommitSource(site, base, plan, m, was, i);
    }
    hide WellPlanned, DiskAt, Repaired, Fixed, RepairedEntries, PreferencesFail, DatabasesReadable, IndexReadable;
    SameDigests(plan.entries.value, RepairedEntries(site, base, plan), base, was);
    if m.step == 0 {
      assert SourcesKept(site, base, plan) <==> AllSame(plan.entries.value, base, was);
    } else {
      MovedSource(site, base, plan, was);
    }
  }

  /** The entry that is checked is the planned one, of a source that is still there. */
  predicate SameSource(planned: Entry, checked: Entry, base: Files, was: Files) {
    && checked.source == planned.source && checked.hash == planned.hash
    && planned.source in base && planned.hash == Digest(base[planned.source]) && planned.source in was
  }

  /** What a source holds at a moment of the cutover. */
  predicate CommitSourceIs(site: Site, base: Files, plan: Journal, m: Moment, was: Files, e: Entry)
    requires plan.entries.Some? && m.Committing?
  {
    && e.source in was && e.source in base && e.source in Repaired(site, base, plan)
    && if m.step >= 1 && plan.preferences.Some? && e.source == plan.preferences.value.path
       then Some(was[e.source]) == plan.preferences.value.after
       else was[e.source] == Repaired(site, base, plan)[e.source]
  }

  lemma CommitPreferences(site: Site, base: Files, plan: Journal, m: Moment, was: Files)
    requires OnTrack(site, base, plan, m, was) && m.Committing?
    ensures JournalAt(site, base, plan, m).configAfter.Some?
    ensures PreferencesFail(was, JournalAt(site, base, plan, m)) <==> m.step == 0 && PreferencesFail(base, plan)
  {
    CommittedAt(site, base, plan, m.step);
  }

  lemma CommitSource(site: Site, base: Files, plan: Journal, m: Moment, was: Files, i: nat)
    requires OnTrack(site, base, plan, m, was) && m.Committing? && i < |plan.entries.value|
    ensures SameSource(plan.entries.value[i], RepairedEntries(site, base, plan)[i], base, was)
    ensures CommitSourceIs(site, base, plan, m, was, plan.entries.value[i])
  {
    var e := plan.entries.value[i];
    CommittedAt(site, base, plan, m.step);
    RepairedFixed(site, base, plan);
    SourceAt(site, base, plan, e);
    assert e in plan.entries.value;
    hide WellPlanned, Committed, Repaired, Updated, Reachable;
  }

  /** After the first step only moved preferences differ from what was planned. */
  lemma MovedSource(site: Site, base: Files, plan: Journal, was: Files)
    requires plan.entries.Some? && SourcesKept(site, base, plan)
    requires forall e :: e in plan.entries.value ==> CommitSourceIs(site, base, plan, Committing(1), was, e)
    ensures PreferencesMoved(base, plan) <==> !AllSame(plan.entries.value, base, was)
  {
    if PreferencesMoved(base, plan) {
      var e :| e in plan.entries.value && e.source == plan.preferences.value.path;
      assert was[e.source] != base[e.source];
    }
    if !AllSame(plan.entries.value, base, was) {
      var e :| e in plan.entries.value && was[e.source] != base[e.source];
      assert e.source in Sources(plan.entries.value);
    }
  }

  /** Every source holds what it held. */
  ghost predicate AllSame(entries: seq<Entry>, base: Files, was: Files) {
    forall e :: e in entries && e.source in base && e.source in was ==> was[e.source] == base[e.source]
  }

  /** The digests that are checked are those of the plan. */
  lemma SameDigests(planned: seq<Entry>, entries: seq<Entry>, base: Files, was: Files)
    requires |planned| == |entries|
    requires forall i :: 0 <= i < |entries| ==> SameSource(planned[i], entries[i], base, was)
    ensures AllSame(planned, base, was)
            <==> forall e :: e in entries ==> e.source in was && Digest(was[e.source]) == e.hash
  {
    if AllSame(planned, base, was) {
      forall e | e in entries ensures e.source in was && Digest(was[e.source]) == e.hash {
        var i :| 0 <= i < |entries| && entries[i] == e;
        assert planned[i] in planned;
      }
    }
    if forall e :: e in entries ==> e.source in was && Digest(was[e.source]) == e.hash {
      forall e | e in planned && e.source in base && e.source in was ensures was[e.source] == base[e.source] {
        var i :| 0 <= i < |planned| && planned[i] == e;
        assert entries[i] in entries;
      }
    }
  }

  /** What the checks before the cutover look at. */
  ghost predicate ReadyToCut(j: Journal, files: Files)
    requires j.entries.Some?
  {
    && (forall e :: e in j.entries.value ==> e.source in files && Digest(files[e.source]) == e.hash)
    && j.configAfter.Some? && !PreferencesFail(files, j)
  }

  /** What the cutover did: a prefix of its three steps, or none where a check failed. */
  ghost predicate IsCut(site: Site, j: Journal, current: Content, was: Files, after: Files, outcome: Outcome, step: nat)
    requires site.Valid() && j.entries.Some?
  {
    && step <= 3 && after == CutTo(site, was, j, current, step)
    && match outcome
       case Done => step == 3 && ReadyToCut(j, was)
       case PowerLost => step < 3 && ReadyToCut(j, was)
       case Failed(_) => step == 0 && !ReadyToCut(j, was)
  }

  /** Checks the sources and cuts over. */
  method Commit(disk: Storage, j: Journal, current: Content) returns (outcome: Outcome, ghost step: nat)
    requires disk.site.Valid() && j.entries.Some?
    modifies disk
    ensures IsCut(disk.site, j, current, old(disk.files), disk.files, outcome, step)
    ensures outcome.PowerLost? ==> disk.power == 0
    ensures old(disk.power) <= disk.power + step
    ensures disk.site.Backup() in old(disk.files) ==> old(disk.power) <= disk.power + 2
  {
    step := 0;
    var intact := disk.SourcesUnchanged(j.entries.value);
    if !intact {
      return Failed(SourceChanged), step;
    }
    if j.configAfter.None? {
      return Failed(TargetConfigMissing), step;
    }
    outcome, step := CutOver(disk, j, current);
  }

  /** A cutover on the chain stays on it, and is refused exactly at the refused moments: the rewriting has
      changed a source, the preferences hold neither text, or they were switched although they move. */
  lemma CommitAdvance(site: Site, base: Files, plan: Journal, m: Moment, was: Files, current: Content,
      after: Files, outcome: Outcome, step: nat)
    requires OnTrack(site, base, plan, m, was) && m.Committing?
    requires site.config in was && was[site.config] == current
    requires IsCut(site, JournalAt(site, base, plan, m), current, was, after, outcome, step)
    ensures OnTrack(site, base, plan, Committing(if step > m.step then step else m.step), after)
    ensures outcome.Failed? <==> Refused(site, base, plan, m)
    ensures outcome.Failed? ==> step == 0
    ensures !outcome.Failed? && m.step >= 2 ==> site.Backup() in was
  {
    hide WellPlanned, DiskAt, Reachable, Refused, ReadyToCut, CutTo, JournalAt;
    CommitChecks(site, base, plan, m, was);
    if Refused(site, base, plan, m) {
      CutNothing(site, was, JournalAt(site, base, plan, m), current);
    } else {
      CommitTracked(site, base, plan, m, was, current, step, after);
    }
  }

  lemma CutNothing(site: Site, files: Files, j: Journal, current: Content)
    requires site.Valid()
    ensures CutTo(site, files, j, current, 0) == files
  {
  }

  lemma CommitSaved(site: Site, base: Files, plan: Journal, after: Files, j: Journal)
    requires OnTrack(site, base, plan, Committing(3), after)
    requires plan.entries.Some? && j == JournalAt(site, base, plan, Deleting(0))
    ensures OnTrack(site, base, plan, Deleting(0), after[site.Pending() := Pending(j)])
  {
    hide WellPlanned, DiskAt, RepairedEntries, Committed;
    StageSaved(site, base, plan, Committing(3), Deleting(0), after, j);
  }

  method CommitPhase(disk: Storage, j: Journal, current: Content, ghost base: Files, ghost plan: Journal,
      ghost m: Moment)
    returns (outcome: Outcome, j': Journal, ghost m': Moment)
    requires disk.site.Valid() && j.entries.Some?
    modifies disk
    ensures j.committed ==> outcome.Done? && disk.files == old(disk.files) && disk.power == old(disk.power) && m' == m
    ensures j' == j.(committed := true)
    ensures Keeps(disk.site, j, old(disk.files), disk.files)
    ensures && OnTrack(disk.site, base, plan, m, old(disk.files)) && j == JournalAt(disk.site, base, plan, m)
            && j.referencesUpdated
            && disk.site.config in old(disk.files) && old(disk.files)[disk.site.config] == current ==>
              && Advanced(disk.site, base, plan, m, m', disk.files, outcome, old(disk.power))
              && (outcome.Done? ==>
                 j' == JournalAt(disk.site, base, plan, m') && m' == if j.committed then m else Deleting(0))
  {
    hide WellPlanned, Reachable, Refused, DiskAt, JournalAt, Keeps, Leaves, ReadyToCut, CutTo;
    j', m' := j.(committed := true), m;
    KeepsSame(disk.site, j, disk.files);
    if j.committed {
      return Done, j', m';
    }
    ghost var was := disk.files;
    ghost var tracked := OnTrack(disk.site, base, plan, m, was) && j == JournalAt(disk.site, base, plan, m)
      && j.referencesUpdated && disk.site.config in was && was[disk.site.config] == current;
    ghost var step;
    outcome, step := Commit(disk, j, current);
    ghost var after := disk.files;
    CutKeeps(disk.site, j, was, current, step);
    if tracked {
      JournalShows(disk.site, base, plan, m);
      JournalMoves(disk.site, base, plan, m, Deleting(0));
      CommitAdvance(disk.site, base, plan, m, was, current, after, outcome, step);
      m' := Committing(if step > m.step then step else m.step);
    }
    if !outcome.Done? {
      return;
    }
    KeepsSave(disk.site, j, was, after, j');
    outcome := Save(disk, j');
    if outcome.Done? && tracked {
      CommitSaved(disk.site, base, plan, after, j');
      m' := Deleting(0);
    }
  }

  // ---- cleanup ----

  /** What a run of deletions leaves on disk. */
  lemma DeleteReaches(site: Site, base: Files, plan: Journal, m: Moment, was: Files, k: nat, after: Files)
    requires OnTrack(site, base, plan, m, was) && m.Deleting? && k <= |plan.entries.value|
    requires after == DeleteTo(was, RepairedEntries(site, base, plan), k)
    ensures after == DiskAt(site, base, plan, Deleting(if k > m.k then k else m.k))
    ensures after == DeleteTo(Committed(site, base, plan, 3), plan.entries.value, if k > m.k then k else m.k)
                     [site.Pending() := Pending(JournalAt(site, base, plan, m))]
    ensures k <= m.k ==> after == was
  {
    var entries := plan.entries.value;
    var body, content := Committed(site, base, plan, 3), Pending(JournalAt(site, base, plan, m));
    CopiedClear(site, base, plan, 0);
    assert was == DeleteTo(body, entries, m.k)[site.Pending() := content];
    SameMovesDelete(was, entries, RepairedEntries(site, base, plan), k);
    DeletePut(DeleteTo(body, entries, m.k), entries, k, site.Pending(), content);
    DeleteResumes(body, entries, m.k, k);
  }

  lemma DeletePasses(site: Site, base: Files, plan: Journal, k: nat, content: Content, i: nat)
    requires site.Valid() && plan.entries.Some? && WellPlanned(site, base, plan) && SourcesKept(site, base, plan)
    requires k <= |plan.entries.value| && i < |plan.entries.value|
    ensures var files := DeleteTo(Committed(site, base, plan, 3), plan.entries.value, k)[site.Pending() := content];
            var fails := DeleteFails(files, RepairedEntries(site, base, plan)[i]);
            var moved := PreferencesMoved(base, plan) && plan.entries.value[i].source == plan.preferences.value.path;
            (fails ==> moved) && (moved && k <= i ==> fails)
  {
    hide WellPlanned, Committed, RepairedEntries, DeleteTo, DeleteFails, SourcesKept;
    if PreferencesMoved(base, plan) && plan.entries.value[i].source == plan.preferences.value.path {
      if k <= i { DeleteFailsForMoved(site, base, plan, k, i); }
    } else {
      DeleteNeverFails(site, base, plan, k, i);
    }
    ClearOfPending(site, base, plan, i);
    DeleteFailsPut(DeleteTo(Committed(site, base, plan, 3), plan.entries.value, k),
      RepairedEntries(site, base, plan)[i], site.Pending(), content);
  }

  lemma ClearOfPending(site: Site, base: Files, plan: Journal, i: nat)
    requires WellPlanned(site, base, plan) && i < |plan.entries.value|
    ensures site.Pending() != RepairedEntries(site, base, plan)[i].source
    ensures site.Pending() != RepairedEntries(site, base, plan)[i].destination
  {
    CopiedClear(site, base, plan, 0);
    var e := plan.entries.value[i];
    assert e in plan.entries.value;
    assert e.source in Sources(plan.entries.value) && e.destination in Destinations(plan.entries.value);
  }

  lemma DeleteFailsPut(files: Files, e: Entry, p: Path, content: Content)
    requires p != e.source && p != e.destination
    ensures DeleteFails(files[p := content], e) == DeleteFails(files, e)
  {
  }

  lemma DeleteFinished(site: Site, base: Files, plan: Journal, after: Files)
    requires plan.entries.Some? && OnTrack(site, base, plan, Deleting(|plan.entries.value|), after)
    ensures OnTrack(site, base, plan, Finished, after - {site.Pending()})
  {
    hide WellPlanned, RepairedEntries, Committed, DeleteTo;
    PendingOutside(site, base, plan, Finished);
    PutTwice(BodyAt(site, base, plan, Finished), site.Pending(),
      Pending(JournalAt(site, base, plan, Deleting(|plan.entries.value|))), plan.configBefore);
  }

  /** On the chain a deletion is only refused for preferences that the cutover has changed, and then the
      run has got exactly there. */
  lemma DeleteRefused(site: Site, base: Files, plan: Journal, m: Moment, was: Files, k: nat, after: Files)
    requires OnTrack(site, base, plan, m, was) && m.Deleting? && k < |plan.entries.value|
    requires after == DeleteTo(was, RepairedEntries(site, base, plan), k)
    requires DeleteFails(after, RepairedEntries(site, base, plan)[k])
    ensures Refused(site, base, plan, Deleting(if k > m.k then k else m.k))
  {
    DeleteReaches(site, base, plan, m, was, k, after);
    DeletePasses(site, base, plan, if k > m.k then k else m.k, Pending(JournalAt(site, base, plan, m)), k);
    EarlierListed(plan.entries.value, k, m.k);
    DeleteGone(site, base, plan, m, was, k);
  }

  lemma EarlierListed(entries: seq<Entry>, i: nat, k: nat)
    requires i < |entries| && k <= |entries|
    ensures i < k ==> entries[i].source in Sources(entries[..k])
  {
    if i < k {
      assert entries[..k][i] == entries[i];
    }
  }

  /** An entry whose source is gone is not refused. */
  lemma DeleteGone(site: Site, base: Files, plan: Journal, m: Moment, was: Files, k: nat)
    requires OnTrack(site, base, plan, m, was) && m.Deleting? && k < |plan.entries.value|
    ensures k < m.k ==>
            !DeleteFails(DeleteTo(was, RepairedEntries(site, base, plan), k), RepairedEntries(site, base, plan)[k])
  {
    if k < m.k {
      EarlierListed(plan.entries.value, k, m.k);
      DeleteAt(Committed(site, base, plan, 3), plan.entries.value, m.k);
      DeleteAt(was, RepairedEntries(site, base, plan), k);
      ClearOfPending(site, base, plan, k);
    }
  }

  /** A run of deletions that passed its checks has not gone past preferences that it may not delete. */
  lemma DeleteStops(site: Site, base: Files, plan: Journal, m: Moment, was: Files, k: nat, i: nat)
    requires OnTrack(site, base, plan, m, was) && m.Deleting? && k <= |plan.entries.value|
    requires DeletesPass(was, RepairedEntries(site, base, plan), k)
    requires i < |plan.entries.value| && PreferencesMoved(base, plan)
    requires plan.entries.value[i].source == plan.preferences.value.path
    ensures k <= i && m.k <= i
  {
    EarlierListed(plan.entries.value, i, m.k);
    if i < k {
      DeleteReaches(site, base, plan, m, was, i, DeleteTo(was, RepairedEntries(site, base, plan), i));
      DeletePasses(site, base, plan, if i > m.k then i else m.k, Pending(JournalAt(site, base, plan, m)), i);
      DeletePassed(was, RepairedEntries(site, base, plan), k, i);
    }
  }

  lemma {:induction false} DeletePassed(files: Files, entries: seq<Entry>, k: nat, i: nat)
    requires i < k <= |entries| && DeletesPass(files, entries, k)
    ensures !DeleteFails(DeleteTo(files, entries, i), entries[i])
  {
    if i < k - 1 {
      DeletePassed(files, entries, k - 1, i);
    }
  }

  /** A run of deletions on the chain stays on it, has got further when it removed anything, and does not
      move from a refused moment. */
  lemma DeleteAdvance(site: Site, base: Files, plan: Journal, m: Moment, was: Files, k: nat, after: Files)
    requires OnTrack(site, base, plan, m, was) && m.Deleting? && k <= |plan.entries.value|
    requires DeletesPass(was, RepairedEntries(site, base, plan), k)
    requires after == DeleteTo(was, RepairedEntries(site, base, plan), k)
    ensures OnTrack(site, base, plan, Deleting(if k > m.k then k else m.k), after)
    ensures |after| < |was| ==> k > m.k
    ensures Refused(site, base, plan, m) ==> k <= m.k
  {
    hide WellPlanned, DiskAt, RepairedEntries, DeletesPass, Reachable, Refused, DeleteTo;
    DeleteReaches(site, base, plan, m, was, k, after);
    DeleteReachable(site, base, plan, m, was, k);
  }

  lemma DeleteReachable(site: Site, base: Files, plan: Journal, m: Moment, was: Files, k: nat)
    requires OnTrack(site, base, plan, m, was) && m.Deleting? && k <= |plan.entries.value|
    requires DeletesPass(was, RepairedEntries(site, base, plan), k)
    ensures Reachable(site, base, plan, Deleting(if k > m.k then k else m.k))
    ensures Refused(site, base, plan, m) ==> k <= m.k
  {
    hide DiskAt, RepairedEntries, DeletesPass, DatabasesReadable, SourcesKept, IndexReadable, FixedOk, InPlaceOk;
    if PreferencesMoved(base, plan) {
      var i: nat :| i < |plan.entries.value| && plan.entries.value[i].source == plan.preferences.value.path;
      DeleteStops(site, base, plan, m, was, k, i);
      NotBefore(plan, i, if k > m.k then k else m.k);
      if Refused(site, base, plan, m) {
        DeleteStops(site, base, plan, m, was, k, m.k);
      }
    }
  }

  lemma NotBefore(plan: Journal, i: nat, k: nat)
    requires plan.entries.Some? && k <= i < |plan.entries.value|
    requires forall a, b :: 0 <= a < b < |plan.entries.value| ==>
               plan.entries.value[a].source != plan.entries.value[b].source
    ensures plan.entries.value[i].source !in Sources(plan.entries.value[..k])
  {
    forall e | e in plan.entries.value[..k] ensures e.source != plan.entries.value[i].source {
      var a :| 0 <= a < k && plan.entries.value[a] == e;
    }
  }

  lemma RefusedBeforeEnd(site: Site, base: Files, plan: Journal, m: Moment)
    requires plan.entries.Some? && m.Deleting? && Refused(site, base, plan, m)
    ensures m.k < |plan.entries.value|
  {
  }

  /** Deletes the sources of a committed move. */
  method CleanUp(disk: Storage, j: Journal, ghost base: Files, ghost plan: Journal, ghost m: Moment)
    returns (outcome: Outcome, ghost m': Moment)
    requires disk.site.Valid() && j.entries.Some?
    modifies disk
    ensures disk.power <= old(disk.power) && (outcome.PowerLost? ==> disk.power == 0)
    ensures Leaves(disk.site, j, old(disk.files), disk.files)
    ensures Leaves(disk.site, j, old(disk.files), disk.files - {disk.site.Pending()})
    ensures OnTrack(disk.site, base, plan, m, old(disk.files)) && m.Deleting?
            && j == JournalAt(disk.site, base, plan, m) ==>
              && m'.Deleting? && (outcome.Failed? ==> Refused(disk.site, base, plan, m'))
              && (Refused(disk.site, base, plan, m) ==> m' == m && !outcome.Done?)
              && OnTrack(disk.site, base, plan, m', disk.files)
              && (outcome.Done? ==> m'.k == |plan.entries.value|)
              && m'.k >= m.k && (old(disk.power) > disk.power ==> m'.k > m.k)
  {
    hide WellPlanned, Reachable, Refused, DiskAt, JournalAt, Keeps, Leaves;
    m' := m;
    ghost var was := disk.files;
    ghost var k;
    outcome, k := disk.DeleteSources(j.entries.value);
    ghost var after := disk.files;
    DeleteLeaves(disk.site, j, was, k);
    if OnTrack(disk.site, base, plan, m, was) && m.Deleting? && j == JournalAt(disk.site, base, plan, m) {
      JournalShows(disk.site, base, plan, m);
      DeleteAdvance(disk.site, base, plan, m, was, k, after);
      if outcome.Failed? {
        DeleteRefused(disk.site, base, plan, m, was, k, after);
      }
      if Refused(disk.site, base, plan, m) { RefusedBeforeEnd(disk.site, base, plan, m); }
      m' := Deleting(if k > m.k then k else m.k);
    }
  }

  method DeletePhase(disk: Storage, j: Journal, ghost base: Files, ghost plan: Journal, ghost m: Moment)
    returns (outcome: Outcome, ghost m': Moment)
    requires disk.site.Valid() && j.entries.Some?
    modifies disk
    ensures Leaves(disk.site, j, old(disk.files), disk.files)
    ensures OnTrack(disk.site, base, plan, m, old(disk.files)) && j == JournalAt(disk.site, base, plan, m)
            && j.committed && !m.Finished? ==>
              && Advanced(disk.site, base, plan, m, m', disk.files, outcome, old(disk.power))
              && (outcome.Done? ==> m' == Finished)
  {
    hide WellPlanned, Reachable, Refused, DiskAt, JournalAt, Keeps, Leaves;
    ghost var tracked := OnTrack(disk.site, base, plan, m, disk.files) && j == JournalAt(disk.site, base, plan, m)
      && j.committed && !m.Finished?;
    if tracked {
      JournalShows(disk.site, base, plan, m);
    }
    outcome, m' := CleanUp(disk, j, base, plan, m);
    if !outcome.Done? {
      return;
    }
    ghost var after := disk.files;
    outcome := disk.RemoveFile(disk.site.Pending());
    if outcome.Done? && tracked {
      DeleteFinished(disk.site, base, plan, after);
      m' := Finished;
    }
  }

  // ---- between the phases ----

  /** The config read when the run started is still there when it reaches the cutover. */
  lemma ConfigUntilCutover(site: Site, base: Files, plan: Journal, m: Moment, m': Moment, was: Files, files: Files)
    requires OnTrack(site, base, plan, m, was) && OnTrack(site, base, plan, m', files)
    requires m' == m || (StageOf(m) < 3 && StageOf(m') == 3 && StepOf(m') == 0)
    ensures site.config in was && site.config in files && files[site.config] == was[site.config]
  {
    FixedAt(site, base, plan, m);
    FixedAt(site, base, plan, m');
  }
}
