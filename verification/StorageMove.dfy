/** Queueing, cancelling and applying a storage move, and any number of crashed attempts at it. */
module StorageMove {
  import opened Wrappers
  import opened Paths
  import opened StorageTypes
  import opened Remapping
  import opened MoveSpec
  import opened MoveChain
  import opened MoveTrack
  import opened MoveJournal
  import opened MovePlan
  import opened MoveOutlook
  import opened StorageMachine
  import opened StorageApply

  /** How far a queued move has come: only queued, or planned and at some moment. */
  datatype Progress = Queued | Planned(plan: Journal, moment: Moment)

  /** The disk of a move queued as q on `base`, at this progress. */
  ghost predicate Holds(site: Site, base: Files, q: Journal, at: Progress, files: Files)
    requires site.Valid()
  {
    match at
    case Queued => files == base[site.Pending() := Pending(q)]
    case Planned(plan, m) =>
      && PlannedFrom(q, plan)
      && if JournalClear(site, q) then OnTrack(site, base, plan, m, files) else Stalled(site, base, plan, m, files)
  }

  /** The installation on which the move was queued is orderly, and names drawn for it are fresh. */
  ghost predicate Ready(site: Site, base: Files, q: Journal, uuids: nat -> string) {
    && site.Valid() && site.Pending() !in base && FreshQueue(q)
    && Orderly(site, base[site.Pending() := Pending(q)], q)
    && FreshUuids(site, base[site.Pending() := Pending(q)], uuids)
  }

  // ---- queueing and cancelling ----

  /** The journal that queueing this move on these files writes. */
  ghost predicate Schedules(site: Site, files: Files, report: Report, merge: bool, q: Journal)
    requires site.Valid()
  {
    && site.Pending() !in files && FreshQueue(q)
    && Accepted(site, files, report, merge)
    && q.preview == report && q.merge == merge
    && site.config in files && q.configBefore == files[site.config]
    && (q.preferences.Some? ==>
          && report.operation == MoveData && q.preferences.value.after.None?
          && q.preferences.value.path in files
          && q.preferences.value.before == files[q.preferences.value.path])
  }

  /** What queueing checks leaves little to assume of the preferences: unless they carry a media name or
      the name of a data lock, they do not lie in the destination, and they are not the journal. */
  lemma ScheduledPreferencesOutside(site: Site, files: Files, report: Report, merge: bool, q: Journal)
    requires site.Valid() && Schedules(site, files, report, merge, q) && q.preferences.Some?
    requires report.destination !in files
    requires var p := q.preferences.value.path; !site.Media(p) && Name(p) != DATA_LOCK
    ensures q.preferences.value.path != site.Pending() && !(report.destination <= q.preferences.value.path)
  {
    var p := q.preferences.value.path;
    var present := Present(site, files, report);
    var blockers := Blockers(site, files, report);
    assert p in present ==> p in blockers;
    assert p != report.destination;
    assert report.destination <= p ==> p in present;
  }

  /** The preferences that a move changes along: those at the path that the host gave, or at the usual place
      in the data directory, if a data move finds some there. */
  ghost function QueuedPreferences(files: Files, report: Report, given: Option<Path>): Option<DocumentChange> {
    var path := match given case Some(p) => p case None => report.source + ["charnel-config.toml"];
    if report.operation == MoveData && path in files then Some(DocumentChange(path, files[path], None)) else None
  }

  /** Queues a move: one new file, and only after the review accepted it. */
  method Schedule(disk: Storage, report: Report, merge: bool,
      preferences: Option<Path>) returns (outcome: Outcome, q: Option<Journal>)
    requires disk.site.Valid()
    modifies disk
    ensures outcome.Done? <==> q.Some?
    ensures outcome.Done? <==>
              && disk.site.Pending() !in old(disk.files) && disk.site.config in old(disk.files)
              && Accepted(disk.site, old(disk.files), report, merge) && old(disk.power) > 0
    ensures outcome.PowerLost? ==> old(disk.power) == 0
    ensures outcome.Done? ==>
              && Schedules(disk.site, old(disk.files), report, merge, q.value)
              && q.value.preferences == QueuedPreferences(old(disk.files), report, preferences)
              && disk.files == old(disk.files)[disk.site.Pending() := Pending(q.value)]
    ensures !outcome.Done? ==> disk.files == old(disk.files)
  {
    q := None;
    if disk.site.Pending() in disk.files {
      return Failed(DestinationUnsafe), q;
    }
    var review := Review(disk.site, disk.files, report);
    if review.None? {
      return Failed(PreviewRefused), q;
    }
    if review.value.blockers != {} {
      return Failed(DestinationUnsafe), q;
    }
    if review.value.collisions != {} && !merge {
      return Failed(NewCollisions), q;
    }
    if disk.site.config !in disk.files {
      return Failed(ConfigMissing), q;
    }
    var path := if preferences.Some? then preferences.value else report.source + ["charnel-config.toml"];
    var change := if report.operation == MoveData && path in disk.files
      then Some(DocumentChange(path, disk.files[path], None)) else None;
    var journal :=
      Journal(1, report, disk.files[disk.site.config], None, merge, None, false, false, false, false, change);
    outcome := disk.PersistNoClobber(disk.site.Pending(), Pending(journal));
    if outcome.Done? {
      q := Some(journal);
    }
  }

  /** Cancels a move that has no manifest yet; a started one must resume. */
  method Cancel(disk: Storage) returns (outcome: Outcome)
    requires disk.site.Valid()
    modifies disk
    ensures outcome.Failed? <==>
              !(&& disk.site.Pending() in old(disk.files) && old(disk.files)[disk.site.Pending()].Pending?
                && old(disk.files)[disk.site.Pending()].journal.entries.None?
                && !old(disk.files)[disk.site.Pending()].journal.committed)
    ensures outcome.Done? ==> disk.files == old(disk.files) - {disk.site.Pending()}
    ensures !outcome.Done? ==> disk.files == old(disk.files)
    ensures outcome.PowerLost? ==> old(disk.power) == 0
  {
    if disk.site.Pending() !in disk.files || !disk.files[disk.site.Pending()].Pending? {
      return Failed(JournalMissing);
    }
    var journal := disk.files[disk.site.Pending()].journal;
    if journal.entries.Some? || journal.committed {
      return Failed(ManifestMissing);
    }
    outcome := disk.RemoveFile(disk.site.Pending());
  }

  // ---- planning ----

  /** Reviews the move once more and saves the manifest; nothing else is written. */
  method PlanPhase(disk: Storage, q: Journal, uuids: nat -> string) returns (outcome: Outcome, plan: Journal)
    requires disk.site.Valid() && q.entries.None?
    modifies disk
    ensures outcome.Done? ==>
              && PlannedFrom(q, plan) && Accepted(disk.site, old(disk.files), q.preview, q.merge)
              && Manifest(disk.site, old(disk.files), q.preview, uuids, plan.entries.value)
              && disk.files == old(disk.files)[disk.site.Pending() := Pending(plan)]
    ensures !outcome.Done? ==> disk.files == old(disk.files)
    ensures outcome.Failed? <==> !Accepted(disk.site, old(disk.files), q.preview, q.merge) || !q.configBefore.Document?
                                 || (q.preferences.Some? && !q.preferences.value.before.Document?)
    ensures outcome != Failed(FileCollision)
    ensures outcome.PowerLost? ==> old(disk.power) == 0
  {
    plan := q;
    var review := Review(disk.site, disk.files, q.preview);
    if review.None? {
      return Failed(PreviewRefused), plan;
    }
    if review.value.blockers != {} {
      return Failed(DestinationUnsafe), plan;
    }
    if review.value.collisions != {} && !q.merge {
      return Failed(NewCollisions), plan;
    }
    AcceptedNeverCollides(disk.site, disk.files, q.preview, q.merge);
    var entries := PlanEntries(disk.site, disk.files, q.preview, q.merge, uuids);
    if entries.None? {
      return Failed(FileCollision), plan;
    }
    if !q.configBefore.Document? {
      return Failed(ConfigMissing), plan;
    }
    var change := q.preferences;
    if change.Some? {
      if !change.value.before.Document? {
        return Failed(PreferencesMissing), plan;
      }
      change := Some(change.value.(after :=
        Some(Document(PreferencesAfter(change.value.before.doc, q.preview, entries.value)))));
    }
    plan := q.(entries := entries, preferences := change,
      configAfter := Some(Document(ConfigAfter(q.configBefore.doc, q.preview, entries.value))));
    outcome := Save(disk, plan);
  }

  /** A saved manifest on a ready disk is the first moment of a planned move. */
  lemma PlanStarts(site: Site, base: Files, q: Journal, uuids: nat -> string, plan: Journal)
    requires Ready(site, base, q, uuids) && plan.entries.Some? && PlannedFrom(q, plan)
    requires var files := base[site.Pending() := Pending(q)];
             Plannable(site, files, q) && Manifest(site, files, q.preview, uuids, plan.entries.value)
    ensures Holds(site, base, q, Planned(plan, Copying(0)),
                  base[site.Pending() := Pending(q)][site.Pending() := Pending(plan)])
  {
    hide Orderly, Plannable, Manifest, FreshUuids, WellPlanned, PlannedFrom, Stalled;
    var files := base[site.Pending() := Pending(q)];
    assert files - {site.Pending()} == base;
    if JournalClear(site, q) {
      PlanIsWell(site, files, q, uuids, plan);
    } else {
      PlanStalls(site, files, q, uuids, plan);
    }
  }

  // ---- applying ----

  lemma CopiedLater(m: Moment, m': Moment)
    ensures StageOf(m) == 0 && m'.Rewriting? ==> Later(m', m)
  {
  }

  /** Copies and stored paths. */
  method CopyAndPoint(disk: Storage, j: Journal, ghost base: Files, ghost plan: Journal, ghost m: Moment)
    returns (outcome: Outcome, j': Journal, ghost m': Moment)
    requires disk.site.Valid() && j.entries.Some?
    modifies disk
    ensures j'.entries.Some? && SameMoves(j.entries.value, j'.entries.value)
    ensures j'.preview == j.preview && j'.preferences == j.preferences
    ensures Keeps(disk.site, j, old(disk.files), disk.files)
    ensures OnTrack(disk.site, base, plan, m, old(disk.files)) && !m.Finished?
            && j == JournalAt(disk.site, base, plan, m) ==>
              && Advanced(disk.site, base, plan, m, m', disk.files, outcome, old(disk.power))
              && (outcome.Done? ==>
                    && j' == JournalAt(disk.site, base, plan, m') && j'.pathsUpdated
                    && if j.pathsUpdated then m' == m && disk.power == old(disk.power) else m' == Referencing(false))
    ensures Stalled(disk.site, base, plan, m, old(disk.files)) && j == plan ==>
              Stopped(disk.site, base, plan, m, m', disk.files, outcome.Done?, outcome.PowerLost?, old(disk.power))
  {
    hide WellPlanned, Reachable, Refused, DiskAt, JournalAt, Keeps, Leaves, Stalled, Advanced, Stopped, SameMoves,
      Later, NotEarlier;
    MovesSelf(j.entries.value);
    ghost var tracked := OnTrack(disk.site, base, plan, m, disk.files) && !m.Finished?
      && j == JournalAt(disk.site, base, plan, m);
    ghost var stalled := Stalled(disk.site, base, plan, m, disk.files) && j == plan;
    ghost var was, power := disk.files, disk.power;
    if tracked { JournalFlags(disk.site, base, plan, m); }
    outcome, j', m' := CopyPhase(disk, j, base, plan, m);
    if stalled {
      StoppedShort(disk.site, base, plan, m, m', disk.files, outcome.Done?, outcome.PowerLost?, power);
    }
    if !outcome.Done? {
      return;
    }
    ghost var copied, j1, m1, left := disk.files, j', m', disk.power;
    if tracked {
      AdvancedOn(disk.site, base, plan, m, m', disk.files, outcome, power);
      JournalFlags(disk.site, base, plan, m');
    }
    outcome, j', m' := PathsPhase(disk, j', base, plan, m');
    KeepsThen(disk.site, j, j1, was, copied, disk.files);
    if tracked {
      CopiedLater(m, m1);
      AdvancedThen(disk.site, base, plan, m, m1, m', copied, disk.files, outcome, power, left);
      AdvancedOn(disk.site, base, plan, m, m', disk.files, outcome, power);
    }
    if !outcome.Done? {
      return outcome, j, m';
    }
    if tracked { JournalFlags(disk.site, base, plan, m'); }
  }

  /** Everything before the cutover: copies, stored paths, references. */
  method Prepare(disk: Storage, j: Journal, ghost base: Files, ghost plan: Journal, ghost m: Moment)
    returns (outcome: Outcome, j': Journal, ghost m': Moment)
    requires disk.site.Valid() && j.entries.Some?
    modifies disk
    ensures j'.entries.Some? && SameMoves(j.entries.value, j'.entries.value)
    ensures j'.preview == j.preview && j'.preferences == j.preferences
    ensures Keeps(disk.site, j, old(disk.files), disk.files)
    ensures OnTrack(disk.site, base, plan, m, old(disk.files)) && !m.Finished?
            && j == JournalAt(disk.site, base, plan, m) ==>
              && Advanced(disk.site, base, plan, m, m', disk.files, outcome, old(disk.power))
              && (outcome.Done? ==>
                    && j' == JournalAt(disk.site, base, plan, m') && j'.referencesUpdated
                    && if j.referencesUpdated then m' == m && disk.power == old(disk.power) else m' == Committing(0))
    ensures Stalled(disk.site, base, plan, m, old(disk.files)) && j == plan ==>
              Stopped(disk.site, base, plan, m, m', disk.files, outcome.Done?, outcome.PowerLost?, old(disk.power))
  {
    hide WellPlanned, Reachable, Refused, DiskAt, JournalAt, Keeps, Leaves, Stalled, Advanced, Stopped;
    ghost var tracked := OnTrack(disk.site, base, plan, m, disk.files) && !m.Finished?
      && j == JournalAt(disk.site, base, plan, m);
    ghost var stalled := Stalled(disk.site, base, plan, m, disk.files) && j == plan;
    ghost var was, power := disk.files, disk.power;
    if tracked { JournalFlags(disk.site, base, plan, m); }
    outcome, j', m' := CopyAndPoint(disk, j, base, plan, m);
    if stalled {
      StoppedShort(disk.site, base, plan, m, m', disk.files, outcome.Done?, outcome.PowerLost?, power);
    }
    if !outcome.Done? {
      return;
    }
    ghost var pointed, j2, m2, left := disk.files, j', m', disk.power;
    if tracked {
      AdvancedOn(disk.site, base, plan, m, m', disk.files, outcome, power);
      JournalFlags(disk.site, base, plan, m');
    }
    outcome, j', m' := ReferencesPhase(disk, j', base, plan, m');
    KeepsThen(disk.site, j, j2, was, pointed, disk.files);
    if tracked {
      AdvancedThen(disk.site, base, plan, m, m2, m', pointed, disk.files, outcome, power, left);
      AdvancedOn(disk.site, base, plan, m, m', disk.files, outcome, power);
    }
    if !outcome.Done? {
      return outcome, j, m';
    }
    if tracked { JournalFlags(disk.site, base, plan, m'); }
  }

  /** The phases after planning, in order. */
  method ApplyPlanned(disk: Storage, j: Journal, current: Content, ghost base: Files, ghost plan: Journal,
      ghost m: Moment)
    returns (outcome: Outcome, ghost m': Moment)
    requires disk.site.Valid() && j.entries.Some?
    modifies disk
    ensures Leaves(disk.site, j, old(disk.files), disk.files)
    ensures && OnTrack(disk.site, base, plan, m, old(disk.files)) && !m.Finished?
            && j == JournalAt(disk.site, base, plan, m)
            && disk.site.config in old(disk.files) && current == old(disk.files)[disk.site.config] ==>
              && Advanced(disk.site, base, plan, m, m', disk.files, outcome, old(disk.power))
              && (outcome.Done? ==> m' == Finished)
    ensures Stalled(disk.site, base, plan, m, old(disk.files)) && j == plan ==>
              Stopped(disk.site, base, plan, m, m', disk.files, outcome.Done?, outcome.PowerLost?, old(disk.power))
  {
    hide WellPlanned, Reachable, Refused, DiskAt, JournalAt, Keeps, Leaves, Stalled, Advanced, Stopped;
    ghost var tracked := OnTrack(disk.site, base, plan, m, disk.files) && !m.Finished?
      && j == JournalAt(disk.site, base, plan, m)
      && disk.site.config in disk.files && current == disk.files[disk.site.config];
    ghost var stalled := Stalled(disk.site, base, plan, m, disk.files) && j == plan;
    ghost var was, power := disk.files, disk.power;
    if tracked { JournalFlags(disk.site, base, plan, m); }
    var ready;
    outcome, ready, m' := Prepare(disk, j, base, plan, m);
    if stalled {
      StoppedShort(disk.site, base, plan, m, m', disk.files, outcome.Done?, outcome.PowerLost?, power);
    }
    if !outcome.Done? {
      KeepsLeaves(disk.site, j, was, disk.files);
      return;
    }
    ghost var prepared, m3, left := disk.files, m', disk.power;
    if tracked {
      AdvancedOn(disk.site, base, plan, m, m', disk.files, outcome, power);
      JournalFlags(disk.site, base, plan, m');
      ConfigUntilCutover(disk.site, base, plan, m, m', was, disk.files);
    }
    var committed;
    outcome, committed, m' := CommitPhase(disk, ready, current, base, plan, m');
    KeepsThen(disk.site, j, ready, was, prepared, disk.files);
    if tracked {
      AdvancedThen(disk.site, base, plan, m, m3, m', prepared, disk.files, outcome, power, left);
      AdvancedOn(disk.site, base, plan, m, m', disk.files, outcome, power);
    }
    if !outcome.Done? {
      KeepsLeaves(disk.site, j, was, disk.files);
      return;
    }
    if tracked { JournalFlags(disk.site, base, plan, m'); }
    ghost var cut, m4 := disk.files, m';
    left := disk.power;
    outcome, m' := DeletePhase(disk, committed, base, plan, m');
    KeepsThen(disk.site, j, committed, was, cut, disk.files);
    if tracked {
      AdvancedThen(disk.site, base, plan, m, m4, m', cut, disk.files, outcome, power, left);
    }
  }

  // ---- one start of the application ----

  /** This progress is strictly further than that. */
  ghost predicate Further(at: Progress, than: Progress) {
    match (at, than)
    case (Planned(_, _), Queued) => true
    case (Planned(_, m), Planned(_, n)) => Later(m, n)
    case _ => false
  }

  /** What one start may leave of a move at this progress: the same move at the same point or later,
      and progress unless the power ends within three writes. It is refused exactly where planning is or,
      once it is planned, at a moment where the planned move always is. */
  ghost predicate StartLeaves(site: Site, base: Files, q: Journal, at: Progress, before: Files, power: nat,
                              outcome: Outcome, at': Progress, after: Files)
    requires site.Valid()
  {
    && Holds(site, base, q, at', after)
    && (at.Planned? ==> at'.Planned? && at'.plan == at.plan && NotEarlier(at'.moment, at.moment))
    && (at.Queued? && at'.Planned? ==> Plannable(site, before, q))
    && (outcome.Failed? && at'.Queued? ==> !Plannable(site, before, q))
    && (at.Planned? && at.plan.entries.Some? && JournalClear(site, q) && Refused(site, base, at.plan, at.moment) ==>
          at' == at)
    && (outcome.Failed? && at'.Planned? && JournalClear(site, q) ==>
          at'.plan.entries.Some? && Refused(site, base, at'.plan, at'.moment))
    && (outcome.Done? ==> at'.Planned? && at'.moment == Finished)
    && (!outcome.Done? && at'.Planned? ==> !at'.moment.Finished?)
    && (outcome.PowerLost? && power >= 3 ==> Further(at', at))
  }

  /** What a run reads first on the chain: the journal of the moment, and a config that is one of the
      two the journal knows. */
  lemma RunReads(site: Site, base: Files, plan: Journal, m: Moment, files: Files)
    requires OnTrack(site, base, plan, m, files) && !m.Finished?
    ensures var j := JournalAt(site, base, plan, m);
            && site.Pending() in files && files[site.Pending()] == Pending(j)
            && j.version == 1 && j.entries.Some?
            && site.config in files
            && (files[site.config] == j.configBefore || j.configAfter == Some(files[site.config]))
  {
    FixedAt(site, base, plan, m);
  }

  lemma QueueReads(site: Site, base: Files, q: Journal, uuids: nat -> string)
    requires Ready(site, base, q, uuids)
    ensures FreshQueue(q)
  {
  }

  /** What a start reads of a planned move, whether it is on its way or stalled. */
  lemma PlannedReads(site: Site, base: Files, q: Journal, plan: Journal, m: Moment, files: Files)
    requires site.Valid() && Holds(site, base, q, Planned(plan, m), files) && !m.Finished?
    ensures plan.entries.Some? && site.Pending() in files && files[site.Pending()].Pending? && site.config in files
    ensures var j, current := files[site.Pending()].journal, files[site.config];
            && j.version == 1 && j.entries.Some? && (current == j.configBefore || j.configAfter == Some(current))
            && j == if JournalClear(site, q) then JournalAt(site, base, plan, m) else plan
  {
    if JournalClear(site, q) {
      RunReads(site, base, plan, m, files);
    } else {
      StalledReads(site, base, plan, m, files);
    }
  }

  /** What a run of the phases leaves is what a start may leave. */
  lemma PhasesLeave(site: Site, base: Files, q: Journal, plan: Journal, m: Moment, m': Moment, after: Files,
      outcome: Outcome, before: Files, power: nat)
    requires site.Valid() && PlannedFrom(q, plan)
    requires if JournalClear(site, q)
             then Advanced(site, base, plan, m, m', after, outcome, power) && (outcome.Done? ==> m' == Finished)
             else Stopped(site, base, plan, m, m', after, outcome.Done?, outcome.PowerLost?, power)
    ensures StartLeaves(site, base, q, Planned(plan, m), before, power, outcome, Planned(plan, m'), after)
  {
    hide WellPlanned, Reachable, DiskAt, PlannedFrom, StalledBefore;
  }

  lemma PlanReads(site: Site, base: Files, q: Journal, plan: Journal, files: Files)
    requires site.Valid() && Holds(site, base, q, Planned(plan, Copying(0)), files)
    ensures plan.entries.Some? && JournalAt(site, base, plan, Copying(0)) == plan
    ensures site.config in files && files[site.config] == plan.configBefore
  {
    if JournalClear(site, q) {
      FixedAt(site, base, plan, Copying(0));
    } else {
      StalledReads(site, base, plan, Copying(0), files);
    }
  }

  lemma PlanningGuarded(site: Site, was: Files, plan: Journal)
    requires site.Valid() && plan.entries.Some?
    ensures Guarded(was, was[site.Pending() := Pending(plan)], Free(site, plan), plan.entries.value)
    ensures Guarded(was, was, Free(site, plan), plan.entries.value)
  {
  }

  /** A run that begins with the journal j on disk leaves a started journal or none. */
  lemma RunLeaves(site: Site, j: Journal, was: Files, planned: Files, now: Files)
    requires site.Valid() && j.entries.Some? && Leaves(site, j, planned, now)
    requires site.Pending() in planned && planned[site.Pending()] == Pending(j)
    requires Guarded(was, planned, Free(site, j), j.entries.value)
    ensures Guarded(was, now, Free(site, j), j.entries.value)
    ensures Tame(site, j) ==> site.Pending() !in now || Journaled(site, now)
  {
    GuardedCompose(was, planned, now, Free(site, j), j.entries.value, j.entries.value);
  }

  /** What every start refuses at once: no journal, one of another version, or a config that is neither the
      one that was queued nor the one that is being switched to. */
  ghost predicate NotApplicable(site: Site, files: Files)
    requires site.Valid()
  {
    || site.Pending() !in files || !files[site.Pending()].Pending?
    || files[site.Pending()].journal.version != 1
    || site.config !in files
    || (files[site.config] != files[site.Pending()].journal.configBefore
        && Some(files[site.config]) != files[site.Pending()].journal.configAfter)
  }

  /** Applies the pending move: plans it if it is only queued, then runs the phases. */
  method Apply(disk: Storage, uuids: nat -> string, ghost base: Files, ghost q: Journal, ghost at: Progress)
    returns (outcome: Outcome, ghost at': Progress, ghost acted: Option<Journal>)
    requires disk.site.Valid()
    modifies disk
    ensures acted.None? ==> disk.files == old(disk.files) && !outcome.Done?
    ensures NotApplicable(disk.site, old(disk.files)) ==> outcome.Failed? && disk.files == old(disk.files)
    ensures acted.Some? ==>
              && acted.value.entries.Some?
              && Guarded(old(disk.files), disk.files, Free(disk.site, acted.value), acted.value.entries.value)
              && disk.site.Pending() in old(disk.files) && old(disk.files)[disk.site.Pending()].Pending?
              && (Tame(disk.site, old(disk.files)[disk.site.Pending()].journal) ==>
                    disk.site.Pending() !in disk.files || Journaled(disk.site, disk.files))
    ensures Ready(disk.site, base, q, uuids) && Holds(disk.site, base, q, at, old(disk.files))
            && (at.Planned? ==> !at.moment.Finished?) ==>
              StartLeaves(disk.site, base, q, at, old(disk.files), old(disk.power), outcome, at', disk.files)
  {
    hide WellPlanned, DiskAt, JournalAt, Guarded, Free, Orderly, FreshUuids, Accepted, Manifest, Ready, Leaves, Stalled,
      Reachable, Refused, Advanced, Stopped, JournalClear, OnTrack;
    at', acted := at, None;
    ghost var was, power := disk.files, disk.power;
    ghost var tracked := Ready(disk.site, base, q, uuids) && Holds(disk.site, base, q, at, was)
      && (at.Planned? ==> !at.moment.Finished?);
    if tracked {
      if at.Planned? {
        PlannedReads(disk.site, base, q, at.plan, at.moment, was);
      } else {
        QueueReads(disk.site, base, q, uuids);
      }
    }
    var pending := disk.site.Pending();
    if pending !in disk.files || !disk.files[pending].Pending? {
      return Failed(JournalMissing), at', acted;
    }
    var j := disk.files[pending].journal;
    if j.version != 1 {
      return Failed(UnsupportedVersion), at', acted;
    }
    if disk.site.config !in disk.files {
      return Failed(ConfigMissing), at', acted;
    }
    var current := disk.files[disk.site.config];
    if current != j.configBefore && j.configAfter != Some(current) {
      return Failed(ConfigChanged), at', acted;
    }
    if j.entries.None? {
      outcome, j := PlanPhase(disk, j, uuids);
      if !outcome.Done? {
        return;
      }
      at' := Planned(j, Copying(0));
      if tracked {
        PlanStarts(disk.site, base, q, uuids, j);
        PlanReads(disk.site, base, q, j, disk.files);
      }
    }
    PlanningGuarded(disk.site, was, j);
    acted := Some(j);
    ghost var planned := disk.files;
    ghost var plan := if at'.Planned? then at'.plan else j;
    ghost var start := if at'.Planned? then at'.moment else Copying(0);
    ghost var left := disk.power;
    ghost var m;
    outcome, m := ApplyPlanned(disk, j, current, base, plan, start);
    RunLeaves(disk.site, j, was, planned, disk.files);
    at' := Planned(plan, m);
    if tracked {
      PhasesLeave(disk.site, base, q, plan, start, m, disk.files, outcome, was, left);
    }
  }

  // ---- any number of starts ----

  /** A counter that every step of a planned move of n files raises. */
  function Rank(n: nat, m: Moment): nat {
    match m
    case Copying(k) => k
    case Rewriting(k) => n + 1 + k
    case Referencing(repaired) => n + 4 + if repaired then 1 else 0
    case Committing(step) => n + 6 + step
    case Deleting(k) => n + 10 + k
    case Finished => 2 * n + 11
  }

  lemma RankGrows(site: Site, plan: Journal, m: Moment, m': Moment)
    requires plan.entries.Some? && ValidMoment(site, plan, m) && ValidMoment(site, plan, m') && Later(m', m)
    ensures Rank(|plan.entries.value|, m) < Rank(|plan.entries.value|, m') <= 2 * |plan.entries.value| + 11
  {
  }

  lemma RankBound(site: Site, plan: Journal, m: Moment)
    requires plan.entries.Some? && ValidMoment(site, plan, m)
    ensures Rank(|plan.entries.value|, m) <= 2 * |plan.entries.value| + 11
  {
  }

  /** A planned move is always at a moment that exists, and its end shows that nothing could stop it. */
  lemma HoldsMeans(site: Site, base: Files, q: Journal, plan: Journal, m: Moment, files: Files)
    requires site.Valid() && Holds(site, base, q, Planned(plan, m), files)
    ensures plan.entries.Some? && ValidMoment(site, plan, m)
    ensures m.Finished? ==> Ends(site, base, q, plan)
  {
    hide WellPlanned, DiskAt, StalledBefore;
    if !JournalClear(site, q) {
      var i: nat :| StalledBefore(site, base, plan, m.k, i, files);
      StallWithin(site, base, plan, m.k, i, files);
    }
  }

  /** A start of a move that nothing stops is never refused, and raises the rank when it survives three
      writes. */
  lemma StartRanks(site: Site, base: Files, q: Journal, at: Progress, before: Files, power: nat,
      outcome: Outcome, at': Progress, after: Files)
    requires site.Valid() && Holds(site, base, q, at, before)
    requires StartLeaves(site, base, q, at, before, power, outcome, at', after) && at'.Planned?
    ensures at'.plan.entries.Some?
    ensures outcome.Failed? ==> !Ends(site, base, q, at'.plan)
    ensures at.Planned? && outcome.PowerLost? && power >= 3 ==>
              && at'.plan == at.plan
              && Rank(|at.plan.entries.value|, at.moment) < Rank(|at'.plan.entries.value|, at'.moment)
  {
    hide WellPlanned, DiskAt, Stalled, OnTrack, Reachable, Refused, Finishable, Rank, PlannedFrom;
    HoldsMeans(site, base, q, at'.plan, at'.moment, after);
    if JournalClear(site, q) && outcome.Failed? {
      RefusedNeverEnds(site, base, at'.plan, at'.moment);
    }
    if at.Planned? {
      HoldsMeans(site, base, q, at.plan, at.moment, before);
      if outcome.PowerLost? && power >= 3 {
        RankGrows(site, at.plan, at.moment, at'.moment);
      }
    }
  }

  /** A move that was refused stays where it is: every further start changes nothing and, when it survives
      three writes, ends with an error again. */
  lemma RefusedForGood(site: Site, base: Files, q: Journal, plan: Journal, m: Moment, before: Files, power: nat,
      outcome: Outcome, at': Progress, after: Files)
    requires site.Valid() && JournalClear(site, q) && Holds(site, base, q, Planned(plan, m), before)
    requires plan.entries.Some? && Refused(site, base, plan, m)
    requires StartLeaves(site, base, q, Planned(plan, m), before, power, outcome, at', after)
    ensures at' == Planned(plan, m) && after == before && !outcome.Done?
    ensures power >= 3 ==> outcome.Failed?
  {
    hide WellPlanned, DiskAt, Reachable, PlannedFrom, JournalClear, DatabasesReadable, SourcesKept, IndexReadable;
  }

  /** Starts the application over and over, whether a start is cut off or stops with an error, until the
      move is done; the power of the i-th start lasts for powers[i] writes. Wherever the starts end, the
      disk stays at a moment of one planned move. Starts that survive three writes plan the move if and
      only if it can be planned, and enough of them finish it if and only if nothing stops it. */
  method MoveThroughCrashes(disk: Storage, uuids: nat -> string, powers: seq<nat>, ghost base: Files, ghost q: Journal)
    returns (outcome: Outcome, ghost at: Progress)
    requires Ready(disk.site, base, q, uuids)
    requires disk.files == base[disk.site.Pending() := Pending(q)]
    modifies disk
    ensures Holds(disk.site, base, q, at, disk.files)
    ensures at.Planned? ==> at.plan.entries.Some? && Plannable(disk.site, old(disk.files), q)
    ensures outcome.Done? <==> at.Planned? && at.moment == Finished
    ensures outcome.Done? ==> Ends(disk.site, base, q, at.plan)
    ensures outcome.Failed? ==>
              if at.Queued? then !Plannable(disk.site, old(disk.files), q)
              else !Ends(disk.site, base, q, at.plan)
    ensures (forall p :: p in powers ==> p >= 3) && |powers| > 0 ==>
              (at.Planned? <==> Plannable(disk.site, old(disk.files), q))
    ensures (forall p :: p in powers ==> p >= 3) && at.Planned? && |powers| > 2 * |at.plan.entries.value| + 12 ==>
              (outcome.Done? <==> Ends(disk.site, base, q, at.plan))
  {
    hide WellPlanned, DiskAt, JournalAt, Orderly, FreshUuids, Plannable, Guarded, Free, PlannedFrom, Reachable, Refused,
      Stalled, Ends, OnTrack, Rank;
    at, outcome := Queued, PowerLost;
    ghost var queued := disk.files;
    ghost var lasting := forall p :: p in powers ==> p >= 3;
    for i := 0 to |powers|
      invariant disk.site.Valid() && Holds(disk.site, base, q, at, disk.files) && !outcome.Done?
      invariant at.Queued? ==> disk.files == queued
      invariant at.Planned? ==>
                at.plan.entries.Some? && !at.moment.Finished? && Plannable(disk.site, queued, q)
      invariant outcome.Failed? ==> if at.Queued? then !Plannable(disk.site, queued, q)
                                    else !Ends(disk.site, base, q, at.plan)
      invariant lasting && i > 0 ==> (at.Planned? <==> Plannable(disk.site, queued, q))
      invariant lasting && at.Planned? && Ends(disk.site, base, q, at.plan) ==>
                  Rank(|at.plan.entries.value|, at.moment) + 1 >= i
    {
      assert powers[i] in powers;
      disk.power := powers[i];
      ghost var was, before := at, disk.files;
      ghost var acted;
      outcome, at, acted := Apply(disk, uuids, base, q, at);
      if at.Planned? {
        HoldsMeans(disk.site, base, q, at.plan, at.moment, disk.files);
        StartRanks(disk.site, base, q, was, before, powers[i], outcome, at, disk.files);
      }
      if outcome.Done? {
        return;
      }
    }
    if at.Planned? {
      HoldsMeans(disk.site, base, q, at.plan, at.moment, disk.files);
      RankBound(disk.site, at.plan, at.moment);
    }
  }

  /** Queueing a move and cancelling it, with any number of starts in between that are cut off or
      refused: when the cancellation succeeds, every file is as it was. */
  method QueueThenCancel(disk: Storage, report: Report, merge: bool, preferences: Option<Path>,
      uuids: nat -> string, powers: seq<nat>)
    returns (cancelled: bool)
    requires disk.site.Valid()
    modifies disk
    ensures cancelled ==> disk.files == old(disk.files)
  {
    hide Accepted, Guarded, Free, Ready, Holds;
    var outcome, q := Schedule(disk, report, merge, preferences);
    if !outcome.Done? {
      return false;
    }
    ghost var base := old(disk.files);
    ghost var queued := disk.files;
    for i := 0 to |powers|
      invariant disk.site.Valid()
      invariant disk.files == queued || disk.site.Pending() !in disk.files || Journaled(disk.site, disk.files)
    {
      disk.power := powers[i];
      ghost var at, acted;
      outcome, at, acted := Apply(disk, uuids, base, q.value, Queued);
    }
    outcome := Cancel(disk);
    cancelled := outcome.Done?;
    if cancelled {
      assert base[disk.site.Pending() := Pending(q.value)] - {disk.site.Pending()} == base;
    }
  }
}
