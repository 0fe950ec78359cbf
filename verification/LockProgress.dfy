/** What the lock protocol lets a process get done: with nobody in its way it queues, cancels, migrates and
    leases; otherwise it is refused and leaves nothing behind.
    Models `lock`, `prepare_startup`, and the locking of `schedule` and `cancel`, of
    grimoire/src/storage_migration.rs. */
module LockProgress {
  import opened StorageLocks

  /** Nobody holds a lock on this file. */
  ghost predicate Unlocked(s: System, file: LockFile) {
    forall l :: l in s.locks ==> l.file != file
  }

  lemma UnlockedIsGranted(s: System, file: LockFile)
    ensures Unlocked(s, file) <==> Granted(s.locks, file, true)
    ensures Unlocked(s, file) ==> Granted(s.locks, file, false)
  {
  }

  // ---- refused ----

  /** A process that ends, or that is refused the queue lock, a data lock or its lease, is gone with all its
      locks, and has changed no config and no journal. */
  lemma RefusedIsGone(s: System, a: Action)
    requires Accounted(s) && Actor(a).Some?
    requires var stage := StageOf(s, a.pid);
             || a.Exit?
             || (a.TakeQueue? && stage.Starting? && !Unlocked(s, Queue(stage.config)))
             || (a.LockRoot? && stage.Locking? && stage.k < |Roots(stage.journal)|
                 && !Unlocked(s, Data(Roots(stage.journal)[stage.k])))
             || (a.TakeLease? && stage.Leasing? && exists l :: l in s.locks && l.file == Data(stage.dir) && l.exclusive)
    ensures var t := Do(s, a);
            && StageOf(t, a.pid) == Exited && t.configs == s.configs && t.journals == s.journals
            && forall l :: l in t.locks <==> l in s.locks && l.pid != a.pid
  {
    hide Roots;
    var t := Do(s, a);
    HeldIsOwn(a.pid, StageOf(s, a.pid));
    assert t.locks == s.locks - Held(a.pid, StageOf(s, a.pid)) + {};
    forall l ensures l in t.locks <==> l in s.locks && l.pid != a.pid {
      assert l in s.locks <==> l in Held(l.pid, StageOf(s, l.pid));
    }
  }

  /** A config that somebody has edited in the meantime is not switched, and the journal stays. */
  lemma EditedIsNotSwitched(s: System, pid: Pid)
    requires Accounted(s) && StageOf(s, pid).Applying?
    requires var c, j := StageOf(s, pid).config, StageOf(s, pid).journal;
             c in s.configs ==> s.configs[c] != j.before && s.configs[c] != if j.fetch then j.before else j.destination
    ensures var t := Do(s, Cutover(pid));
            StageOf(t, pid) == Exited && t.configs == s.configs && t.journals == s.journals
  {
  }

  // ---- queueing ----

  /** Two systems are the same to everybody in them. */
  ghost predicate Alike(s: System, t: System) {
    && s.configs == t.configs && s.journals == t.journals && s.locks == t.locks
    && forall pid :: StageOf(s, pid) == StageOf(t, pid)
  }

  /** A process without a lease, or a running one, that finds the queue of its config unlocked takes it,
      queues a move and gives the queue back: the journal is all that has changed. Cancelling it before
      that undoes even this. */
  lemma QueueAndCancel(s: System, pid: Pid, c: Config, source: Dir, destination: Dir, fetch: bool)
    requires Accounted(s) && Unlocked(s, Queue(c)) && c in s.configs && c !in s.journals && source != destination
    requires fetch || source == s.configs[c]
    requires var stage := StageOf(s, pid); stage.Exited? || (stage.Running? && stage.config == c && !stage.queueing)
    ensures var queued := Do(Do(s, TakeQueueToChange(pid, c)), Schedule(pid, source, destination, fetch));
            && Alike(Do(queued, ReleaseQueue(pid)),
                     s.(journals := s.journals[c := Journal(s.configs[c], source, destination, fetch)]))
            && Alike(Do(Do(queued, Cancel(pid)), ReleaseQueue(pid)), s)
  {
    hide Held, Do, Accounted, Unlocked;
    var stage, journal := StageOf(s, pid), Journal(s.configs[c], source, destination, fetch);
    var queueing := if stage.Running? then stage.(queueing := true) else Queueing(c);
    var held := {Lock(pid, Queue(c), true)};
    HeldNow(s, pid);
    QueueHeld(pid, stage, c);
    NotYetHeld(s, c, pid);
    var taken := s.(stages := s.stages[pid := queueing], locks := s.locks + held);
    QueueTaken(s, pid, c, queueing, held);
    var queued := taken.(journals := s.journals[c := journal]);
    MoveQueued(taken, pid, c, source, destination, fetch);
    assert s.journals[c := journal] - {c} == s.journals;
    QueueReturned(queued, pid, c, stage, s.locks, held);
    QueueReturned(queued.(journals := s.journals), pid, c, stage, s.locks, held);
  }

  lemma QueueTaken(s: System, pid: Pid, c: Config, queueing: Stage, held: set<Lock>)
    requires Unlocked(s, Queue(c)) && Held(pid, StageOf(s, pid)) <= s.locks
    requires Held(pid, queueing) == Held(pid, StageOf(s, pid)) + held
    requires var stage := StageOf(s, pid);
             if stage.Running? then stage.config == c && queueing == stage.(queueing := true)
             else stage.Exited? && queueing == Queueing(c)
    ensures Do(s, TakeQueueToChange(pid, c)) == s.(stages := s.stages[pid := queueing], locks := s.locks + held)
  {
    hide Held, Move;
    UnlockedIsGranted(s, Queue(c));
    MoreLocks(s, pid, queueing, held);
  }

  lemma MoveQueued(s: System, pid: Pid, c: Config, source: Dir, destination: Dir, fetch: bool)
    requires ChangesQueue(StageOf(s, pid)) && StageOf(s, pid).config == c && c in s.configs && c !in s.journals
    requires source != destination && (fetch || source == s.configs[c])
    ensures var queued := s.(journals := s.journals[c := Journal(s.configs[c], source, destination, fetch)]);
            && Do(s, Schedule(pid, source, destination, fetch)) == queued
            && Do(queued, Cancel(pid)) == queued.(journals := queued.journals - {c})
  {
    hide Held, Move;
  }

  lemma QueueReturned(s: System, pid: Pid, c: Config, stage: Stage, locks: set<Lock>, held: set<Lock>)
    requires ChangesQueue(StageOf(s, pid)) && s.locks == locks + held && locks !! held
    requires Held(pid, stage) <= locks && Held(pid, StageOf(s, pid)) == Held(pid, stage) + held
    requires stage == if StageOf(s, pid).Running? then StageOf(s, pid).(queueing := false) else Exited
    ensures Do(s, ReleaseQueue(pid)) == s.(stages := s.stages[pid := stage], locks := locks)
  {
    hide Held, Move;
    FewerLocks(s, pid, stage, locks, held);
  }

  lemma QueueHeld(pid: Pid, stage: Stage, c: Config)
    requires stage.Exited? || (stage.Running? && stage.config == c && !stage.queueing)
    ensures var queueing := if stage.Running? then stage.(queueing := true) else Queueing(c);
            Held(pid, queueing) == Held(pid, stage) + {Lock(pid, Queue(c), true)}
  {
  }

  lemma NotYetHeld(s: System, c: Config, pid: Pid)
    requires Unlocked(s, Queue(c))
    ensures s.locks !! {Lock(pid, Queue(c), true)}
  {
  }

  /** While another process holds the queue of a config, nobody queues, cancels or starts to migrate. */
  lemma QueueIsTaken(s: System, pid: Pid, c: Config)
    requires !Unlocked(s, Queue(c))
    ensures Do(s, TakeQueueToChange(pid, c)) == s
    ensures StageOf(s, pid) == Starting(c) ==> StageOf(Do(s, TakeQueue(pid)), pid) == Exited
  {
    UnlockedIsGranted(s, Queue(c));
  }

  // ---- migrating ----

  /** The system after a process has locked its first n roots. */
  ghost function LockRoots(s: System, pid: Pid, n: nat): System {
    if n == 0 then s else Do(LockRoots(s, pid, n - 1), LockRoot(pid))
  }

  lemma {:induction false} RootsLocked(s: System, pid: Pid, c: Config, j: Journal, n: nat)
    requires Accounted(s) && StageOf(s, pid) == Locking(c, j, 0) && n <= |Roots(j)|
    requires forall d :: d in Roots(j) ==> Unlocked(s, Data(d))
    ensures var t := LockRoots(s, pid, n);
            && t.stages == s.stages[pid := Locking(c, j, n)] && t.configs == s.configs && t.journals == s.journals
            && t.locks == s.locks + DataLocks(pid, j, n)
  {
    hide Roots, Do, Accounted, Held;
    HeldNow(s, pid);
    if n == 0 {
      assert DataLocks(pid, j, 0) == {};
      assert s.stages[pid := StageOf(s, pid)] == s.stages;
    } else {
      hide DataLocks, StageOf;
      RootsLocked(s, pid, c, j, n - 1);
      OneRoot(s, LockRoots(s, pid, n - 1), pid, c, j, n - 1);
    }
  }

  /** Moving to a stage with more locks, and to one with fewer. */
  lemma MoreLocks(s: System, pid: Pid, stage: Stage, more: set<Lock>)
    requires Held(pid, StageOf(s, pid)) <= s.locks && Held(pid, stage) == Held(pid, StageOf(s, pid)) + more
    ensures Move(s, pid, stage) == s.(stages := s.stages[pid := stage], locks := s.locks + more)
  {
    hide Held;
    assert s.locks - Held(pid, StageOf(s, pid)) + Held(pid, stage) == s.locks + more;
  }

  lemma FewerLocks(s: System, pid: Pid, stage: Stage, locks: set<Lock>, gone: set<Lock>)
    requires s.locks == locks + gone && Held(pid, StageOf(s, pid)) == Held(pid, stage) + gone
    requires Held(pid, stage) <= locks && locks !! gone
    ensures Move(s, pid, stage) == s.(stages := s.stages[pid := stage], locks := locks)
  {
    hide Held;
    assert s.locks - Held(pid, StageOf(s, pid)) + Held(pid, stage) == locks;
  }

  lemma HeldNow(s: System, pid: Pid)
    requires Accounted(s)
    ensures Held(pid, StageOf(s, pid)) <= s.locks
  {
    HeldIsOwn(pid, StageOf(s, pid));
  }

  lemma OneRoot(s: System, before: System, pid: Pid, c: Config, j: Journal, k: nat)
    requires k < |Roots(j)| && Unlocked(s, Data(Roots(j)[k])) && Held(pid, Locking(c, j, 0)) <= s.locks
    requires before.stages == s.stages[pid := Locking(c, j, k)] && before.locks == s.locks + DataLocks(pid, j, k)
    ensures var t := Do(before, LockRoot(pid));
            && t.stages == s.stages[pid := Locking(c, j, k + 1)]
            && t.configs == before.configs && t.journals == before.journals
            && t.locks == s.locks + DataLocks(pid, j, k + 1)
  {
    hide Roots;
    assert Granted(before.locks, Data(Roots(j)[k]), true);
    assert DataLocks(pid, j, k) <= DataLocks(pid, j, k + 1);
    assert before.locks - Held(pid, Locking(c, j, k)) + Held(pid, Locking(c, j, k + 1))
           == s.locks + DataLocks(pid, j, k + 1);
  }

  /** A process that starts under a pending move whose queue and roots nobody locks carries it through: the
      config names the new directory, the journal is gone, no lock is left, and it goes on to read the
      config. */
  lemma MoveIsMade(s: System, pid: Pid, c: Config)
    requires Accounted(s) && StageOf(s, pid) == Exited && c in s.configs && c in s.journals
    requires s.configs[c] == s.journals[c].before && Unlocked(s, Queue(c))
    requires forall d :: d in Roots(s.journals[c]) ==> Unlocked(s, Data(d))
    ensures var j := s.journals[c];
            var locking := Do(Do(Do(s, Start(pid, c)), TakeQueue(pid)), ReadJournal(pid));
            var applying := Do(LockRoots(locking, pid, |Roots(j)|), LockRoot(pid));
            var t := Do(Do(Do(applying, Cutover(pid)), RemoveJournal(pid)), Release(pid));
            && t.configs == s.configs[c := if j.fetch then j.before else j.destination]
            && t.journals == s.journals - {c} && t.locks == s.locks && t.stages == s.stages[pid := Reading(c)]
  {
    hide Roots, LockRoots;
    var j := s.journals[c];
    var queue := Lock(pid, Queue(c), true);
    HeldNow(s, pid);
    UnlockedIsGranted(s, Queue(c));
    var starting := Do(s, Start(pid, c));
    assert starting == s.(stages := s.stages[pid := Starting(c)]) by { assert s.locks - {} + {} == s.locks; }
    var queued := Do(starting, TakeQueue(pid));
    assert queued == s.(stages := s.stages[pid := Queued(c)], locks := s.locks + {queue});
    var locking := Do(queued, ReadJournal(pid));
    assert DataLocks(pid, j, 0) == {};
    assert locking == s.(stages := s.stages[pid := Locking(c, j, 0)], locks := s.locks + {queue});
    LockingIsAccounted(s, locking, pid, c, j);
    RootsLocked(locking, pid, c, j, |Roots(j)|);
    FinishMove(s, LockRoots(locking, pid, |Roots(j)|), pid, c, j);
  }

  lemma LockingIsAccounted(s: System, locking: System, pid: Pid, c: Config, j: Journal)
    requires Accounted(s) && StageOf(s, pid) == Exited
    requires locking == s.(stages := s.stages[pid := Locking(c, j, 0)], locks := s.locks + {Lock(pid, Queue(c), true)})
    ensures Accounted(locking)
  {
    hide Roots;
    forall l: Lock ensures l in locking.locks <==> l in Held(l.pid, StageOf(locking, l.pid)) {
      assert l in s.locks <==> l in Held(l.pid, StageOf(s, l.pid));
    }
  }

  lemma FinishMove(s: System, locked: System, pid: Pid, c: Config, j: Journal)
    requires Accounted(s) && StageOf(s, pid) == Exited && c in s.configs && s.configs[c] == j.before
    requires locked.configs == s.configs && locked.journals == s.journals
    requires locked.stages == s.stages[pid := Locking(c, j, |Roots(j)|)]
    requires locked.locks == s.locks + {Lock(pid, Queue(c), true)} + DataLocks(pid, j, |Roots(j)|)
    ensures var t := Do(Do(Do(Do(locked, LockRoot(pid)), Cutover(pid)), RemoveJournal(pid)), Release(pid));
            && t.configs == s.configs[c := if j.fetch then j.before else j.destination]
            && t.journals == s.journals - {c} && t.locks == s.locks && t.stages == s.stages[pid := Reading(c)]
  {
    hide Roots, DataLocks, Accounted, Do;
    var held := {Lock(pid, Queue(c), true)} + DataLocks(pid, j, |Roots(j)|);
    NoneOwn(s, pid);
    HeldIsOwn(pid, Applying(c, j));
    assert locked.locks == s.locks + held && s.locks !! held;
    hide Held;
    AllLocked(locked, pid, c, j);
    var applying := locked.(stages := s.stages[pid := Applying(c, j)]);
    assert locked.stages[pid := Applying(c, j)] == applying.stages;
    assert applying.stages[pid := Reading(c)] == s.stages[pid := Reading(c)];
    Switched(applying, pid, c, j);
    MoveEnds(applying.(configs := s.configs[c := After(j)]), s.locks, held, pid, c, j);
  }

  lemma AllLocked(s: System, pid: Pid, c: Config, j: Journal)
    requires StageOf(s, pid) == Locking(c, j, |Roots(j)|) && Held(pid, Applying(c, j)) <= s.locks
    ensures Do(s, LockRoot(pid)) == s.(stages := s.stages[pid := Applying(c, j)])
  {
    hide Roots, DataLocks, Move;
    MoreLocks(s, pid, Applying(c, j), {});
    assert s.locks + {} == s.locks;
  }

  lemma Switched(s: System, pid: Pid, c: Config, j: Journal)
    requires StageOf(s, pid) == Applying(c, j) && c in s.configs && s.configs[c] == j.before
    ensures Do(s, Cutover(pid)) == s.(configs := s.configs[c := After(j)])
  {
  }

  lemma MoveEnds(s: System, locks: set<Lock>, held: set<Lock>, pid: Pid, c: Config, j: Journal)
    requires StageOf(s, pid) == Applying(c, j) && s.locks == locks + held && locks !! held
    requires held == Held(pid, Applying(c, j))
    ensures Do(Do(s, RemoveJournal(pid)), Release(pid))
            == s.(journals := s.journals - {c}, stages := s.stages[pid := Reading(c)], locks := locks)
  {
    hide Roots, DataLocks, Move;
    var removed := s.(journals := s.journals - {c});
    assert s.locks + {} == s.locks;
    MoreLocks(removed, pid, Applied(c, j), {});
    FewerLocks(removed.(stages := s.stages[pid := Applied(c, j)]), pid, Reading(c), locks, held);
  }

  lemma NoneOwn(s: System, pid: Pid)
    requires Accounted(s) && StageOf(s, pid) == Exited
    ensures forall l :: l in s.locks ==> l.pid != pid
  {
    forall l | l in s.locks ensures l.pid != pid {
      assert l in Held(l.pid, StageOf(s, l.pid));
    }
  }

  // ---- the lease ----

  /** A process that has come to read its config, and finds that no move locks the directory it names, runs
      on it under a lease. */
  lemma LeaseIsTaken(s: System, pid: Pid, c: Config)
    requires StageOf(s, pid) == Reading(c) && c in s.configs
    requires forall l :: l in s.locks && l.file == Data(s.configs[c]) ==> !l.exclusive
    ensures var t := Do(Do(Do(s, ReadConfig(pid)), TakeLease(pid)), Load(pid));
            && t.stages == s.stages[pid := Running(c, s.configs[c], s.configs[c], false)]
            && t.locks == s.locks + {Lock(pid, Data(s.configs[c]), false)}
            && t.configs == s.configs && t.journals == s.journals
  {
    hide Move;
    var dir := s.configs[c];
    assert Held(pid, Reading(c)) == {} && Held(pid, Leasing(c, dir)) == {};
    MoreLocks(s, pid, Leasing(c, dir), {});
    var reading := Do(s, ReadConfig(pid));
    assert reading.locks == s.locks && Granted(s.locks, Data(dir), false);
    MoreLocks(reading, pid, Leased(c, dir), {Lock(pid, Data(dir), false)});
    var leased := Do(reading, TakeLease(pid));
    MoreLocks(leased, pid, Running(c, dir, dir, false), {});
  }

  /** Where no move is pending a process goes straight to its config. */
  lemma StartWithoutMove(s: System, pid: Pid, c: Config)
    requires StageOf(s, pid) == Exited && c in s.configs && c !in s.journals
    ensures var t := Do(s, Start(pid, c));
            t.stages == s.stages[pid := Reading(c)] && t.locks == s.locks && t.configs == s.configs
            && t.journals == s.journals
  {
    assert s.locks - {} + {} == s.locks;
  }
}
