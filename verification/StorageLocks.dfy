/** Processes that start, lease their data directory, queue storage changes and apply them, interleaved
    in any order. Models `lock`, `prepare_startup`, and the locking of `schedule` and `cancel`, of
    grimoire/src/storage_migration.rs, and `init_config` of grimoire/src/config.rs. Directories are
    numbered in the order in which their paths sort. */
module StorageLocks {
  import opened Wrappers

  type Pid = nat
  type Config = nat
  type Dir = nat

  datatype LockFile = Queue(config: Config) | Data(dir: Dir)
  datatype Lock = Lock(pid: Pid, file: LockFile, exclusive: bool)

  /** A queued move: the data directory of the config it was queued under, and its two roots. */
  datatype Journal = Journal(before: Dir, source: Dir, destination: Dir, fetch: bool)

  /** The data directory that the config will name: a fetch move keeps it. */
  function After(j: Journal): Dir {
    if j.fetch then j.before else j.destination
  }

  /** How far a process has come. */
  datatype Stage =
    | Exited
    | Starting(config: Config)                            // past the first look at the config
    | Queued(config: Config)                              // holds the queue lock
    | Locking(config: Config, journal: Journal, k: nat)   // and the data locks of the first k roots
    | Applying(config: Config, journal: Journal)          // inside `apply`
    | Applied(config: Config, journal: Journal)           // the journal is removed, the locks are still held
    | Reading(config: Config)                             // about to read the config again
    | Leasing(config: Config, dir: Dir)                   // has read it
    | Leased(config: Config, dir: Dir)                    // holds the lease
    | Running(config: Config, leased: Dir, used: Dir, queueing: bool)   // has loaded the config
    | Queueing(config: Config)                            // holds the queue lock without a lease

  datatype System = System(
    configs: map<Config, Dir>,
    journals: map<Config, Journal>,
    locks: set<Lock>,
    stages: map<Pid, Stage>)

  function StageOf(s: System, pid: Pid): Stage {
    if pid in s.stages then s.stages[pid] else Exited
  }

  /** The directories that a migration locks: sorted, and each once. */
  function Roots(j: Journal): (roots: seq<Dir>)
    ensures forall d :: d in roots <==> d == j.before || d == j.source || d == j.destination
    ensures forall i, k :: 0 <= i < k < |roots| ==> roots[i] < roots[k]
  {
    Insert(Insert([j.before], j.source), j.destination)
  }

  function Insert(sorted: seq<Dir>, d: Dir): (r: seq<Dir>)
    requires forall i, k :: 0 <= i < k < |sorted| ==> sorted[i] < sorted[k]
    ensures forall i, k :: 0 <= i < k < |r| ==> r[i] < r[k]
    ensures forall x :: x in r <==> x in sorted || x == d
  {
    if sorted == [] then [d]
    else if d < sorted[0] then [d] + sorted
    else if d == sorted[0] then sorted
    else
      var rest := Insert(sorted[1..], d);
      assert forall x :: x in rest ==> sorted[0] < x;
      [sorted[0]] + rest
  }

  /** The locks that a process holds at a stage. */
  function Held(pid: Pid, stage: Stage): set<Lock> {
    match stage
    case Queued(c) => {Lock(pid, Queue(c), true)}
    case Queueing(c) => {Lock(pid, Queue(c), true)}
    case Locking(c, j, k) => {Lock(pid, Queue(c), true)} + DataLocks(pid, j, k)
    case Applying(c, j) => {Lock(pid, Queue(c), true)} + DataLocks(pid, j, |Roots(j)|)
    case Applied(c, j) => {Lock(pid, Queue(c), true)} + DataLocks(pid, j, |Roots(j)|)
    case Leased(_, dir) => {Lock(pid, Data(dir), false)}
    case Running(c, dir, _, queueing) =>
      {Lock(pid, Data(dir), false)} + if queueing then {Lock(pid, Queue(c), true)} else {}
    case _ => {}
  }

  function DataLocks(pid: Pid, j: Journal, k: nat): set<Lock> {
    set i | 0 <= i < k && i < |Roots(j)| :: Lock(pid, Data(Roots(j)[i]), true)
  }

  /** A lock is granted when nobody holds the file exclusively, and nobody at all if it is to be
      exclusive. */
  predicate Granted(locks: set<Lock>, file: LockFile, exclusive: bool) {
    forall l :: l in locks && l.file == file ==> !l.exclusive && !exclusive
  }

  // ---- what a process does ----

  datatype Action =
    | Start(pid: Pid, config: Config) | TakeQueue(pid: Pid) | ReadJournal(pid: Pid) | LockRoot(pid: Pid)
    | Cutover(pid: Pid) | RemoveJournal(pid: Pid) | Release(pid: Pid)
    | ReadConfig(pid: Pid) | TakeLease(pid: Pid) | Load(pid: Pid) | Exit(pid: Pid)
    | TakeQueueToChange(pid: Pid, config: Config) | ReleaseQueue(pid: Pid)
    | Schedule(pid: Pid, source: Dir, destination: Dir, fetch: bool) | Cancel(pid: Pid)
    | Edit(config: Config, dir: Dir)

  /** Moves a process to another stage with the locks it takes and gives up. */
  function Move(s: System, pid: Pid, stage: Stage): System {
    s.(stages := s.stages[pid := stage],
       locks := (s.locks - Held(pid, StageOf(s, pid))) + Held(pid, stage))
  }

  /** The process ends, by itself, by an error or by a crash; its locks go with it. */
  function End(s: System, pid: Pid): System {
    Move(s, pid, Exited)
  }

  /** One action; nothing happens when the process is not at the stage for it. */
  function Do(s: System, a: Action): System {
    match a
    case Start(pid, c) =>
      if StageOf(s, pid) != Exited || c !in s.configs then s
      else Move(s, pid, if c in s.journals then Starting(c) else Reading(c))
    case TakeQueue(pid) =>
      if !StageOf(s, pid).Starting? then s
      else
        var c := StageOf(s, pid).config;
        if Granted(s.locks, Queue(c), true) then Move(s, pid, Queued(c)) else End(s, pid)
    case ReadJournal(pid) =>
      if !StageOf(s, pid).Queued? then s
      else
        var c := StageOf(s, pid).config;
        if c in s.journals then Move(s, pid, Locking(c, s.journals[c], 0)) else End(s, pid)
    case LockRoot(pid) =>
      if !StageOf(s, pid).Locking? then s
      else
        var stage := StageOf(s, pid);
        var roots := Roots(stage.journal);
        if stage.k >= |roots| then Move(s, pid, Applying(stage.config, stage.journal))
        else if Granted(s.locks, Data(roots[stage.k]), true) then Move(s, pid, stage.(k := stage.k + 1))
        else End(s, pid)
    case Cutover(pid) =>
      if !StageOf(s, pid).Applying? then s
      else
        var c, j := StageOf(s, pid).config, StageOf(s, pid).journal;
        if c in s.configs && s.configs[c] in {j.before, After(j)}
        then s.(configs := s.configs[c := After(j)]) else End(s, pid)
    case RemoveJournal(pid) =>
      if !StageOf(s, pid).Applying? then s
      else
        var c := StageOf(s, pid).config;
        Move(s.(journals := s.journals - {c}), pid, Applied(c, StageOf(s, pid).journal))
    case Release(pid) =>
      if !StageOf(s, pid).Applied? then s else Move(s, pid, Reading(StageOf(s, pid).config))
    case ReadConfig(pid) =>
      if !StageOf(s, pid).Reading? || StageOf(s, pid).config !in s.configs then s
      else Move(s, pid, Leasing(StageOf(s, pid).config, s.configs[StageOf(s, pid).config]))
    case TakeLease(pid) =>
      if !StageOf(s, pid).Leasing? then s
      else
        var stage := StageOf(s, pid);
        if Granted(s.locks, Data(stage.dir), false) then Move(s, pid, Leased(stage.config, stage.dir)) else End(s, pid)
    case Load(pid) =>
      if !StageOf(s, pid).Leased? || StageOf(s, pid).config !in s.configs then s
      else
        var stage := StageOf(s, pid);
        Move(s, pid, Running(stage.config, stage.dir, s.configs[stage.config], false))
    case Exit(pid) => End(s, pid)
    case TakeQueueToChange(pid, c) =>
      var stage := StageOf(s, pid);
      if !Granted(s.locks, Queue(c), true) then s
      else if stage.Exited? then Move(s, pid, Queueing(c))
      else if stage.Running? && stage.config == c then Move(s, pid, stage.(queueing := true))
      else s
    case Schedule(pid, source, destination, fetch) =>
      var stage := StageOf(s, pid);
      if ChangesQueue(stage) && stage.config !in s.journals && stage.config in s.configs && source != destination
         && (!fetch ==> source == s.configs[stage.config])
      then s.(journals := s.journals[stage.config := Journal(s.configs[stage.config], source, destination, fetch)])
      else s
    case Cancel(pid) =>
      var stage := StageOf(s, pid);
      if ChangesQueue(stage) then s.(journals := s.journals - {stage.config}) else s
    case ReleaseQueue(pid) =>
      var stage := StageOf(s, pid);
      if !ChangesQueue(stage) then s
      else Move(s, pid, if stage.Running? then stage.(queueing := false) else Exited)
    case Edit(c, dir) => s.(configs := s.configs[c := dir])
  }

  predicate ChangesQueue(stage: Stage) {
    stage.Queueing? || (stage.Running? && stage.queueing)
  }

  // ---- what is kept ----

  /** No two holders of a file, one of them exclusive. */
  predicate Compatible(locks: set<Lock>) {
    forall l, m :: l in locks && m in locks && l.file == m.file && l != m ==> !l.exclusive && !m.exclusive
  }

  /** The lock table is exactly what the stages say. */
  ghost predicate Accounted(s: System) {
    forall l: Lock :: l in s.locks <==> l in Held(l.pid, StageOf(s, l.pid))
  }

  /** A process that locks or applies works on the journal that is on disk. */
  predicate JournalsCurrent(s: System) {
    forall pid :: pid in s.stages && (s.stages[pid].Locking? || s.stages[pid].Applying?) ==>
      s.stages[pid].config in s.journals && s.journals[s.stages[pid].config] == s.stages[pid].journal
  }

  ghost predicate Invariant(s: System) {
    Compatible(s.locks) && Accounted(s) && JournalsCurrent(s)
  }

  lemma HeldIsOwn(pid: Pid, stage: Stage)
    ensures forall l :: l in Held(pid, stage) ==> l.pid == pid
  {
  }

  /** Moving a process keeps locks compatible and accounted for, when what it newly takes is granted. */
  lemma MoveKeeps(s: System, pid: Pid, stage: Stage)
    requires Compatible(s.locks) && Accounted(s) && Compatible(Held(pid, stage))
    requires forall l :: l in Held(pid, stage) && l !in Held(pid, StageOf(s, pid)) ==>
             Granted(s.locks, l.file, l.exclusive)
    ensures Compatible(Move(s, pid, stage).locks) && Accounted(Move(s, pid, stage))
  {
    hide Held;
    var t := Move(s, pid, stage);
    HeldIsOwn(pid, stage);
    HeldIsOwn(pid, StageOf(s, pid));
    forall l: Lock ensures l in t.locks <==> l in Held(l.pid, StageOf(t, l.pid)) {
      assert l in s.locks <==> l in Held(l.pid, StageOf(s, l.pid));
      if l.pid != pid {
        assert StageOf(t, l.pid) == StageOf(s, l.pid);
      }
    }
    forall l | l in Held(pid, StageOf(s, pid)) ensures l in s.locks {
    }
  }

  lemma RootsApart(pid: Pid, j: Journal, k: nat)
    ensures Compatible(DataLocks(pid, j, k))
  {
  }

  lemma HeldCompatible(pid: Pid, stage: Stage)
    ensures Compatible(Held(pid, stage))
  {
    hide Roots;
    if stage.Locking? {
      RootsApart(pid, stage.journal, stage.k);
    } else if stage.Applying? || stage.Applied? {
      RootsApart(pid, stage.journal, |Roots(stage.journal)|);
    }
  }

  /** A process at one of these stages holds the queue lock of its config. */
  predicate HoldsQueue(stage: Stage) {
    stage.Queued? || stage.Locking? || stage.Applying? || stage.Applied? || ChangesQueue(stage)
  }

  lemma QueueAlone(s: System, p: Pid, q: Pid)
    requires Compatible(s.locks) && Accounted(s) && p != q
    requires HoldsQueue(StageOf(s, p)) && HoldsQueue(StageOf(s, q))
    ensures StageOf(s, p).config != StageOf(s, q).config
  {
    var a, b := Lock(p, Queue(StageOf(s, p).config), true), Lock(q, Queue(StageOf(s, q).config), true);
    assert a in Held(p, StageOf(s, p)) && b in Held(q, StageOf(s, q));
    assert a in s.locks && b in s.locks;
  }

  /** The process that an action belongs to. */
  function Actor(a: Action): Option<Pid> {
    if a.Edit? then None else Some(a.pid)
  }

  /** What an action newly locks is granted. */
  lemma NewLocksGranted(s: System, a: Action, l: Lock)
    requires Actor(a).Some? && l in Held(a.pid, StageOf(Do(s, a), a.pid)) && l !in Held(a.pid, StageOf(s, a.pid))
    ensures Granted(s.locks, l.file, l.exclusive)
  {
    hide Roots, Granted;
  }

  /** An action changes locks and stages by at most a move of its process. */
  lemma ActionMoves(s: System, a: Action)
    requires Actor(a).Some?
    ensures var stage := StageOf(Do(s, a), a.pid);
            || (Do(s, a).locks == s.locks && Do(s, a).stages == s.stages)
            || (Do(s, a).locks == Move(s, a.pid, stage).locks && Do(s, a).stages == Move(s, a.pid, stage).stages)
  {
    hide Roots, Granted, Held;
  }

  lemma LocksKept(s: System, a: Action)
    requires Compatible(s.locks) && Accounted(s)
    ensures Compatible(Do(s, a).locks) && Accounted(Do(s, a))
  {
    hide Compatible, Held, Do, Granted, Move;
    if Actor(a).Some? {
      var stage := StageOf(Do(s, a), a.pid);
      ActionMoves(s, a);
      HeldCompatible(a.pid, stage);
      forall l | l in Held(a.pid, stage) && l !in Held(a.pid, StageOf(s, a.pid))
        ensures Granted(s.locks, l.file, l.exclusive)
      {
        NewLocksGranted(s, a, l);
      }
      MoveKeeps(s, a.pid, stage);
    } else {
      EditKeeps(s, a);
    }
  }

  lemma EditKeeps(s: System, a: Action)
    requires a.Edit?
    ensures Do(s, a).locks == s.locks && Do(s, a).stages == s.stages && Do(s, a).journals == s.journals
  {
  }

  /** Only the holder of a config's queue lock changes which change is pending for it. */
  lemma JournalChanges(s: System, a: Action, c: Config)
    requires c in s.journals
    ensures (c in Do(s, a).journals && Do(s, a).journals[c] == s.journals[c])
         || (Actor(a).Some? && HoldsQueue(StageOf(s, a.pid)) && StageOf(s, a.pid).config == c)
  {
    hide Roots, Granted, Held;
  }

  /** A process only starts to lock or apply with the journal that is on disk, and goes on with it. */
  lemma JournalInHand(s: System, a: Action)
    requires Actor(a).Some?
    requires StageOf(Do(s, a), a.pid).Locking? || StageOf(Do(s, a), a.pid).Applying?
    ensures var before, after := StageOf(s, a.pid), StageOf(Do(s, a), a.pid);
            && HoldsQueue(before) && before.config == after.config
            && (if before.Locking? || before.Applying? then before.journal == after.journal
                else before.config in s.journals && s.journals[before.config] == after.journal)
            && Do(s, a).journals == s.journals
  {
    hide Roots, Granted, Held;
  }

  lemma OthersStay(s: System, a: Action, q: Pid)
    requires Actor(a) != Some(q)
    ensures StageOf(Do(s, a), q) == StageOf(s, q)
  {
    hide Roots, Granted, Held;
  }

  lemma JournalsKept(s: System, a: Action)
    requires Invariant(s)
    ensures JournalsCurrent(Do(s, a))
  {
    hide Do, Compatible, Accounted;
    forall q | q in Do(s, a).stages && (StageOf(Do(s, a), q).Locking? || StageOf(Do(s, a), q).Applying?)
      ensures var stage := StageOf(Do(s, a), q);
              stage.config in Do(s, a).journals && Do(s, a).journals[stage.config] == stage.journal
    {
      if Actor(a) == Some(q) {
        JournalInHand(s, a);
      } else {
        OthersStay(s, a, q);
        JournalChanges(s, a, StageOf(s, q).config);
        if Actor(a).Some? && HoldsQueue(StageOf(s, a.pid)) {
          QueueAlone(s, a.pid, q);
        }
      }
    }
  }

  lemma InvariantKept(s: System, a: Action)
    requires Invariant(s)
    ensures Invariant(Do(s, a))
  {
    hide Do, Compatible, Accounted, JournalsCurrent;
    LocksKept(s, a);
    JournalsKept(s, a);
  }

  // ---- whole runs ----

  function Run(s: System, actions: seq<Action>): System {
    if actions == [] then s else Do(Run(s, actions[..|actions| - 1]), actions[|actions| - 1])
  }

  /** Before anyone has started. */
  predicate AtRest(s: System) {
    s.locks == {} && s.stages == map[]
  }

  lemma {:induction false} RunInvariant(s: System, actions: seq<Action>)
    requires AtRest(s)
    ensures Invariant(Run(s, actions))
  {
    hide Do;
    if actions != [] {
      RunInvariant(s, actions[..|actions| - 1]);
      InvariantKept(Run(s, actions[..|actions| - 1]), actions[|actions| - 1]);
    }
  }

  /** Inside `apply`, or just after it. */
  predicate Migrating(stage: Stage) {
    stage.Applying? || stage.Applied?
  }

  predicate Leases(stage: Stage, dir: Dir) {
    (stage.Leased? && stage.dir == dir) || (stage.Running? && stage.leased == dir)
  }

  /** Exclusion over all interleavings: while one process migrates, nobody else holds a lease on the old
      data directory, the source or the destination; nobody else migrates the same config, and other
      configs are only migrated between other directories; and the journal it works on is the pending
      one. */
  lemma Exclusion(s: System, actions: seq<Action>, p: Pid, q: Pid)
    requires AtRest(s) && p != q
    requires Migrating(StageOf(Run(s, actions), p))
    ensures var stage, other := StageOf(Run(s, actions), p), StageOf(Run(s, actions), q);
            && (forall dir :: dir in Roots(stage.journal) ==> !Leases(other, dir))
            && (Migrating(other) ==> other.config != stage.config && forall dir :: dir in Roots(stage.journal) ==>
               dir !in Roots(other.journal))
            && (stage.Applying? ==>
               stage.config in Run(s, actions).journals && Run(s, actions).journals[stage.config] == stage.journal)
  {
    hide Run, Roots;
    RunInvariant(s, actions);
    var t := Run(s, actions);
    var stage, other := StageOf(t, p), StageOf(t, q);
    forall dir | dir in Roots(stage.journal)
      ensures !Leases(other, dir) && (Migrating(other) ==> dir !in Roots(other.journal))
    {
      DataLocked(t, p, dir);
      if Leases(other, dir) {
        LeaseLocked(t, q, dir);
      } else if Migrating(other) && dir in Roots(other.journal) {
        DataLocked(t, q, dir);
      }
    }
    if Migrating(other) {
      QueueAlone(t, p, q);
    }
  }

  lemma DataLocked(s: System, p: Pid, dir: Dir)
    requires Accounted(s) && Migrating(StageOf(s, p)) && dir in Roots(StageOf(s, p).journal)
    ensures Lock(p, Data(dir), true) in s.locks
  {
    hide Roots;
    var roots := Roots(StageOf(s, p).journal);
    var i :| 0 <= i < |roots| && roots[i] == dir;
    assert Lock(p, Data(roots[i]), true) in Held(p, StageOf(s, p));
  }

  lemma LeaseLocked(s: System, q: Pid, dir: Dir)
    requires Accounted(s) && Leases(StageOf(s, q), dir)
    ensures Lock(q, Data(dir), false) in s.locks
  {
    assert Lock(q, Data(dir), false) in Held(q, StageOf(s, q));
  }

  // ---- contending migrations ----

  lemma {:induction false} GreatestHeld(locks: set<Lock>)
    requires exists l :: l in locks && l.file.Data?
    ensures exists l :: Greatest(l, locks)
  {
    var l :| l in locks && l.file.Data?;
    if exists m :: m in locks - {l} && m.file.Data? {
      GreatestHeld(locks - {l});
      var m :| Greatest(m, locks - {l});
      assert Greatest(if l.file.dir < m.file.dir then m else l, locks);
    } else {
      assert Greatest(l, locks);
    }
  }

  predicate Greatest(l: Lock, locks: set<Lock>) {
    l in locks && l.file.Data? && forall m :: m in locks && m.file.Data? ==> m.file.dir <= l.file.dir
  }

  /** Because roots are locked in sorted order, migrations that contend for directories cannot all be
      refused: one that holds the greatest directory locked so far is granted its next one, or has all
      of them. */
  lemma SomeMigrationGoesOn(s: System)
    requires Invariant(s) && exists l :: l in s.locks && l.file.Data?
    requires forall l :: l in s.locks && l.file.Data? ==> StageOf(s, l.pid).Locking?
    ensures exists p :: GoesOn(s, p)
  {
    hide Roots, Compatible, JournalsCurrent;
    GreatestHeld(s.locks);
    var l :| Greatest(l, s.locks);
    var stage := StageOf(s, l.pid);
    var roots := Roots(stage.journal);
    assert l in DataLocks(l.pid, stage.journal, stage.k);
    var i :| 0 <= i < stage.k && i < |roots| && l.file.dir == roots[i];
    assert stage.k < |roots| ==> l.file.dir < roots[stage.k];
    assert GoesOn(s, l.pid);
  }

  predicate GoesOn(s: System, p: Pid) {
    var stage := StageOf(s, p);
    && stage.Locking?
    && (stage.k < |Roots(stage.journal)| ==> Granted(s.locks, Data(Roots(stage.journal)[stage.k]), true))
  }

  // ---- from the lease to the directory in use ----

  predicate OthersOnly(actions: seq<Action>, q: Pid) {
    forall i :: 0 <= i < |actions| ==> Actor(actions[i]) != Some(q)
  }

  lemma {:induction false} StageStays(s: System, actions: seq<Action>, q: Pid)
    requires OthersOnly(actions, q)
    ensures StageOf(Run(s, actions), q) == StageOf(s, q)
  {
    hide Do;
    if actions != [] {
      StageStays(s, actions[..|actions| - 1], q);
      OthersStay(Run(s, actions[..|actions| - 1]), actions[|actions| - 1], q);
    }
  }

  /** Nobody edits the config by hand. */
  predicate Unedited(actions: seq<Action>, c: Config) {
    forall i :: 0 <= i < |actions| ==> !(actions[i].Edit? && actions[i].config == c)
  }

  /** This action switches the config from one data directory to another. */
  predicate Switches(s: System, a: Action, c: Config) {
    && a.Cutover? && StageOf(s, a.pid).Applying? && StageOf(s, a.pid).config == c && c in s.configs
    && var j := StageOf(s, a.pid).journal; s.configs[c] == j.before != After(j)
  }

  /** What the last switch of a config among these actions switched it to. */
  function LastSwitch(s: System, actions: seq<Action>, c: Config): Option<Dir> {
    if actions == [] then None else
    var n := |actions| - 1;
    var before := Run(s, actions[..n]);
    if Switches(before, actions[n], c) then Some(After(StageOf(before, actions[n].pid).journal))
    else LastSwitch(s, actions[..n], c)
  }

  lemma ConfigChanges(s: System, a: Action, c: Config)
    requires c in s.configs && !(a.Edit? && a.config == c)
    ensures c in Do(s, a).configs
    ensures Do(s, a).configs[c] == if Switches(s, a, c) then After(StageOf(s, a.pid).journal) else s.configs[c]
  {
    hide Roots, Granted, Held;
  }

  lemma {:induction false} ConfigAfter(s: System, actions: seq<Action>, c: Config)
    requires c in s.configs && Unedited(actions, c)
    ensures c in Run(s, actions).configs
    ensures Run(s, actions).configs[c] == match LastSwitch(s, actions, c) case None => s.configs[c] case Some(d) => d
  {
    hide Do, Switches;
    if actions != [] {
      var n := |actions| - 1;
      ConfigAfter(s, actions[..n], c);
      ConfigChanges(Run(s, actions[..n]), actions[n], c);
    }
  }

  /** While a process holds a lease on a directory, its config neither comes to name that directory nor
      ceases to: whoever could switch it would hold both directories exclusively. */
  lemma LeaseHoldsConfig(s: System, a: Action, q: Pid)
    requires Invariant(s) && StageOf(s, q).Leased? && Actor(a) != Some(q)
    requires var c := StageOf(s, q).config; c in s.configs && !(a.Edit? && a.config == c)
    ensures var c, d := StageOf(s, q).config, StageOf(s, q).dir;
            c in Do(s, a).configs && (Do(s, a).configs[c] == d <==> s.configs[c] == d)
  {
    hide Do, Roots, Held, JournalsCurrent;
    var c, d := StageOf(s, q).config, StageOf(s, q).dir;
    ConfigChanges(s, a, c);
    if Switches(s, a, c) && d in {s.configs[c], After(StageOf(s, a.pid).journal)} {
      DataLocked(s, a.pid, d);
      LeaseLocked(s, q, d);
    }
  }

  lemma {:induction false} LeaseHoldsThrough(s: System, actions: seq<Action>, q: Pid)
    requires Invariant(s) && StageOf(s, q).Leased? && OthersOnly(actions, q)
    requires var c := StageOf(s, q).config; c in s.configs && Unedited(actions, c)
    ensures Invariant(Run(s, actions)) && StageOf(Run(s, actions), q) == StageOf(s, q)
    ensures var c, d := StageOf(s, q).config, StageOf(s, q).dir;
            c in Run(s, actions).configs && (Run(s, actions).configs[c] == d <==> s.configs[c] == d)
  {
    hide Do, Invariant;
    if actions != [] {
      var n := |actions| - 1;
      LeaseHoldsThrough(s, actions[..n], q);
      LeaseHoldsConfig(Run(s, actions[..n]), actions[n], q);
      InvariantKept(Run(s, actions[..n]), actions[n]);
      OthersStay(Run(s, actions[..n]), actions[n], q);
    }
  }

  lemma {:induction false} InvariantThrough(s: System, actions: seq<Action>)
    requires Invariant(s)
    ensures Invariant(Run(s, actions))
  {
    hide Do;
    if actions != [] {
      InvariantThrough(s, actions[..|actions| - 1]);
      InvariantKept(Run(s, actions[..|actions| - 1]), actions[|actions| - 1]);
    }
  }

  /** A process leases the directory that its config named when it was read, and uses the one that it
      names when it is loaded. Over all runs without manual edits, the lease covers the directory in use
      if and only if no move switches the config between the reading and the lease, or the last one that
      does switches it back. What happens after the lease cannot matter. */
  lemma LeaseCoversUse(origin: System, earlier: seq<Action>, q: Pid, first: seq<Action>, second: seq<Action>)
    requires AtRest(origin)
    requires var s := Run(origin, earlier);
             StageOf(s, q).Reading? && StageOf(s, q).config in s.configs
    requires OthersOnly(first, q) && OthersOnly(second, q)
    requires var c := StageOf(Run(origin, earlier), q).config; Unedited(first, c) && Unedited(second, c)
    requires StageOf(Do(Run(Do(Run(origin, earlier), ReadConfig(q)), first), TakeLease(q)), q).Leased?
    ensures var s := Run(origin, earlier);
            var c, read := StageOf(s, q).config, Do(s, ReadConfig(q));
            var loading := Run(Do(Run(read, first), TakeLease(q)), second);
            var stage := StageOf(Do(loading, Load(q)), q);
            && stage.Running? && stage.leased == s.configs[c]
            && c in loading.configs && stage.used == loading.configs[c]
            && (Leases(stage, stage.used) <==> LastSwitch(read, first, c) in {None, Some(s.configs[c])})
  {
    hide Run, Held, Invariant, Unedited, OthersOnly, LastSwitch, Granted;
    RunInvariant(origin, earlier);
    var s := Run(origin, earlier);
    var c, read := StageOf(s, q).config, Do(s, ReadConfig(q));
    InvariantKept(s, ReadConfig(q));
    StageStays(read, first, q);
    ConfigAfter(read, first, c);
    InvariantThrough(read, first);
    InvariantKept(Run(read, first), TakeLease(q));
    LeaseHoldsThrough(Do(Run(read, first), TakeLease(q)), second, q);
  }

  /** Such a switch can come about: while one process is between reading its config and taking the
      lease, another schedules a move and a third one carries it out. The first then runs on a directory
      that its lease does not cover. */
  lemma MoveBeforeTheLease()
    ensures exists actions: seq<Action> :: UsesUnleased(Run(System(map[0 := 10], map[], {}, map[]), actions), 0)
  {
    hide Run;
    var s := System(map[0 := 10], map[], {}, map[]);
    var reading := Beginning(s);
    var moved := Moving(Run(s, reading), 10, 20);
    var loaded := Loading(Run(Run(s, reading), moved), 20);
    RunConcat(s, reading, moved);
    RunConcat(s, reading + moved, loaded);
    assert UsesUnleased(Run(s, reading + moved + loaded), 0);
  }

  /** And a second move can switch the config back before the lease is taken, which then covers it. */
  lemma MoveThereAndBack()
    ensures exists actions: seq<Action> ::
              Run(System(map[0 := 10], map[], {}, map[]), actions).stages == AWAY[0 := Running(0, 10, 10, false)]
  {
    hide Run;
    var s := System(map[0 := 10], map[], {}, map[]);
    var reading := Beginning(s);
    var there := Moving(Run(s, reading), 10, 20);
    var back := Moving(Run(Run(s, reading), there), 20, 10);
    var loaded := Loading(Run(Run(Run(s, reading), there), back), 10);
    RunConcat(s, reading, there);
    RunConcat(s, reading + there, back);
    RunConcat(s, reading + there + back, loaded);
    assert Run(s, reading + there + back + loaded).stages == AWAY[0 := Running(0, 10, 10, false)];
  }

  predicate UsesUnleased(s: System, pid: Pid) {
    StageOf(s, pid).Running? && !Leases(StageOf(s, pid), StageOf(s, pid).used)
  }

  lemma Extend(s: System, actions: seq<Action>, a: Action, next: System) returns (more: seq<Action>)
    requires Do(Run(s, actions), a) == next
    ensures Run(s, more) == next
  {
    more := actions + [a];
    assert more[..|actions|] == actions;
  }

  /** One process is about to lease directory 10, the other two are not running. */
  const AWAY: map<Pid, Stage> := map[0 := Leasing(0, 10), 1 := Exited, 2 := Exited]

  lemma Beginning(s: System) returns (actions: seq<Action>)
    requires s == System(map[0 := 10], map[], {}, map[])
    ensures Run(s, actions) == s.(stages := AWAY)
  {
    hide Run, Roots;
    actions := StartOf(s);
    actions := Extend(s, actions, Start(0, 0), s.(stages := map[0 := Reading(0)]));
    actions := Extend(s, actions, ReadConfig(0), s.(stages := map[0 := Leasing(0, 10)]));
    actions := Extend(s, actions, Exit(1), s.(stages := map[0 := Leasing(0, 10), 1 := Exited]));
    actions := Extend(s, actions, Exit(2), s.(stages := AWAY));
  }

  const MOVER := {Lock(2, Queue(0), true), Lock(2, Data(10), true), Lock(2, Data(20), true)}

  /** A move of the data directory between the two. */
  predicate OfTheData(s: System, j: Journal) {
    && s == System(map[0 := j.before], map[], {}, AWAY)
    && (j == Journal(10, 10, 20, false) || j == Journal(20, 20, 10, false))
  }

  lemma Scheduling(s: System, j: Journal) returns (actions: seq<Action>)
    requires OfTheData(s, j)
    ensures Run(s, actions) == s.(journals := map[0 := j])
  {
    hide Run, Roots;
    actions := StartOf(s);
    var changing := s.(stages := AWAY[1 := Queueing(0)], locks := {Lock(1, Queue(0), true)});
    actions := Extend(s, actions, TakeQueueToChange(1, 0), changing);
    actions := Extend(s, actions, Schedule(1, j.source, j.destination, false), changing.(journals := map[0 := j]));
    actions := Extend(s, actions, ReleaseQueue(1), s.(journals := map[0 := j]));
  }

  lemma TakingQueue(s: System, j: Journal) returns (actions: seq<Action>)
    requires OfTheData(s, j)
    ensures Run(s, actions)
            == s.(journals := map[0 := j], stages := AWAY[2 := Locking(0, j, 0)], locks := {Lock(2, Queue(0), true)})
  {
    hide Run, Roots, DataLocks;
    var queue, queued := Lock(2, Queue(0), true), s.(journals := map[0 := j]);
    RootsOfMove(j);
    actions := Scheduling(s, j);
    actions := Extend(s, actions, Start(2, 0), queued.(stages := AWAY[2 := Starting(0)]));
    actions := Extend(s, actions, TakeQueue(2), queued.(stages := AWAY[2 := Queued(0)], locks := {queue}));
    actions := Extend(s, actions, ReadJournal(2), queued.(stages := AWAY[2 := Locking(0, j, 0)], locks := {queue}));
  }

  lemma TakingLocks(s: System, j: Journal) returns (actions: seq<Action>)
    requires OfTheData(s, j)
    ensures Run(s, actions) == s.(journals := map[0 := j], stages := AWAY[2 := Applying(0, j)], locks := MOVER)
  {
    hide Run, Roots, DataLocks;
    var queue, root, queued := Lock(2, Queue(0), true), Lock(2, Data(10), true), s.(journals := map[0 := j]);
    RootsOfMove(j);
    actions := TakingQueue(s, j);
    actions := Extend(s, actions, LockRoot(2), queued.(stages := AWAY[2 := Locking(0, j, 1)], locks := {queue, root}));
    actions := Extend(s, actions, LockRoot(2), queued.(stages := AWAY[2 := Locking(0, j, 2)], locks := MOVER));
    actions := Extend(s, actions, LockRoot(2), queued.(stages := AWAY[2 := Applying(0, j)], locks := MOVER));
  }

  lemma CuttingOver(s: System, j: Journal) returns (actions: seq<Action>)
    requires OfTheData(s, j)
    ensures Run(s, actions)
            == s.(configs := map[0 := j.destination], stages := AWAY[2 := Applied(0, j)], locks := MOVER)
  {
    hide Run, Roots, DataLocks;
    RootsOfMove(j);
    actions := TakingLocks(s, j);
    var applying := s.(journals := map[0 := j], stages := AWAY[2 := Applying(0, j)], locks := MOVER);
    actions := Extend(s, actions, Cutover(2), applying.(configs := map[0 := j.destination]));
    actions := Extend(s, actions, RemoveJournal(2),
                      s.(configs := map[0 := j.destination], stages := AWAY[2 := Applied(0, j)], locks := MOVER));
  }

  /** Process 1 queues a move of the data directory and process 2 carries it out. */
  lemma Moving(s: System, from: Dir, to: Dir) returns (actions: seq<Action>)
    requires s == System(map[0 := from], map[], {}, AWAY) && (from, to) in {(10, 20), (20, 10)}
    ensures Run(s, actions) == System(map[0 := to], map[], {}, AWAY)
  {
    hide Run, Roots, DataLocks;
    var j := Journal(from, from, to, false);
    RootsOfMove(j);
    actions := CuttingOver(s, j);
    actions := Extend(s, actions, Exit(2), System(map[0 := to], map[], {}, AWAY));
  }

  lemma Loading(s: System, now: Dir) returns (actions: seq<Action>)
    requires s == System(map[0 := now], map[], {}, AWAY)
    ensures Run(s, actions).stages == AWAY[0 := Running(0, 10, now, false)]
  {
    hide Run;
    actions := StartOf(s);
    var leased := s.(stages := AWAY[0 := Leased(0, 10)], locks := {Lock(0, Data(10), false)});
    actions := Extend(s, actions, TakeLease(0), leased);
    actions := Extend(s, actions, Load(0), leased.(stages := AWAY[0 := Running(0, 10, now, false)]));
  }

  lemma StartOf(s: System) returns (actions: seq<Action>)
    ensures Run(s, actions) == s
  {
    actions := [];
  }

  lemma RootsOfMove(j: Journal)
    requires j == Journal(10, 10, 20, false) || j == Journal(20, 20, 10, false)
    ensures Roots(j) == [10, 20]
    ensures DataLocks(2, j, 0) == {} && DataLocks(2, j, 1) == {Lock(2, Data(10), true)}
    ensures DataLocks(2, j, 2) == {Lock(2, Data(10), true), Lock(2, Data(20), true)}
  {
    assert Insert([10], 20) == [10, 20] && Insert([20], 10) == [10, 20];
    assert Roots(j) == [10, 20];
    assert Lock(2, Data(Roots(j)[0]), true) in DataLocks(2, j, 1);
    assert Lock(2, Data(Roots(j)[0]), true) in DataLocks(2, j, 2)
           && Lock(2, Data(Roots(j)[1]), true) in DataLocks(2, j, 2);
  }

  lemma {:induction false} RunConcat(s: System, a: seq<Action>, b: seq<Action>)
    ensures Run(s, a + b) == Run(Run(s, a), b)
  {
    hide Do;
    if b == [] {
      assert a + b == a;
    } else {
      RunConcat(s, a, b[..|b| - 1]);
      assert (a + b)[..|a + b| - 1] == a + b[..|b| - 1];
    }
  }
}
