/** The phases of a Charnel update and recovery on the Pi, and the gate that keeps the application from
    starting on a package and data that do not belong together.
    Models `update`, `recover` and `prepare_launch` of scripts/raspberry-pi/charnel.py, as the changes
    they make to the transaction file, the installed package and the application's data. */
module LaunchGate {
  import opened Wrappers

  datatype Phase =
    | Stopping | Installing | Migrating | ReadyToStart | Complete
    | Failed | FailedBeforeInstall | Recovered

  datatype Transaction = Transaction(phase: Phase, packageStarted: bool, previous: nat, version: nat)

  /** Data that one version left, or data that is being changed from one to another. */
  datatype Data = At(version: nat) | Mixed

  /** `restored` says that recovery.json beside the transaction's backup lists every root as restored. */
  datatype Pi = Pi(transaction: Option<Transaction>, package: nat, data: Data, restored: bool)

  predicate SafePhase(phase: Phase) {
    phase == Complete || phase == Recovered || phase == FailedBeforeInstall
  }

  /** prepare_launch lets the application start. */
  predicate LaunchAllowed(s: Pi) {
    s.transaction.None? || SafePhase(s.transaction.value.phase) || s.transaction.value.phase == ReadyToStart
  }

  predicate Agree(s: Pi) {
    s.data == At(s.package)
  }

  /** What is kept in every state: an open gate means agreement, nothing has changed before the package
      was started on, and restored roots are those of the restored package. */
  predicate Gated(s: Pi) {
    && (LaunchAllowed(s) ==> Agree(s))
    && (s.transaction.Some? && !s.transaction.value.packageStarted ==> Agree(s))
    && (s.transaction.Some? && s.restored ==> Agree(s) && s.package == s.transaction.value.previous)
  }

  function InPhase(s: Pi, phase: Phase): Pi {
    if s.transaction.Some? then s.(transaction := Some(s.transaction.value.(phase := phase))) else s
  }

  // ---- what each command does to the disk, change by change ----

  const UPDATE_CHANGES := 8
  predicate UpdateAllowed(s: Pi) {
    s.transaction.None? || SafePhase(s.transaction.value.phase)
  }

  /** The Pi after the first i changes of an update. Its backup is a new one, so nothing is restored. */
  function UpdateAt(s: Pi, version: nat, i: nat): Pi {
    var begun := Transaction(Stopping, false, s.package, version);
    if i == 0 then s
    else if i == 1 then s.(transaction := Some(begun), restored := false)
    else
      var started := begun.(packageStarted := true);
      if i == 2 then s.(transaction := Some(started.(phase := Installing)), restored := false)
      else if i == 3 then Pi(Some(started.(phase := Installing)), version, s.data, false)
      else if i == 4 then Pi(Some(started.(phase := Migrating)), version, s.data, false)
      else if i == 5 then Pi(Some(started.(phase := Migrating)), version, Mixed, false)
      else if i == 6 then Pi(Some(started.(phase := Migrating)), version, At(version), false)
      else if i == 7 then Pi(Some(started.(phase := ReadyToStart)), version, At(version), false)
      else Pi(Some(started.(phase := Complete)), version, At(version), false)
  }

  predicate RecoverAllowed(s: Pi) {
    s.transaction.Some? && s.transaction.value.phase != Complete && s.transaction.value.phase != Recovered
  }

  function RecoverChanges(s: Pi): nat {
    if s.transaction.None? || !s.transaction.value.packageStarted then 2 else if s.restored then 3 else 5
  }

  /** The Pi after the first i changes of a recovery. Without a started package there is nothing to roll
      back; roots that an earlier recovery has restored are left alone. */
  function RecoverAt(s: Pi, i: nat): Pi
    requires s.transaction.Some?
  {
    var t := s.transaction.value;
    if i == 0 then s
    else if !t.packageStarted then InPhase(s, if i == 1 then ReadyToStart else Recovered)
    else
      var rolled := s.(package := t.previous);
      if i == 1 then rolled
      else if s.restored then InPhase(rolled, if i == 2 then ReadyToStart else Recovered)
      else if i == 2 then rolled.(data := Mixed)
      else
        var restored := rolled.(data := At(t.previous), restored := true);
        if i == 3 then restored else InPhase(restored, if i == 4 then ReadyToStart else Recovered)
  }

  /** How a command that is cut off ends: the power goes, or an exception is raised, possibly between
      marking the transaction as started and the update's own note of it. An update that finishes is
      one that loses power after its last change. */
  datatype Ending = PowerLost | Raised(between: bool)

  function Min(a: nat, b: nat): nat { if a < b then a else b }

  /** What the exception handler leaves after i changes of an update: it saves the transaction as it is
      in memory, under a phase that depends on the update's note. */
  function Handled(s: Pi, i: nat, ending: Ending): Pi {
    if i == 0 || ending.PowerLost? || s.transaction.None? then s
    else
      var t := s.transaction.value;
      if i > 2 || (i == 2 && !ending.between) then s.(transaction := Some(t.(phase := Phase.Failed)))
      else s.(transaction :=
        Some(t.(phase := FailedBeforeInstall, packageStarted := t.packageStarted || ending.between)))
  }

  // ---- the commands themselves, cut off anywhere ----

  datatype Command = Upgrade(version: nat, changes: nat, ending: Ending) | Recovery(changes: nat)

  function Apply(s: Pi, c: Command): Pi {
    match c
    case Upgrade(version, changes, ending) =>
      if !UpdateAllowed(s) then s
      else Handled(UpdateAt(s, version, Min(changes, UPDATE_CHANGES)), changes, ending)
    case Recovery(changes) =>
      if !RecoverAllowed(s) then s else RecoverAt(s, Min(changes, RecoverChanges(s)))
  }

  class Device {
    var state: Pi
    var left: nat   // changes before the command in progress is cut off

    constructor (state: Pi)
      ensures this.state == state
    {
      this.state, left := state, 0;
    }

    /** One change of the disk, unless the command is cut off before it. */
    method Change(next: Pi) returns (done: bool)
      modifies this
      ensures done == (old(left) > 0)
      ensures state == (if done then next else old(state)) && left == (if done then old(left) - 1 else 0)
    {
      if left == 0 {
        return false;
      }
      state, left := next, left - 1;
      return true;
    }

    method SavePhase(phase: Phase) returns (done: bool)
      modifies this
      ensures done == (old(left) > 0)
      ensures state == (if done then InPhase(old(state), phase) else old(state))
              && left == (if done then old(left) - 1 else 0)
    {
      done := Change(InPhase(state, phase));
    }

    /** The steps of an update inside its try block; false when cut off. */
    method UpdateSteps(version: nat) returns (finished: bool, started: bool)
      modifies this
      ensures var n := Min(old(left), UPDATE_CHANGES);
              && state == UpdateAt(old(state), version, n)
              && finished == (n == UPDATE_CHANGES) && started == (n >= 2)
    {
      started := false;
      var ok := Change(state.(
        transaction := Some(Transaction(Stopping, false, state.package, version)), restored := false));
      if !ok { return false, started; }
      ok := Change(state.(transaction := Some(state.transaction.value.(phase := Installing, packageStarted := true))));
      if !ok { return false, started; }
      started := true;
      ok := Change(state.(package := version));
      if !ok { return false, started; }
      ok := SavePhase(Migrating);
      if !ok { return false, started; }
      ok := Change(state.(data := Mixed));
      if !ok { return false, started; }
      ok := Change(state.(data := At(version)));
      if !ok { return false, started; }
      ok := SavePhase(ReadyToStart);
      if !ok { return false, started; }
      ok := SavePhase(Complete);
      return ok, started;
    }

    /** An update that is cut off after `changes` changes; refused while one is unfinished. */
    method Update(version: nat, changes: nat, ending: Ending)
      modifies this
      ensures state == Apply(old(state), Upgrade(version, changes, ending))
    {
      if state.transaction.Some? && !SafePhase(state.transaction.value.phase) {
        return;
      }
      left := changes;
      var finished, started := UpdateSteps(version);
      if changes > 0 && ending.Raised? {
        var transaction := state.transaction.value;
        if changes == 1 && ending.between {
          transaction := transaction.(packageStarted := true);
        }
        var noted := started && !(changes == 2 && ending.between);
        state :=
          state.(transaction := Some(transaction.(phase := if noted then Phase.Failed else FailedBeforeInstall)));
      }
    }

    /** A recovery that is cut off after `changes` changes; it has no exception handler. */
    method Recover(changes: nat)
      modifies this
      ensures state == Apply(old(state), Recovery(changes))
    {
      if state.transaction.None? || state.transaction.value.phase == Complete
        || state.transaction.value.phase == Recovered {
        return;
      }
      left := changes;
      var ok;
      if state.transaction.value.packageStarted {
        ok := Change(state.(package := state.transaction.value.previous));
        if !ok { return; }
        if !state.restored {
          ok := Change(state.(data := Mixed));
          if !ok { return; }
          ok := Change(state.(data := At(state.transaction.value.previous), restored := true));
          if !ok { return; }
        }
      }
      ok := SavePhase(ReadyToStart);
      if !ok { return; }
      ok := SavePhase(Recovered);
    }
  }

  // ---- what each command leaves ----

  /** An update that is not cut off ends with the new version installed and its data migrated. The
      application may start and be updated again, and there is nothing to recover. */
  lemma FinishedUpdate(s: Pi, version: nat, changes: nat)
    requires UpdateAllowed(s) && changes >= UPDATE_CHANGES
    ensures var t := Apply(s, Upgrade(version, changes, PowerLost));
            && t.package == version && t.data == At(version)
            && t.transaction.Some? && t.transaction.value.previous == s.package
            && LaunchAllowed(t) && UpdateAllowed(t) && !RecoverAllowed(t)
  {
  }

  /** An update that loses power on the way: the package is new from the third change on, the data changes
      between the fourth and the sixth, and the gate is shut until all of that is over. The recovery that is
      called for finds out whether the package was started on, and which one it was before. */
  lemma UpdateCutOff(s: Pi, version: nat, changes: nat)
    requires UpdateAllowed(s) && 0 < changes < UPDATE_CHANGES
    ensures var t := Apply(s, Upgrade(version, changes, PowerLost));
            && t.package == (if changes < 3 then s.package else version)
            && t.data == (if changes < 5 then s.data else if changes == 5 then Mixed else At(version))
            && t.transaction.Some? && t.transaction.value.previous == s.package
            && t.transaction.value.version == version
            && (t.transaction.value.packageStarted <==> changes >= 2)
            && (LaunchAllowed(t) <==> changes == 7) && !UpdateAllowed(t) && RecoverAllowed(t)
  {
  }

  /** An exception before the update has noted that it started on the package leaves package and data alone
      and the gate open; one after that shuts the gate until a recovery. */
  lemma UpdateRaised(s: Pi, version: nat, changes: nat, between: bool)
    requires UpdateAllowed(s) && changes > 0
    ensures var t := Apply(s, Upgrade(version, changes, Raised(between)));
            && t.transaction.Some? && t.transaction.value.previous == s.package && RecoverAllowed(t)
            && if changes == 1 || (changes == 2 && between) then
                 && LaunchAllowed(t) && UpdateAllowed(t) && t.package == s.package && t.data == s.data
                 && (t.transaction.value.packageStarted <==> between)
               else !LaunchAllowed(t) && !UpdateAllowed(t) && t.transaction.value.packageStarted
  {
  }

  /** A command that is refused, or cut off before its first change, changes nothing. */
  lemma Refused(s: Pi, version: nat, changes: nat, ending: Ending)
    ensures !UpdateAllowed(s) || changes == 0 ==> Apply(s, Upgrade(version, changes, ending)) == s
    ensures !RecoverAllowed(s) || changes == 0 ==> Apply(s, Recovery(changes)) == s
    ensures !UpdateAllowed(s) ==> RecoverAllowed(s)
  {
  }

  /** A recovery that is cut off: it goes back to the old package first, then restores the data, and opens
      the gate after both; until then the phase stays what it was. */
  lemma RecoveryCutOff(s: Pi, changes: nat)
    requires RecoverAllowed(s) && s.transaction.value.packageStarted && 0 < changes
    ensures var t, was := Apply(s, Recovery(changes)), s.transaction.value;
            && t.package == was.previous
            && t.data
               == (if s.restored || changes == 1 then s.data else if changes == 2 then Mixed else At(was.previous))
            && (t.restored <==> s.restored || changes >= 3)
            && t.transaction == Some(was.(phase :=
                 if changes < (if s.restored then 2 else 4) then was.phase
                 else if changes == (if s.restored then 2 else 4) then ReadyToStart else Recovered))
  {
  }

  /** Where the package was not started on, a recovery only opens the gate. */
  lemma RecoveryOfNothing(s: Pi, changes: nat)
    requires RecoverAllowed(s) && !s.transaction.value.packageStarted && 0 < changes
    ensures Apply(s, Recovery(changes)) == InPhase(s, if changes == 1 then ReadyToStart else Recovered)
  {
  }

  // ---- the gate over whole runs ----

  lemma UpdateGated(s: Pi, version: nat, i: nat, ending: Ending)
    requires Gated(s) && UpdateAllowed(s)
    ensures Gated(UpdateAt(s, version, i))
    ensures Gated(Handled(UpdateAt(s, version, Min(i, UPDATE_CHANGES)), i, ending))
  {
  }

  /** This recovery changes data behind an open gate: the application may start, the transaction was
      started on, and its roots are not restored yet. */
  predicate InTheOpen(s: Pi) {
    LaunchAllowed(s) && s.transaction.Some? && s.transaction.value.packageStarted && !s.restored
  }

  /** A recovery keeps the gate at every one of its changes if and only if it does not start that way. */
  lemma RecoverGatedExactly(s: Pi)
    requires Gated(s) && RecoverAllowed(s)
    ensures (forall i :: 0 <= i <= RecoverChanges(s) ==> Gated(RecoverAt(s, i))) <==> !InTheOpen(s)
  {
    if InTheOpen(s) {
      assert !Gated(RecoverAt(s, 2));
    }
  }

  /** And it never comes to start that way by being cut off. */
  lemma NotIntoTheOpen(s: Pi, i: nat)
    requires Gated(s) && RecoverAllowed(s) && !InTheOpen(s) && i <= RecoverChanges(s)
    ensures Gated(RecoverAt(s, i)) && !InTheOpen(RecoverAt(s, i))
  {
    RecoverGatedExactly(s);
  }

  function Run(s: Pi, commands: seq<Command>): Pi {
    if commands == [] then s else Apply(Run(s, commands[..|commands| - 1]), commands[|commands| - 1])
  }

  /** No recovery of the run changes data behind an open gate. */
  predicate RecoversBehindTheGate(s: Pi, commands: seq<Command>) {
    commands == [] ||
    var before := Run(s, commands[..|commands| - 1]);
    && RecoversBehindTheGate(s, commands[..|commands| - 1])
    && (commands[|commands| - 1].Recovery? && RecoverAllowed(before) ==> !InTheOpen(before))
  }

  /** Launch gate: through any sequence of updates and recoveries, each cut off anywhere by a crash or
      an exception, the gate is only open while package and data agree. */
  lemma {:induction false} GateHolds(s: Pi, commands: seq<Command>)
    requires Gated(s) && RecoversBehindTheGate(s, commands)
    ensures Gated(Run(s, commands))
  {
    if commands != [] {
      var before := Run(s, commands[..|commands| - 1]);
      GateHolds(s, commands[..|commands| - 1]);
      match commands[|commands| - 1]
      case Upgrade(version, changes, ending) =>
        if UpdateAllowed(before) {
          UpdateGated(before, version, changes, ending);
        }
      case Recovery(_) =>
        if RecoverAllowed(before) {
          RecoverGatedExactly(before);
        }
    }
  }

  /** A recovery that is not cut off opens the gate again on a package and data that agree: both old
      when the package had been started on, both as they were when it had not. */
  lemma RecoveryOpensTheGate(s: Pi)
    requires Gated(s) && RecoverAllowed(s)
    ensures var r := RecoverAt(s, RecoverChanges(s));
            && LaunchAllowed(r) && UpdateAllowed(r) && !RecoverAllowed(r) && Gated(r)
            && r.package == (if s.transaction.value.packageStarted then s.transaction.value.previous else s.package)
  {
  }

  /** The cases the gate does not cover, as far as runs can come to them: an update that lost power after
      saving ready-to-start, or that was interrupted between marking its transaction as started and noting
      so, which the handler takes for a failure before the installation. */
  lemma {:induction false} OpenInTwoWays(s: Pi, commands: seq<Command>)
    requires s.transaction.None? || SafePhase(s.transaction.value.phase)
    requires s.transaction.Some? ==> s.transaction.value.phase != FailedBeforeInstall
    ensures var t := Run(s, commands);
            RecoverAllowed(t) && InTheOpen(t) ==>
              t.transaction.value.phase == ReadyToStart
              || (t.transaction.value.phase == FailedBeforeInstall && t.package == t.transaction.value.previous)
  {
    if commands != [] {
      OpenInTwoWays(s, commands[..|commands| - 1]);
    }
  }

  const CLEAN := Pi(None, 1, At(1), false)

  /** The first of them: an update cut off after saving ready-to-start, then a recovery cut off while the
      data is being restored. The application may start on data that is neither old nor new. */
  lemma RecoveryFromReadyToStart()
    ensures var s := Run(CLEAN, [Upgrade(2, 7, PowerLost), Recovery(2)]);
            LaunchAllowed(s) && !Agree(s)
  {
    var first := Upgrade(2, 7, PowerLost);
    var commands := [first, Recovery(2)];
    assert commands[..1] == [first] && [first][..0] == [];
    assert Run(CLEAN, [first]) == Apply(CLEAN, first);
  }

  /** The second: an update interrupted between marking its transaction as started and noting so. */
  lemma RecoveryFromTheMark()
    ensures var s := Run(CLEAN, [Upgrade(2, 2, Raised(true)), Recovery(2)]);
            LaunchAllowed(s) && !Agree(s)
  {
    var first := Upgrade(2, 2, Raised(true));
    var commands := [first, Recovery(2)];
    assert commands[..1] == [first] && [first][..0] == [];
    assert Run(CLEAN, [first]) == Apply(CLEAN, first);
  }

  /** An update cut off while migrating, and its recovery cut off after saving ready-to-start. */
  const INTERRUPTED := [Upgrade(2, 5, PowerLost), Recovery(4)]

  /** A recovery that is cut off after saving ready-to-start, on the other hand, can be run again: it also
      starts behind an open gate, but leaves the restored roots alone. */
  lemma RecoveryAgain(changes: nat)
    ensures LaunchAllowed(Run(CLEAN, INTERRUPTED)) && RecoverAllowed(Run(CLEAN, INTERRUPTED))
    ensures RecoversBehindTheGate(CLEAN, INTERRUPTED + [Recovery(changes)])
    ensures Gated(Run(CLEAN, INTERRUPTED + [Recovery(changes)]))
  {
    var first, third := Upgrade(2, 5, PowerLost), Recovery(changes);
    var commands := INTERRUPTED + [third];
    assert commands[..2] == INTERRUPTED && INTERRUPTED[..1] == [first] && [first][..0] == [];
    assert Run(CLEAN, [first]) == Apply(CLEAN, first);
    assert RecoversBehindTheGate(CLEAN, [first]) && RecoversBehindTheGate(CLEAN, INTERRUPTED);
    assert RecoversBehindTheGate(CLEAN, commands);
    GateHolds(CLEAN, commands);
  }
}
