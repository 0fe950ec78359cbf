/** The recovery as a whole: the package, the roots of the backup one write at a time, and the phases of
    the transaction. Wherever it is cut off, it has made one of the changes of `LaunchGate.RecoverAt`, so
    what is proved of the gate holds of the recovery that works on files.
    Models `recover` of scripts/raspberry-pi/charnel.py. */
module LaunchRecovery {
  import opened Wrappers
  import opened Trees
  import opened LaunchGate
  import PiSnapshot
  import PiRecovery

  class Pi {
    const recovery: PiRecovery.Device
    var transaction: Option<Transaction>
    var package: nat
    ghost var start: Tree      // the disk when the transaction's first recovery began
    ghost var before: Data     // and what its data was
    ghost var begun: bool      // a root has been worked on since

    constructor (site: PiSnapshot.Site, files: Tree, transaction: Transaction, package: nat, ghost before: Data)
      requires PiRecovery.Recoverable(site, files)
      ensures Valid() && fresh(recovery) && recovery.site == site && recovery.files == files
      ensures this.transaction == Some(transaction) && this.package == package
      ensures start == files && !begun && this.before == before
    {
      recovery := new PiRecovery.Device(site, files);
      this.transaction, this.package := Some(transaction), package;
      start, this.before, begun := files, before, false;
      new;
      PiRecovery.StartConsistent(site, files);
    }

    ghost predicate Valid()
      reads this, recovery
    {
      && transaction.Some?
      && PiRecovery.Recoverable(recovery.site, start)
      && PiRecovery.Consistent(recovery.site, start, recovery.files, recovery.progress, recovery.draws)
      && (!begun ==> recovery.files == start && recovery.progress == map[])
    }

    /** recovery.json says that every root is restored. */
    predicate RootsRestored()
      reads this, recovery
    {
      PiRecovery.RestoredUpTo(recovery.progress, |recovery.site.entries|)
    }

    /** What the gate sees of this Pi. */
    ghost function View(): LaunchGate.Pi
      requires transaction.Some?
      reads this, recovery
    {
      var data := if RootsRestored() then At(transaction.value.previous) else if begun then Mixed else before;
      LaunchGate.Pi(transaction, package, data, RootsRestored())
    }

    /** Saves a phase, unless the power is used up. */
    method SavePhase(phase: Phase, power: nat) returns (left: nat, done: bool)
      requires Valid()
      modifies this`transaction
      ensures Valid() && done == (power > 0) && left == (if done then power - 1 else 0)
      ensures View() == if done then InPhase(old(View()), phase) else old(View())
    {
      if power == 0 {
        return 0, false;
      }
      transaction := Some(transaction.value.(phase := phase));
      return power - 1, true;
    }

    /** The data part of a recovery: it leaves the data as it was, in between, or restored; roots that were
        restored before are left alone. */
    method RestoreData(power: nat) returns (left: nat, done: bool)
      requires Valid()
      modifies this`begun, recovery
      ensures Valid() && start == old(start)
      ensures done ==> RootsRestored()
      ensures old(RootsRestored()) ==> done && left == power && View() == old(View())
      ensures !old(RootsRestored()) && RootsRestored() ==>
                View() == old(View()).(data := At(old(transaction).value.previous), restored := true)
      ensures !RootsRestored() ==> View() == old(View()) || View() == old(View()).(data := Mixed)
      ensures power >= PiRecovery.Remaining(recovery.site, start, old(recovery.progress), |recovery.site.entries|) ==>
                && done
                && left + PiRecovery.Remaining(recovery.site, start, old(recovery.progress), |recovery.site.entries|)
                   >= power
      ensures forall i :: PiRecovery.Recorded(old(recovery.progress), i) == Some(PiRecovery.Restored) ==>
                PiRecovery.Recorded(recovery.progress, i) == Some(PiRecovery.Restored)
    {
      hide PiRecovery.Consistent, PiRecovery.Recoverable, PiRecovery.Remaining;
      recovery.power := power;
      var outcome := recovery.Recover(start);
      begun := begun || recovery.files != old(recovery.files) || recovery.progress != old(recovery.progress);
      return recovery.power, outcome.Done?;
    }

    /** A recovery that is cut off after so many writes has made one of the changes of the gate's recovery,
        and all of them when it lasts long enough. */
    method Recover(power: nat) returns (ghost i: nat)
      requires Valid() && RecoverAllowed(View())
      modifies this`transaction, this`package, this`begun, recovery
      ensures Valid() && start == old(start)
      ensures i <= RecoverChanges(old(View())) && View() == RecoverAt(old(View()), i)
      ensures power >= 3 + PiRecovery.Remaining(recovery.site, start, old(recovery.progress), |recovery.site.entries|)
              ==> i == RecoverChanges(old(View()))
      ensures forall k :: PiRecovery.Recorded(old(recovery.progress), k) == Some(PiRecovery.Restored) ==>
                PiRecovery.Recorded(recovery.progress, k) == Some(PiRecovery.Restored)
    {
      hide PiRecovery.Consistent, PiRecovery.Recoverable, PiRecovery.Remaining, PiRecovery.RestoredUpTo;
      i := 0;
      ghost var s := View();
      var left, done := power, true;
      if transaction.value.packageStarted {
        if left == 0 {
          return;
        }
        package, left, i := transaction.value.previous, left - 1, 1;
        left, done := RestoreData(left);
        i := if s.restored then 1 else if RootsRestored() then 3 else if begun then 2 else 1;
        if !done {
          return;
        }
      }
      left, done := SavePhase(ReadyToStart, left);
      if !done {
        return;
      }
      i := i + 1;
      left, done := SavePhase(Phase.Recovered, left);
      if done {
        i := i + 1;
      }
    }

    /** Recovers again and again, each time until it is cut off. The gate is never open on a package and
        data that do not agree, and a run that lasts long enough ends the recovery. */
    method RecoverThroughCrashes(powers: seq<nat>)
      requires Valid() && Gated(View()) && RecoverAllowed(View()) && !InTheOpen(View())
      modifies this`transaction, this`package, this`begun, recovery
      ensures Valid() && Gated(View()) && (LaunchAllowed(View()) ==> Agree(View()))
      ensures !RecoverAllowed(View()) ==>
                transaction.value.phase == Phase.Recovered
                && (transaction.value.packageStarted ==> RootsRestored() && package == transaction.value.previous)
      ensures (exists k :: 0 <= k < |powers| && powers[k] >=
                 3 + PiRecovery.Remaining(recovery.site, old(start), map[], |recovery.site.entries|)) ==>
                transaction.value.phase == Phase.Recovered
    {
      hide PiRecovery.Consistent, PiRecovery.Recoverable, PiRecovery.Remaining, PiRecovery.RestoredUpTo;
      for r := 0 to |powers|
        invariant Valid() && start == old(start) && Gated(View()) && !InTheOpen(View()) && RecoverAllowed(View())
        invariant forall k :: 0 <= k < r ==>
          powers[k] < 3 + PiRecovery.Remaining(recovery.site, start, map[], |recovery.site.entries|)
      {
        ghost var s := View();
        PiRecovery.RemainingShrinks(recovery.site, start, map[], recovery.progress, |recovery.site.entries|);
        ghost var i := Recover(powers[r]);
        NotIntoTheOpen(s, i);
        if transaction.value.phase == Phase.Recovered {
          return;
        }
      }
    }
  }

  /** What the gate takes for the restored data is what the roots hold: each its backup, or nothing where
      there was nothing. */
  lemma RestoredData(p: Pi)
    requires p.Valid() && p.View().restored
    ensures p.View().data == At(p.transaction.value.previous)
    ensures forall i: nat :: i < |p.recovery.site.entries| ==>
              PiRecovery.At(p.recovery.site, p.recovery.files, PiSnapshot.Source(i))
              == PiRecovery.Backup(p.recovery.site, p.start, i)
  {
    PiRecovery.RecoveryRestores(p.recovery.site, p.start, p.recovery.files, p.recovery.progress, p.recovery.draws);
  }
}
