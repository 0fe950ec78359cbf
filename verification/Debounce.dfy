/** The push button of the hardware menu. Models class Button of scripts/raspberry-pi/menu.py; times
    are whole milliseconds. */
module Debounce {
  import opened Wrappers

  const DEBOUNCE := 30

  datatype Sample = Sample(pressed: bool, now: int)
  datatype State = State(pressed: bool, candidate: bool, changedAt: int)

  function Next(s: State, x: Sample): (r: (State, Option<bool>)) {
    var moved := if x.pressed != s.candidate then State(s.pressed, x.pressed, x.now) else s;
    if moved.candidate != moved.pressed && x.now - moved.changedAt >= DEBOUNCE
    then (moved.(pressed := moved.candidate), Some(moved.candidate))
    else (moved, None)
  }

  class Button {
    var pressed: bool
    var candidate: bool
    var changedAt: int

    constructor (pressed: bool, now: int)
      ensures Remembered() == State(pressed, pressed, now)
    {
      this.pressed, candidate, changedAt := pressed, pressed, now;
    }

    function Remembered(): State
      reads this
    {
      State(pressed, candidate, changedAt)
    }

    method Update(raw: bool, now: int) returns (edge: Option<bool>)
      modifies this
      ensures (Remembered(), edge) == Next(old(Remembered()), Sample(raw, now))
    {
      if raw != candidate {
        candidate, changedAt := raw, now;
      }
      if candidate != pressed && now - changedAt >= DEBOUNCE {
        pressed := candidate;
        return Some(pressed);
      }
      return None;
    }
  }

  function After(start: State, samples: seq<Sample>, k: nat): State
    requires k <= |samples|
  {
    if k == 0 then start else Next(After(start, samples, k - 1), samples[k - 1]).0
  }

  /** The input has read the same since a sample that is at least as old as the button says. */
  ghost predicate Steady(start: State, samples: seq<Sample>, k: nat, since: nat)
    requires since < k <= |samples|
  {
    && (forall i :: since <= i < k ==> samples[i].pressed == After(start, samples, k).candidate)
    && samples[since].now == After(start, samples, k).changedAt
  }

  lemma {:induction false} CandidateIsSteady(start: State, samples: seq<Sample>, k: nat)
    requires k <= |samples| && start.pressed == start.candidate
    ensures var s := After(start, samples, k);
            s.candidate != s.pressed ==> exists since: nat :: since < k && Steady(start, samples, k, since)
  {
    if k > 0 {
      CandidateIsSteady(start, samples, k - 1);
      var before, s := After(start, samples, k - 1), After(start, samples, k);
      if s.candidate != s.pressed {
        if samples[k - 1].pressed != before.candidate {
          assert Steady(start, samples, k, k - 1);
        } else {
          var since: nat :| since < k - 1 && Steady(start, samples, k - 1, since);
          assert Steady(start, samples, k, since);
        }
      }
    }
  }

  /** A press or release is reported only when the input has read the same for the whole settling
      time, and it always is the opposite of the state reported before. */
  lemma ReportsAreSettled(start: State, samples: seq<Sample>, k: nat)
    requires k < |samples| && start.pressed == start.candidate
    ensures var edge := Next(After(start, samples, k), samples[k]).1;
            edge.Some? ==>
              && edge.value != After(start, samples, k).pressed
              && edge.value == After(start, samples, k + 1).pressed
              && exists since: nat :: since < k && samples[k].now - samples[since].now >= 30
                   && forall i :: since <= i <= k ==> samples[i].pressed == edge.value
  {
    CandidateIsSteady(start, samples, k);
    var s := After(start, samples, k);
    if Next(s, samples[k]).1.Some? && samples[k].pressed == s.candidate {
      var since: nat :| since < k && Steady(start, samples, k, since);
      assert forall i :: since <= i <= k ==> samples[i].pressed == s.candidate;
    }
  }

  /** Times never go back. */
  predicate Ordered(start: State, samples: seq<Sample>) {
    && (samples != [] ==> start.changedAt <= samples[0].now)
    && forall i, k :: 0 <= i <= k < |samples| ==> samples[i].now <= samples[k].now
  }

  lemma {:induction false} ChangedBefore(start: State, samples: seq<Sample>, k: nat)
    requires k < |samples| && Ordered(start, samples)
    ensures After(start, samples, k).changedAt <= samples[k].now
  {
    if k > 0 {
      ChangedBefore(start, samples, k - 1);
      assert samples[k - 1].now <= samples[k].now;
    }
  }

  lemma {:induction false} CandidateSince(start: State, samples: seq<Sample>, since: nat, k: nat, pressed: bool)
    requires since <= k < |samples| && Ordered(start, samples)
    requires forall i :: since <= i <= k ==> samples[i].pressed == pressed
    ensures After(start, samples, k + 1).candidate == pressed
    ensures After(start, samples, k + 1).changedAt <= samples[since].now
  {
    if since < k {
      CandidateSince(start, samples, since, k - 1, pressed);
    } else {
      ChangedBefore(start, samples, k);
    }
  }

  /** An input that has read the same for the settling time is what the button reports: at the latest
      with that sample, and at once if it has not been reported before. */
  lemma SettledIsReported(start: State, samples: seq<Sample>, since: nat, k: nat, pressed: bool)
    requires since <= k < |samples| && Ordered(start, samples)
    requires forall i :: since <= i <= k ==> samples[i].pressed == pressed
    requires samples[k].now - samples[since].now >= 30
    ensures After(start, samples, k + 1).pressed == pressed
    ensures After(start, samples, k).pressed != pressed ==>
            Next(After(start, samples, k), samples[k]).1 == Some(pressed)
  {
    if since < k {
      CandidateSince(start, samples, since, k - 1, pressed);
    }
  }
}
