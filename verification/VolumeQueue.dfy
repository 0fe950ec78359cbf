/** Volume turns of the hardware menu: coalesced into a queue, sent in batches, and replayed by the
    player one step at a time under a saturating volume.
    Models Menu.queue_volume, the queue part of Menu.poll_state and the payload of read_state in
    scripts/raspberry-pi/menu.py; one volume step is the unit, so the volume runs from 0 to 40. */
module VolumeQueue {
  import opened Wrappers

  const MAX_STEPS := 40

  function Clamp(x: int): (r: int) {
    if x < -MAX_STEPS then -MAX_STEPS else if x > MAX_STEPS then MAX_STEPS else x
  }

  predicate InRange(level: real) {
    0.0 <= level <= MAX_STEPS as real
  }

  /** A turn by some steps, stopping at either end. */
  function Turn(level: real, steps: int): (r: real)
    requires InRange(level)
    ensures InRange(r)
  {
    var moved := level + steps as real;
    if moved < 0.0 then 0.0 else if moved > MAX_STEPS as real then MAX_STEPS as real else moved
  }

  /** Turns made one after the other. */
  function Turns(level: real, turns: seq<int>): (r: real)
    requires InRange(level)
    ensures InRange(r)
  {
    if turns == [] then level else Turn(Turns(level, turns[..|turns| - 1]), turns[|turns| - 1])
  }

  /** The queue after another turn: joined to the last batch when that goes the same way. */
  function Queued(pending: seq<int>, delta: int): seq<int> {
    var steps := Clamp(delta);
    var n := |pending|;
    if n > 0 && (pending[n - 1] > 0) == (steps > 0)
    then pending[..n - 1] + [Clamp(steps + pending[n - 1])]
    else pending + [steps]
  }

  /** Nonzero batches of at most 40 steps that alternate in direction. */
  predicate Alternating(pending: seq<int>) {
    && (forall i :: 0 <= i < |pending| ==> pending[i] != 0 && -MAX_STEPS <= pending[i] <= MAX_STEPS)
    && (forall i :: 0 < i < |pending| ==> (pending[i] > 0) != (pending[i - 1] > 0))
  }

  lemma {:induction false} TurnsConcat(level: real, a: seq<int>, b: seq<int>)
    requires InRange(level)
    ensures Turns(level, a + b) == Turns(Turns(level, a), b)
  {
    if b == [] {
      assert a + b == a;
    } else {
      TurnsConcat(level, a, b[..|b| - 1]);
      assert (a + b)[..|a + b| - 1] == a + b[..|b| - 1];
    }
  }

  /** Cutting a turn to the length of the scale, or joining two turns that do not go opposite ways,
      moves every level the same. */
  lemma JoinedTurns(level: real, a: int, b: int)
    requires InRange(level) && ((a >= 0 && b >= 0) || (a <= 0 && b <= 0))
    ensures Turn(Turn(level, a), Clamp(b)) == Turn(level, Clamp(Clamp(b) + a)) == Turn(Turn(level, a), b)
  {
  }

  /** Queueing a turn means that turn, whatever is pending. */
  lemma QueuedMeans(level: real, pending: seq<int>, delta: int)
    requires InRange(level)
    ensures Turns(level, Queued(pending, delta)) == Turns(level, pending + [delta])
  {
    var n, steps := |pending|, Clamp(delta);
    assert (pending + [delta])[..n] == pending;
    if n > 0 && (pending[n - 1] > 0) == (steps > 0) {
      var before := Turns(level, pending[..n - 1]);
      assert Queued(pending, delta)[..n - 1] == pending[..n - 1];
      JoinedTurns(before, pending[n - 1], delta);
    } else {
      assert (pending + [steps])[..n] == pending;
      JoinedTurns(Turns(level, pending), 0, delta);
    }
  }

  /** The two sequences of turns move every level to the same level. */
  ghost predicate SameTurns(a: seq<int>, b: seq<int>) {
    forall level: real :: InRange(level) ==> Turns(level, a) == Turns(level, b)
  }

  /** Batches sent and pending that mean the raw turns still do after another turn is queued. */
  lemma QueuedSameTurns(sent: seq<int>, pending: seq<int>, turned: seq<int>, delta: int)
    requires SameTurns(sent + pending, turned)
    ensures SameTurns(sent + Queued(pending, delta), turned + [delta])
  {
    hide Turn, Turns, Queued, InRange;
    forall level: real | InRange(level)
      ensures Turns(level, sent + Queued(pending, delta)) == Turns(level, turned + [delta])
    {
      TurnsConcat(level, sent, Queued(pending, delta));
      QueuedMeans(Turns(level, sent), pending, delta);
      TurnsConcat(level, sent, pending + [delta]);
      assert sent + (pending + [delta]) == (sent + pending) + [delta];
      TurnsConcat(level, sent + pending, [delta]);
      TurnsConcat(level, turned, [delta]);
    }
  }

  lemma QueuedAlternates(pending: seq<int>, delta: int)
    requires Alternating(pending) && delta != 0
    ensures Alternating(Queued(pending, delta))
  {
  }

  /** Turns that go opposite ways must stay apart: joining two batches of at most 40 steps moves every
      level the same exactly when they do not go opposite ways. */
  lemma JoiningIsExact(a: int, b: int)
    requires -MAX_STEPS <= a <= MAX_STEPS && -MAX_STEPS <= b <= MAX_STEPS
    ensures SameTurns([a, b], [Clamp(a + b)]) <==> (a >= 0 && b >= 0) || (a <= 0 && b <= 0)
  {
    if (a >= 0 && b >= 0) || (a <= 0 && b <= 0) {
      forall level: real | InRange(level) ensures Turns(level, [a, b]) == Turns(level, [Clamp(a + b)]) {
        FewTurns(level, a, b);
        JoinedTurns(level, a, b);
      }
    } else {
      var end := if a > 0 then MAX_STEPS as real else 0.0;
      FewTurns(end, a, b);
      assert InRange(end) && Turns(end, [a, b]) != Turns(end, [Clamp(a + b)]);
    }
  }

  lemma FewTurns(level: real, a: int, b: int)
    requires InRange(level)
    ensures Turns(level, [a, b]) == Turn(Turn(level, a), b)
    ensures Turns(level, [Clamp(a + b)]) == Turn(level, Clamp(a + b))
  {
    hide Turn, Clamp;
    assert [a, b][..1] == [a] && [a][..0] == [] && [Clamp(a + b)][..0] == [];
    assert Turns(level, [a]) == Turn(level, a);
  }

  // ---- whole runs ----

  datatype Event = Turned(delta: int) | Drained

  /** The batches sent and still pending, and the raw turns, after a run of turns and drains. */
  function Batches(events: seq<Event>): (r: (seq<int>, seq<int>)) {
    if events == [] then ([], []) else
    var (sent, pending) := Batches(events[..|events| - 1]);
    match events[|events| - 1]
    case Turned(delta) => (sent, Queued(pending, delta))
    case Drained => if pending == [] then (sent, pending) else (sent + [pending[0]], pending[1..])
  }

  function RawTurns(events: seq<Event>): seq<int> {
    if events == [] then [] else
    RawTurns(events[..|events| - 1])
      + if events[|events| - 1].Turned? then [events[|events| - 1].delta] else []
  }

  /** For every run of real turns with the queue drained at any moments, the batches sent followed by
      those pending mean the raw turns, and the pending ones stay well formed. */
  lemma {:induction false} RunMeansRawTurns(events: seq<Event>)
    requires forall i :: 0 <= i < |events| && events[i].Turned? ==> events[i].delta != 0
    ensures Alternating(Batches(events).1)
    ensures SameTurns(Batches(events).0 + Batches(events).1, RawTurns(events))
  {
    hide SameTurns, Queued;
    if events == [] {
      assert SameTurns([], []) by { SameAsItself([]); }
      assert [] + RawTurns(events) == [];
    } else {
      var before := events[..|events| - 1];
      RunMeansRawTurns(before);
      var (sent, pending) := Batches(before);
      match events[|events| - 1]
      case Turned(delta) =>
        QueuedAlternates(pending, delta);
        QueuedSameTurns(sent, pending, RawTurns(before), delta);
      case Drained =>
        assert RawTurns(events) == RawTurns(before);
        if pending != [] {
          assert (sent + [pending[0]]) + pending[1..] == sent + pending;
        }
    }
  }

  lemma SameAsItself(turns: seq<int>)
    ensures SameTurns(turns, turns)
  {
  }

  // ---- the payload ----

  function Repeat(line: string, n: nat): (r: seq<string>)
    ensures |r| == n
  {
    if n == 0 then [] else Repeat(line, n - 1) + [line]
  }

  /** The command lines one request sends. */
  function Payload(steps: int): seq<string> {
    (if steps > 0 then Repeat("volume_up", steps) else Repeat("volume_down", -steps)) + ["get_state"]
  }

  /** What the player does with command lines: each volume command is one saturating step. */
  function Played(level: real, lines: seq<string>): (r: real)
    requires InRange(level)
    ensures InRange(r)
  {
    if lines == [] then level else
    var before, line := Played(level, lines[..|lines| - 1]), lines[|lines| - 1];
    if line == "volume_up" then Turn(before, 1) else if line == "volume_down" then Turn(before, -1) else before
  }

  lemma {:induction false} RepeatedSteps(level: real, n: nat)
    requires InRange(level)
    ensures Played(level, Repeat("volume_up", n)) == Turn(level, n)
    ensures Played(level, Repeat("volume_down", n)) == Turn(level, -(n as int))
  {
    if n > 0 {
      RepeatedSteps(level, n - 1);
      assert Repeat("volume_up", n)[..n - 1] == Repeat("volume_up", n - 1);
      assert Repeat("volume_down", n)[..n - 1] == Repeat("volume_down", n - 1);
    }
  }

  /** The payload of a batch moves the player's volume by the batch, and asks for the state once, at
      the end. */
  lemma PayloadMeans(level: real, steps: int)
    requires InRange(level)
    ensures Played(level, Payload(steps)) == Turn(level, steps)
    ensures Payload(steps)[|Payload(steps)| - 1] == "get_state"
    ensures forall i :: 0 <= i < |Payload(steps)| - 1 ==> Payload(steps)[i] != "get_state"
  {
    var lines := if steps > 0 then Repeat("volume_up", steps) else Repeat("volume_down", -steps);
    assert Payload(steps)[..|Payload(steps)| - 1] == lines;
    RepeatedSteps(level, if steps > 0 then steps else -steps);
    RepeatedLines(if steps > 0 then "volume_up" else "volume_down", |lines|);
  }

  lemma {:induction false} RepeatedLines(line: string, n: nat)
    ensures forall i :: 0 <= i < n ==> Repeat(line, n)[i] == line
  {
    if n > 0 {
      RepeatedLines(line, n - 1);
    }
  }

  // ---- the menu's side ----

  datatype Reply = Succeeded | Failed

  class VolumeMenu {
    var pending: seq<int>
    var waiting: bool          // a request is with the worker

    ghost var turned: seq<int> // the raw turns since the queue was last emptied
    ghost var sent: seq<int>   // the batches handed to the worker since then

    /** For every level the batches sent and those still pending mean the raw turns. */
    ghost predicate Valid()
      reads this
    {
      Alternating(pending) && SameTurns(sent + pending, turned)
    }

    constructor ()
      ensures Valid() && pending == [] && turned == [] && sent == [] && !waiting
    {
      pending, waiting, turned, sent := [], false, [], [];
    }

    /** The volume screen only queues real turns. */
    method QueueVolume(delta: int)
      requires Valid() && delta != 0
      modifies this
      ensures Valid() && waiting == old(waiting)
      ensures pending == Queued(old(pending), delta)
      ensures turned == old(turned) + [delta] && sent == old(sent)
    {
      hide SameTurns, Alternating;
      ghost var was := pending;
      var steps := Clamp(delta);
      if |pending| > 0 && (pending[|pending| - 1] > 0) == (steps > 0) {
        steps := steps + pending[|pending| - 1];
        pending := pending[..|pending| - 1];
        steps := Clamp(steps);
      }
      pending := pending + [steps];
      turned := turned + [delta];
      QueuedAlternates(was, delta);
      QueuedSameTurns(sent, was, old(turned), delta);
    }

    /** Empties the queue: leaving the screen, falling asleep, or closing. */
    method Clear()
      modifies this
      ensures Valid() && pending == [] && turned == [] && sent == [] && waiting == old(waiting)
    {
      pending, turned, sent := [], [], [];
    }

    /** One poll: takes a finished reply, and hands the oldest batch to a free worker. A failed request
        may have moved the volume, so nothing pending is replayed after it. */
    method PollState(reply: Option<Reply>, due: bool, visible: bool) returns (request: Option<int>)
      requires Valid()
      modifies this
      ensures Valid()
      ensures var failed := old(waiting) && reply == Some(Reply.Failed);
              var queue := if failed then [] else old(pending);
              var free := !old(waiting) || reply.Some?;
              && (request.Some? <==> free && visible && (queue != [] || due))
              && waiting == (!free || request.Some?)
              && (request.Some? && queue != [] ==> request.value == queue[0] && pending == queue[1..])
              && (request.Some? && queue == [] ==> request.value == 0 && pending == [])
              && (request.None? ==> pending == queue)
              && turned == (if failed then [] else old(turned))
              && sent == (if failed then [] else old(sent))
                         + (if request.Some? && queue != [] then [request.value] else [])
    {
      if waiting && reply.Some? {
        if reply.value.Failed? {
          Clear();
        }
        waiting := false;
      }
      request := None;
      if !visible {
        return;
      }
      if !waiting && (pending != [] || due) {
        var steps := 0;
        if pending != [] {
          steps := pending[0];
          assert sent + pending == (sent + [steps]) + pending[1..];
          sent := sent + [steps];
          pending := pending[1..];
        }
        waiting := true;
        request := Some(steps);
      }
    }
  }
}
