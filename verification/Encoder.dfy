/** The rotary encoder of the hardware menu: wrap-around counter arithmetic, rejection of implausible
    jumps, and a new baseline only after three consistent readings.
    Models class EncoderMotion of scripts/raspberry-pi/menu.py; times are whole milliseconds. */
module Encoder {
  import opened Wrappers

  const HALF := 0x8000_0000
  const FULL := 0x1_0000_0000
  const SETTLE_READS := 3

  /** The shortest way round a signed 32-bit counter from one reading to another. */
  function Difference(position: int, previous: int): (d: int)
    ensures -HALF <= d < HALF && exists k :: d == position - previous + k * FULL
    ensures -HALF <= position - previous < HALF ==> d == position - previous
  {
    var k := (position - previous + HALF) / FULL;
    assert (position - previous + HALF) % FULL - HALF == position - previous + (-k) * FULL;
    (position - previous + HALF) % FULL - HALF
  }

  function Abs(x: int): nat { if x < 0 then -x else x }

  datatype Reading = Reading(position: int, now: int)

  /** What the object remembers between readings. */
  datatype State = State(position: Option<int>, lastRead: Option<int>, candidate: Option<int>, settleReads: nat)

  const START := State(None, None, None, 0)

  /** Steps that are believable since the last reading: a small burst, and 200 a second for at most a
      quarter of a second. */
  function Limit(s: State, r: Reading): (limit: int)
    ensures 4 <= limit <= 54
  {
    var elapsed := if s.lastRead.None? || r.now < s.lastRead.value then 0 else r.now - s.lastRead.value;
    4 + (if elapsed < 250 then elapsed else 250) / 5
  }

  /** The reading is close enough to the baseline to be a turn. */
  predicate OnBaseline(s: State, r: Reading) {
    s.position.Some? && Abs(Difference(r.position, s.position.value)) <= Limit(s, r)
  }

  /** The reading is close enough to the candidate to support it. */
  predicate NearCandidate(s: State, r: Reading) {
    s.candidate.Some? && Abs(Difference(r.position, s.candidate.value)) <= Limit(s, r)
  }

  /** The reading makes its position the new baseline. */
  predicate Settles(s: State, r: Reading) {
    !OnBaseline(s, r) && (if NearCandidate(s, r) then s.settleReads + 1 else 1) >= SETTLE_READS
  }

  function Next(s: State, r: Reading): State {
    if OnBaseline(s, r) then State(Some(r.position), Some(r.now), None, 0)
    else if Settles(s, r) then State(Some(r.position), Some(r.now), None, 0)
    else State(s.position, Some(r.now), Some(r.position), if NearCandidate(s, r) then s.settleReads + 1 else 1)
  }

  /** The counter steps a reading reports, before the configured direction is applied. */
  function Steps(s: State, r: Reading): (steps: int)
    ensures -54 <= steps <= 54
  {
    if OnBaseline(s, r) then Difference(r.position, s.position.value) else 0
  }

  class EncoderMotion {
    const direction: int
    var position: Option<int>
    var lastRead: Option<int>
    var candidate: Option<int>
    var settleReads: nat

    constructor (direction: int)
      ensures this.direction == direction && Remembered() == START
    {
      this.direction := direction;
      position, lastRead, candidate, settleReads := None, None, None, 0;
    }

    function Remembered(): State
      reads this
    {
      State(position, lastRead, candidate, settleReads)
    }

    method Update(raw: int, now: int) returns (movement: int)
      modifies this
      ensures Remembered() == Next(old(Remembered()), Reading(raw, now))
      ensures movement == direction * Steps(old(Remembered()), Reading(raw, now))
    {
      var elapsed := if lastRead.None? || now < lastRead.value then 0 else now - lastRead.value;
      lastRead := Some(now);
      var limit := 4 + (if elapsed < 250 then elapsed else 250) / 5;
      if position.Some? {
        var delta := Difference(raw, position.value);
        if Abs(delta) <= limit {
          position, candidate, settleReads := Some(raw), None, 0;
          return direction * delta;
        }
      }
      if candidate.Some? && Abs(Difference(raw, candidate.value)) <= limit {
        settleReads := settleReads + 1;
      } else {
        settleReads := 1;
      }
      candidate := Some(raw);
      if settleReads >= SETTLE_READS {
        position, candidate, settleReads := Some(raw), None, 0;
      }
      return 0;
    }
  }

  // ---- whole runs of readings ----

  /** The memory after the first k readings. */
  function After(readings: seq<Reading>, k: nat): State
    requires k <= |readings|
  {
    if k == 0 then START else Next(After(readings, k - 1), readings[k - 1])
  }

  /** All steps reported by readings i to k. */
  function Reported(readings: seq<Reading>, i: nat, k: nat): int
    requires i <= k <= |readings|
  {
    if k == i then 0 else Reported(readings, i, k - 1) + Steps(After(readings, k - 1), readings[k - 1])
  }

  /** How far the baseline jumped without being reported in readings i to k. */
  function Jumped(readings: seq<Reading>, i: nat, k: nat): int
    requires i <= k <= |readings|
  {
    if k == i then 0 else
    var s, r := After(readings, k - 1), readings[k - 1];
    Jumped(readings, i, k - 1) + if Settles(s, r) && s.position.Some? then r.position - s.position.value else 0
  }

  /** Once there is a baseline there always is one. */
  lemma {:induction false} BaselineStays(readings: seq<Reading>, i: nat, k: nat)
    requires i <= k <= |readings| && After(readings, i).position.Some?
    ensures After(readings, k).position.Some?
  {
    if i < k {
      BaselineStays(readings, i, k - 1);
    }
  }

  /** Accounting: over any stretch of readings that starts with a baseline, the reported steps and the
      unreported jumps add up to the movement of the baseline, modulo 2^32. */
  lemma {:induction false} Accounting(readings: seq<Reading>, i: nat, k: nat) returns (wraps: int)
    requires i <= k <= |readings| && After(readings, i).position.Some?
    ensures After(readings, k).position.Some?
    ensures Reported(readings, i, k) + Jumped(readings, i, k)
            == After(readings, k).position.value - After(readings, i).position.value + wraps * FULL
  {
    BaselineStays(readings, i, k);
    if i == k {
      wraps := 0;
    } else {
      var before := Accounting(readings, i, k - 1);
      var s, r := After(readings, k - 1), readings[k - 1];
      if OnBaseline(s, r) {
        var turns :| Difference(r.position, s.position.value) == r.position - s.position.value + turns * FULL;
        wraps := before + turns;
      } else {
        wraps := before;
      }
    }
  }

  /** The last n readings before k were all off the baseline, and each after the first was within the
      limit of the one before it. */
  ghost predicate Consistent(readings: seq<Reading>, k: nat, n: nat)
    requires n <= k <= |readings|
  {
    && (forall i :: k - n <= i < k ==> !OnBaseline(After(readings, i), readings[i]))
    && (forall i :: k - n < i < k ==>
          Abs(Difference(readings[i].position, readings[i - 1].position)) <= Limit(After(readings, i), readings[i]))
    && (forall i :: k - n <= i < k ==> After(readings, i).position == After(readings, k - n).position)
  }

  lemma ConsistentExtends(readings: seq<Reading>, k: nat, n: nat)
    requires n < k <= |readings|
    requires !OnBaseline(After(readings, k - 1), readings[k - 1])
    requires n > 0 ==>
               && Consistent(readings, k - 1, n)
               && After(readings, k - 1).position == After(readings, k - 1 - n).position
               && Abs(Difference(readings[k - 1].position, readings[k - 2].position))
                  <= Limit(After(readings, k - 1), readings[k - 1])
    ensures Consistent(readings, k, n + 1)
  {
    hide Difference, Limit, Abs, After, OnBaseline;
  }

  /** What the counter of settling reads stands for. */
  lemma {:induction false} SettleReadsMean(readings: seq<Reading>, k: nat)
    requires k <= |readings|
    ensures var s := After(readings, k);
            && s.settleReads < SETTLE_READS && s.settleReads <= k
            && (s.candidate.Some? <==> s.settleReads > 0)
            && (s.settleReads > 0 ==>
                  && s.candidate == Some(readings[k - 1].position)
                  && Consistent(readings, k, s.settleReads)
                  && s.position == After(readings, k - s.settleReads).position)
  {
    hide Difference, Limit, Abs;
    if k > 0 {
      SettleReadsMean(readings, k - 1);
      hide Consistent;
      var s := After(readings, k);
      if s.settleReads > 0 {
        ConsistentExtends(readings, k, s.settleReads - 1);
      }
    }
  }

  /** A baseline only jumps after three consecutive readings off the old one, each after the first
      within the limit of the one before. */
  lemma SettlesOnlyAfterThree(readings: seq<Reading>, k: nat)
    requires k < |readings|
    ensures Settles(After(readings, k), readings[k]) ==>
              && k >= 2 && Consistent(readings, k + 1, SETTLE_READS)
              && After(readings, k + 1).position == Some(readings[k].position)
  {
    hide Difference, Limit, Abs, Consistent;
    SettleReadsMean(readings, k);
    var s := After(readings, k);
    if Settles(s, readings[k]) {
      assert s.settleReads == 2 && NearCandidate(s, readings[k]);
      ConsistentExtends(readings, k + 1, 2);
    }
  }

  /** And it does jump then, unless an earlier one of the three was already the third of its own series. */
  lemma SettlesWithTheThird(readings: seq<Reading>, k: nat)
    requires k < |readings|
    ensures Settles(After(readings, k), readings[k]) <==>
              && After(readings, k).settleReads == 2
              && !OnBaseline(After(readings, k), readings[k])
              && Abs(Difference(readings[k].position, readings[k - 1].position))
                 <= Limit(After(readings, k), readings[k])
  {
    hide Difference, Limit, Abs;
    SettleReadsMean(readings, k);
    hide Consistent;
  }

  // ---- in terms of the readings alone ----

  /** How far reading k may lie from where it is looked for: four steps, and one more for every five
      milliseconds since the reading before it, up to a quarter of a second. */
  ghost function Reach(readings: seq<Reading>, k: nat): nat
    requires k < |readings|
  {
    if k == 0 || readings[k].now <= readings[k - 1].now then 4
    else if readings[k].now - readings[k - 1].now >= 250 then 54
    else 4 + (readings[k].now - readings[k - 1].now) / 5
  }

  /** Reading k lies that close to a position. */
  ghost predicate Near(readings: seq<Reading>, k: nat, position: int)
    requires k < |readings|
  {
    Abs(Difference(readings[k].position, position)) <= Reach(readings, k)
  }

  ghost predicate OffBaseline(readings: seq<Reading>, k: nat, baseline: Option<int>)
    requires k < |readings|
  {
    baseline.Some? ==> !Near(readings, k, baseline.value)
  }

  lemma ReachIsLimit(readings: seq<Reading>, k: nat)
    requires k < |readings|
    ensures Limit(After(readings, k), readings[k]) == Reach(readings, k)
  {
  }

  /** A reading near the baseline is a turn: its difference is reported, and it is the new baseline. Any
      other reading reports nothing. */
  lemma TurnIsReported(readings: seq<Reading>, k: nat)
    requires k < |readings|
    ensures var baseline, r := After(readings, k).position, readings[k];
            if OffBaseline(readings, k, baseline) then Steps(After(readings, k), r) == 0
            else
              && Steps(After(readings, k), r) == Difference(r.position, baseline.value)
              && After(readings, k + 1).position == Some(r.position)
  {
    hide Difference, Limit;
    ReachIsLimit(readings, k);
  }

  /** Three readings off one baseline, the second and the third near the one before, do settle: one of them
      becomes the baseline, the third if there is none in the two before. */
  lemma ThreeSettle(readings: seq<Reading>, k: nat)
    requires 2 <= k < |readings|
    requires var baseline := After(readings, k - 2).position;
             && OffBaseline(readings, k - 2, baseline) && OffBaseline(readings, k - 1, baseline)
             && OffBaseline(readings, k, baseline)
    requires Near(readings, k - 1, readings[k - 2].position) && Near(readings, k, readings[k - 1].position)
    ensures || After(readings, k - 1).position == Some(readings[k - 2].position)
            || After(readings, k).position == Some(readings[k - 1].position)
            || After(readings, k + 1).position == Some(readings[k].position)
  {
    hide Difference, Limit;
    SettleReadsMean(readings, k - 2);
    hide Consistent;
    ReachIsLimit(readings, k - 2);
    ReachIsLimit(readings, k - 1);
    ReachIsLimit(readings, k);
    if !Settles(After(readings, k - 2), readings[k - 2]) && !Settles(After(readings, k - 1), readings[k - 1]) {
      assert After(readings, k - 1).candidate == Some(readings[k - 2].position);
      assert After(readings, k).candidate == Some(readings[k - 1].position) && After(readings, k).settleReads == 2;
    }
  }

  /** From the start it is the third such reading, and then the next one near it is reported. */
  lemma FirstBaseline(readings: seq<Reading>)
    requires |readings| >= 4
    requires Near(readings, 1, readings[0].position) && Near(readings, 2, readings[1].position)
    ensures forall k :: 0 <= k < 3 ==> Steps(After(readings, k), readings[k]) == 0
    ensures After(readings, 3).position == Some(readings[2].position)
    ensures Near(readings, 3, readings[2].position) ==>
              Steps(After(readings, 3), readings[3]) == Difference(readings[3].position, readings[2].position)
  {
    hide Difference, Limit;
    ReachIsLimit(readings, 1);
    ReachIsLimit(readings, 2);
    assert After(readings, 0) == START && After(readings, 1).position.None? && After(readings, 2).position.None?;
    assert After(readings, 1).candidate == Some(readings[0].position) && After(readings, 1).settleReads == 1;
    assert After(readings, 2).candidate == Some(readings[1].position) && After(readings, 2).settleReads == 2;
    TurnIsReported(readings, 3);
  }

  /** The baseline changes in no other way: by the reported turn, or by settling. */
  lemma BaselineChanges(readings: seq<Reading>, k: nat)
    requires k < |readings| && After(readings, k + 1).position != After(readings, k).position
    ensures After(readings, k + 1).position == Some(readings[k].position)
    ensures OnBaseline(After(readings, k), readings[k]) || Settles(After(readings, k), readings[k])
  {
  }

  /** A single spike is forgotten: if the next reading is back at the baseline, what is remembered and
      reported from then on is what it would be without the spike, but for the time of the reading. */
  lemma SpikeForgotten(s: State, spike: Reading, back: Reading)
    requires s.settleReads == 0 && s.candidate.None? && !OnBaseline(s, spike)
    requires OnBaseline(Next(s, spike), back) && OnBaseline(s, back)
    ensures Next(Next(s, spike), back) == Next(s, back)
    ensures Steps(s, spike) + Steps(Next(s, spike), back) == Steps(s, back)
  {
  }

  /** What counts as a turn: four steps more than 200 a second would make since the last reading, and
      never more than 54. */
  lemma TurnsAreBelieved(s: State, r: Reading)
    requires s.position.Some? && s.lastRead.Some? && r.now >= s.lastRead.value
    ensures var moved, elapsed := Abs(Difference(r.position, s.position.value)), r.now - s.lastRead.value;
            OnBaseline(s, r) <==> moved <= 54 && moved * 1000 <= 200 * elapsed + 4000
  {
    var elapsed := r.now - s.lastRead.value;
    assert elapsed >= 250 ==> Limit(s, r) == 54;
  }
}
