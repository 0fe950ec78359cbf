/** The rounds of the blake3 backfill. A round takes the oldest hundred blobs without a hash, hashes
    those of them that can be hashed, and reports how many it hashed and how many have no hash yet.
    Models `run_blake3_backfill_rounds` of grimoire/src/upgrade.rs and the batches of
    `backfill_blake3_hashes`. */
module Backfill {

  const BATCH := 100

  /** Blobs without a hash, oldest first; whether each can be hashed. */
  type Backlog = seq<bool>

  datatype Result = Report(processed: nat, remaining: nat) | Error

  function Hashable(b: Backlog): (n: nat)
    ensures n <= |b|
  {
    if b == [] then 0 else Hashable(b[1..]) + if b[0] then 1 else 0
  }

  function Stuck(b: Backlog): (stuck: Backlog)
    ensures |stuck| == |b| - Hashable(b)
    ensures forall i :: 0 <= i < |stuck| ==> !stuck[i]
  {
    if b == [] then [] else (if b[0] then [] else [false]) + Stuck(b[1..])
  }

  function FirstBatch(b: Backlog): Backlog {
    if |b| <= BATCH then b else b[..BATCH]
  }

  /** The backlog after one round. */
  function AfterRound(b: Backlog): (r: Backlog)
    ensures |r| == |b| - Hashable(FirstBatch(b))
  {
    Stuck(FirstBatch(b)) + b[|FirstBatch(b)|..]
  }

  /** Fewer than a batch of blobs that cannot be hashed stand before each one that can. */
  ghost predicate Reachable(b: Backlog) {
    forall k :: 0 <= k < |b| && b[k] ==> |Stuck(b[..k])| < BATCH
  }

  /** The backlog after n rounds. */
  ghost function Rounds(b: Backlog, n: nat): Backlog {
    if n == 0 then b else AfterRound(Rounds(b, n - 1))
  }

  /** The next round is the last one: it hashes nothing, or leaves nothing. */
  ghost predicate LastRound(b: Backlog) {
    Hashable(FirstBatch(b)) == 0 || |AfterRound(b)| == 0
  }

  /** Runs rounds until nothing is left or a round hashes nothing; an error in a round, here round
      number failing, ends it. Afterwards every blob that can be hashed has been, if and only if no
      such blob stood behind a whole batch of older ones that cannot. */
  method RunBackfillRounds(start: Backlog, failing: nat) returns (result: Result, left: Backlog)
    ensures result.Report? ==>
              && result.remaining == |left| && result.processed + |left| == |start|
              && Hashable(FirstBatch(left)) == 0
              && (Hashable(left) == 0 <==> Reachable(start))
    ensures result.Error? <==> failing > 0 && forall n: nat :: n < failing - 1 ==> !LastRound(Rounds(start, n))
    ensures result.Error? ==> left == Rounds(start, failing - 1)
    ensures result.Report? ==> exists n: nat :: n > 0 && left == Rounds(start, n) && LastRound(Rounds(start, n - 1))
  {
    hide Reachable, Stuck;
    var totalProcessed, round := 0, 0;
    left := start;
    while true
      invariant totalProcessed + |left| == |start|
      invariant Reachable(left) <==> Reachable(start)
      invariant left == Rounds(start, round) && (failing == 0 || round < failing)
      invariant forall n: nat :: n < round ==> !LastRound(Rounds(start, n))
      decreases |left|
    {
      round := round + 1;
      if round == failing {
        return Error, left;
      }
      var processed := Hashable(FirstBatch(left));
      RoundKeepsReachable(left);
      if processed == 0 {
        NothingProcessed(left);
      }
      left := AfterRound(left);
      totalProcessed := totalProcessed + processed;
      assert left == Rounds(start, round) && LastRound(Rounds(start, round - 1)) == (processed == 0 || |left| == 0);
      if processed == 0 || |left| == 0 {
        NothingLeft();
        return Report(totalProcessed, |left|), left;
      }
    }
  }

  // ---- proofs ----

  lemma NothingLeft()
    ensures Reachable([]) && Hashable([]) == 0
  {
  }

  lemma StuckFirst(b: Backlog)
    requires b != []
    ensures Stuck(b) == (if b[0] then [] else [false]) + Stuck(b[1..])
    ensures Hashable(b) == Hashable(b[1..]) + if b[0] then 1 else 0
  {
  }

  lemma {:induction false} StuckConcat(a: Backlog, b: Backlog)
    ensures Stuck(a + b) == Stuck(a) + Stuck(b) && Hashable(a + b) == Hashable(a) + Hashable(b)
    decreases a, 1
  {
    if a == [] {
      assert a + b == b;
    } else {
      StuckLonger(a, b);
    }
  }

  lemma {:induction false} StuckLonger(a: Backlog, b: Backlog)
    requires a != []
    ensures Stuck(a + b) == Stuck(a) + Stuck(b) && Hashable(a + b) == Hashable(a) + Hashable(b)
    decreases a, 0
  {
    hide Stuck, Hashable;
    StuckConcat(a[1..], b);
    StuckFirst(a);
    StuckFirst(a + b);
    assert (a + b)[1..] == a[1..] + b && (a + b)[0] == a[0];
  }

  lemma {:induction false} AllStuck(b: Backlog)
    ensures Hashable(b) == 0 <==> forall i :: 0 <= i < |b| ==> !b[i]
    ensures Hashable(b) == 0 ==> Stuck(b) == b
  {
    if b != [] {
      AllStuck(b[1..]);
      assert Hashable(b) == 0 ==> [false] + b[1..] == b;
      assert b[0] ==> !(forall i :: 0 <= i < |b| ==> !b[i]);
      assert forall i :: 0 < i < |b| ==> b[i] == b[1..][i - 1];
    }
  }

  lemma Split(b: Backlog)
    ensures b == FirstBatch(b) + b[|FirstBatch(b)|..]
  {
  }

  lemma RoundKeepsReachable(b: Backlog)
    ensures Reachable(AfterRound(b)) <==> Reachable(b)
  {
    var batch := FirstBatch(b);
    var rest, stuck := b[|batch|..], Stuck(batch);
    var r := AfterRound(b);
    AllStuck(stuck);
    forall k | 0 <= k < |rest|
      ensures b[|batch| + k] == rest[k] == r[|stuck| + k]
      ensures |Stuck(b[..|batch| + k])| == |Stuck(r[..|stuck| + k])|
    {
      assert b[..|batch| + k] == batch + rest[..k] && r[..|stuck| + k] == stuck + rest[..k];
      StuckConcat(batch, rest[..k]);
      StuckConcat(stuck, rest[..k]);
      StuckTwice(batch);
    }
    if Reachable(r) {
      forall k | 0 <= k < |b| && b[k] ensures |Stuck(b[..k])| < BATCH {
        if k >= |batch| {
          assert rest[k - |batch|] == b[|batch| + (k - |batch|)];
          assert r[|stuck| + (k - |batch|)];
        }
      }
    }
    if Reachable(b) {
      forall k | 0 <= k < |r| && r[k] ensures |Stuck(r[..k])| < BATCH {
        assert k >= |stuck|;
        assert rest[k - |stuck|] == r[|stuck| + (k - |stuck|)];
        assert b[|batch| + (k - |stuck|)];
      }
    }
  }

  lemma StuckTwice(b: Backlog)
    ensures Stuck(Stuck(b)) == Stuck(b)
  {
    AllStuck(Stuck(b));
  }

  /** A round that hashes nothing leaves the backlog as it is, and it is reachable only if nothing in it
      can be hashed. */
  lemma NothingProcessed(b: Backlog)
    requires Hashable(FirstBatch(b)) == 0
    ensures AfterRound(b) == b && (Hashable(b) == 0 <==> Reachable(b))
  {
    AllStuck(FirstBatch(b));
    AllStuck(b);
    Split(b);
    if Reachable(b) && Hashable(b) != 0 {
      var k :| 0 <= k < |b| && b[k];
      assert k >= BATCH && b[..k] == FirstBatch(b) + b[BATCH..k];
      StuckConcat(FirstBatch(b), b[BATCH..k]);
    }
  }

  /** Such a backlog: behind one batch of a hundred blobs that cannot be hashed stands one that can, and every round
      leaves it there. */
  lemma OneBehindABatch()
    ensures var start := seq(100, _ => false) + [true];
            !Reachable(start) && AfterRound(start) == start && Hashable(start) == 1
  {
    var batch := seq(BATCH, _ => false);
    var start := batch + [true];
    assert start[..BATCH] == batch;
    AllStuck(batch);
    StuckConcat(batch, [true]);
    assert start[BATCH] && |Stuck(start[..BATCH])| == BATCH;
    NothingProcessed(start);
  }
}
