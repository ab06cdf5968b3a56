/**
  The streaming-epoch fence of src/mb-daemon.c on its own: a dataplane that is
  opened and closed, stamps that carry its epoch, and the check of such a stamp.
 */
module Fence {
  import opened Words

  /** The number of different epochs: 1 to 2^64 - 1; 0 is never used for an open period. */
  const EPOCHS := U64 - 1

  datatype Fence = Fence(streaming: bool, epoch: U64Int, closedEpoch: U64Int, closedAt: nat)

  const CLOSED := Fence(false, 0, 0, 0)

  function Open(f: Fence): Fence {
    f.(streaming := true, epoch := if f.epoch + 1 == U64 then 1 else f.epoch + 1)
  }

  function Close(f: Fence, now: nat): Fence {
    f.(streaming := false, closedEpoch := f.epoch, closedAt := now)
  }

  predicate Accepted(f: Fence, epoch: U64Int, timestamp: nat) {
    f.streaming && epoch == f.epoch && !(epoch == f.closedEpoch && timestamp <= f.closedAt)
  }

  /** What a change between streaming and not streaming does to the fence. */
  function Couple(f: Fence, before: bool, after: bool, now: nat): Fence {
    if !before && after then Open(f)
    else if before && !after then Close(f, now)
    else f
  }

  // ---- histories ----

  /** Whether the session was streaming after each call, and when the call was made. */
  datatype Moment = Moment(streaming: bool, now: nat)

  function StreamingAfter(h: seq<Moment>): bool {
    h != [] && h[|h| - 1].streaming
  }

  function FenceAfter(h: seq<Moment>): Fence {
    if h == [] then CLOSED
    else
      var n := |h| - 1;
      Couple(FenceAfter(h[..n]), StreamingAfter(h[..n]), h[n].streaming, h[n].now)
  }

  /** How often streaming has begun. */
  function Openings(h: seq<Moment>): nat {
    if h == [] then 0
    else
      var n := |h| - 1;
      Openings(h[..n]) + if !StreamingAfter(h[..n]) && h[n].streaming then 1 else 0
  }

  /** The epoch of the n-th opening: 1, 2, ..., 2^64 - 1, and then 1 again. */
  function EpochOf(n: nat): (e: U64Int)
    ensures n > 0 ==> e > 0
  {
    if n == 0 then 0 else (n - 1) % EPOCHS + 1
  }

  lemma {:induction false} NextEpoch(n: nat)
    ensures EpochOf(n + 1) == if EpochOf(n) + 1 == U64 then 1 else EpochOf(n) + 1
    ensures EpochOf(n + 1) != EpochOf(n)
  {
    if n > 0 {
      ModStep(n - 1, EPOCHS);
    }
  }

  lemma {:induction false} ModStep(x: nat, m: nat)
    requires m > 1
    ensures (x + 1) % m == if x % m + 1 == m then 0 else x % m + 1
  {
    var q := x / m;
    assert x == m * q + x % m;
    if x % m + 1 == m {
      assert x + 1 == m * (q + 1);
      ModUnique(x + 1, m, q + 1, 0);
    } else {
      ModUnique(x + 1, m, q, x % m + 1);
    }
  }

  lemma Multiple(m: nat, d: nat)
    requires d > 0
    ensures m * d >= m
  {
    assert m * d == m + m * (d - 1);
  }

  lemma {:induction false} ModUnique(x: nat, m: nat, q: int, r: nat)
    requires r < m && x == m * q + r
    ensures x % m == r
  {
    var d := q - x / m;
    assert m * d == x % m - r by {
      assert m * q - m * (x / m) == m * d;
    }
    if d > 0 {
      Multiple(m, d);
    } else if d < 0 {
      Multiple(m, -d);
    }
  }

  ghost predicate Counts(f: Fence, streaming: bool, openings: nat) {
    && f.streaming == streaming
    && (streaming ==> openings > 0)
    && f.epoch == EpochOf(openings)
    && f.closedEpoch == EpochOf(if streaming then openings - 1 else openings)
  }

  /** After any history the fence is open exactly when streaming, and its epoch counts the openings. */
  lemma {:induction false} EpochsCountOpenings(h: seq<Moment>)
    ensures Counts(FenceAfter(h), StreamingAfter(h), Openings(h))
  {
    if h != [] {
      var n := |h| - 1;
      EpochsCountOpenings(h[..n]);
      NextEpoch(Openings(h[..n]));
    }
  }

  /** When streaming last ended, 0 if it never has. */
  function LastEnd(h: seq<Moment>): nat {
    if h == [] then 0
    else
      var n := |h| - 1;
      if StreamingAfter(h[..n]) && !h[n].streaming then h[n].now else LastEnd(h[..n])
  }

  lemma {:induction false} ClosedAtLastEnd(h: seq<Moment>)
    ensures FenceAfter(h).closedAt == LastEnd(h)
  {
    if h != [] {
      ClosedAtLastEnd(h[..|h| - 1]);
      EpochsCountOpenings(h[..|h| - 1]);
    }
  }

  /** The timestamp comparison of the fence never decides: an open epoch is never the closed one. */
  lemma {:induction false} ClosedTestNeverDecides(h: seq<Moment>, epoch: U64Int, timestamp: nat)
    ensures Accepted(FenceAfter(h), epoch, timestamp) <==> StreamingAfter(h) && epoch == FenceAfter(h).epoch
  {
    EpochsCountOpenings(h);
    if StreamingAfter(h) {
      NextEpoch(Openings(h) - 1);
    }
  }

  // ---- exactness ----

  /** Streaming after every one of the calls from `i` to `j`. */
  ghost predicate SamePeriod(h: seq<Moment>, i: nat, j: nat)
    requires i <= j <= |h|
  {
    forall k | i <= k <= j :: StreamingAfter(h[..k])
  }

  lemma OneMore(h: seq<Moment>, j: nat)
    requires 0 < j <= |h|
    ensures h[..j][..j - 1] == h[..j - 1]
    ensures StreamingAfter(h[..j]) == h[j - 1].streaming
    ensures Openings(h[..j]) ==
            Openings(h[..j - 1]) + if !StreamingAfter(h[..j - 1]) && StreamingAfter(h[..j]) then 1 else 0
  {
    assert h[..j][..j - 1] == h[..j - 1];
  }

  lemma {:induction false} OpeningsGrow(h: seq<Moment>, i: nat, j: nat)
    requires i <= j <= |h|
    ensures Openings(h[..i]) <= Openings(h[..j])
    decreases j - i
  {
    if i < j {
      OpeningsGrow(h, i, j - 1);
      OneMore(h, j);
    }
  }

  /** Streaming at both ends and no opening in between is the same period. */
  lemma {:induction false} SamePeriodIsNoOpening(h: seq<Moment>, i: nat, j: nat)
    requires i <= j <= |h| && StreamingAfter(h[..i])
    ensures SamePeriod(h, i, j) <==> StreamingAfter(h[..j]) && Openings(h[..i]) == Openings(h[..j])
    decreases j - i
  {
    if i < j {
      SamePeriodIsNoOpening(h, i, j - 1);
      OpeningsGrow(h, i, j - 1);
      OneMore(h, j);
      assert SamePeriod(h, i, j) <==> SamePeriod(h, i, j - 1) && StreamingAfter(h[..j]);
    }
  }

  lemma {:induction false} EpochsMeet(a: nat, b: nat)
    requires 0 < a <= b
    ensures EpochOf(a) == EpochOf(b) <==> (b - a) % EPOCHS == 0
  {
    var x, y := a - 1, b - 1;
    var qx, qy := x / EPOCHS, y / EPOCHS;
    if x % EPOCHS == y % EPOCHS {
      ModUnique(b - a, EPOCHS, qy - qx, 0);
    }
    if (b - a) % EPOCHS == 0 {
      var q := (b - a) / EPOCHS;
      ModUnique(y, EPOCHS, qx + q, x % EPOCHS);
    }
  }

  /**
    For every history: what was stamped after `i` calls is accepted at a check
    after `j` calls exactly when the dataplane is open then and the number of
    openings in between is a multiple of 2^64 - 1. When the item was queued in
    between, before or after a drop of the pending items, does not matter.
   */
  lemma {:induction false} FenceExact(h: seq<Moment>, i: nat, j: nat, timestamp: nat)
    requires i <= j <= |h| && FenceAfter(h[..i]).streaming
    ensures Openings(h[..i]) <= Openings(h[..j])
    ensures Accepted(FenceAfter(h[..j]), FenceAfter(h[..i]).epoch, timestamp)
       <==> StreamingAfter(h[..j]) && (Openings(h[..j]) - Openings(h[..i])) % EPOCHS == 0
  {
    EpochsCountOpenings(h[..i]);
    EpochsCountOpenings(h[..j]);
    OpeningsGrow(h, i, j);
    ClosedTestNeverDecides(h[..j], FenceAfter(h[..i]).epoch, timestamp);
    EpochsMeet(Openings(h[..i]), Openings(h[..j]));
  }

  /**
    With fewer than 2^64 openings, an item is accepted exactly when the streaming
    period in which it was stamped has not been closed since.
   */
  lemma {:induction false} FenceExactBelowWrap(h: seq<Moment>, i: nat, j: nat, timestamp: nat)
    requires i <= j <= |h| && FenceAfter(h[..i]).streaming
    requires Openings(h[..j]) < U64
    ensures Accepted(FenceAfter(h[..j]), FenceAfter(h[..i]).epoch, timestamp) <==> SamePeriod(h, i, j)
  {
    EpochsCountOpenings(h[..i]);
    FenceExact(h, i, j, timestamp);
    SamePeriodIsNoOpening(h, i, j);
    var d := Openings(h[..j]) - Openings(h[..i]);
    assert 0 <= d < EPOCHS;
    if d > 0 {
      ModUnique(d, EPOCHS, 0, d);
    }
  }
}
