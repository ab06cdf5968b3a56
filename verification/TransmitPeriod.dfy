/** The transmit loop of src/mb-daemon.c against the fence: in which period the packets of an item are written. */
module TransmitPeriod {
  import opened Words
  import T = Transmit
  import F = Fence

  /** The period in which an item was stamped, after `stamped` calls, is still open after `m` calls. */
  ghost predicate InPeriod(h: seq<F.Moment>, stamped: nat, m: nat) {
    stamped <= m <= |h| && F.SamePeriod(h, stamped, m)
  }

  /** A fence check of the item's stamp after `m` calls. */
  predicate CheckPasses(h: seq<F.Moment>, stamped: nat, timestamp: nat, m: nat) {
    && stamped <= m <= |h|
    && F.Accepted(F.FenceAfter(h[..m]), F.FenceAfter(h[..stamped]).epoch, timestamp)
  }

  /** Stamped while streaming, in a history with fewer than 2^64 openings. */
  predicate StampedIn(h: seq<F.Moment>, stamped: nat) {
    stamped <= |h| && F.FenceAfter(h[..stamped]).streaming && F.Openings(h) < U64
  }

  lemma {:induction false} CheckMeans(h: seq<F.Moment>, stamped: nat, timestamp: nat, m: nat)
    requires StampedIn(h, stamped)
    ensures CheckPasses(h, stamped, timestamp, m) <==> InPeriod(h, stamped, m)
  {
    if stamped <= m <= |h| {
      F.OpeningsGrow(h, m, |h|);
      assert h[..|h|] == h;
      F.FenceExactBelowWrap(h, stamped, m, timestamp);
    }
  }

  /** Check k is made after `at(k)` calls, and chunk k written after `written(k)`, between check k + 1 and the next. */
  ghost predicate Ordered(at: nat -> nat, written: nat -> nat, n: nat) {
    && (forall i, j | 0 <= i <= j <= n + 1 :: at(i) <= at(j))
    && (forall k | 0 <= k < n :: at(k + 1) <= written(k) <= at(k + 2))
  }

  lemma SentInPeriod(h: seq<F.Moment>, stamped: nat, timestamp: nat, at: nat -> nat,
                     fenceOpen: nat -> bool, writeOk: nat -> bool, n: nat, k: nat)
    requires StampedIn(h, stamped) && k < n && T.FirstWentOut(fenceOpen, writeOk, n)
    requires fenceOpen(k + 1) ==> CheckPasses(h, stamped, timestamp, at(k + 1))
    ensures InPeriod(h, stamped, at(k + 1))
  {
    assert T.GoesOut(fenceOpen, writeOk, k);
    CheckMeans(h, stamped, timestamp, at(k + 1));
  }

  /**
    Every packet sent passed its check in the very period in which the item was
    stamped, and all but the last were also written in it: at most the one chunk
    that is past its check can still be written after the period is closed.
   */
  lemma {:induction false} OneChunkAfterClose(h: seq<F.Moment>, stamped: nat, timestamp: nat, at: nat -> nat,
                                              written: nat -> nat, fenceOpen: nat -> bool, writeOk: nat -> bool, n: nat)
    requires StampedIn(h, stamped) && stamped <= at(0) && Ordered(at, written, n)
    requires forall k | 0 <= k <= n :: fenceOpen(k) <==> CheckPasses(h, stamped, timestamp, at(k))
    requires T.FirstWentOut(fenceOpen, writeOk, n)
    ensures forall k | 1 <= k <= n :: InPeriod(h, stamped, at(k))
    ensures forall k | 0 <= k < n && k != n - 1 :: InPeriod(h, stamped, written(k))
  {
    forall k | 1 <= k <= n ensures InPeriod(h, stamped, at(k)) {
      SentInPeriod(h, stamped, timestamp, at, fenceOpen, writeOk, n, k - 1);
    }
    forall k | 0 <= k < n && k != n - 1 ensures InPeriod(h, stamped, written(k)) {
      assert InPeriod(h, stamped, at(k + 2)) && at(0) <= at(k + 1) <= written(k) <= at(k + 2);
    }
  }
}
