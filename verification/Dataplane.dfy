/**
  A configured device of src/mb-daemon.c: its session and its dataplane fence,
  changed together by every session event.
 */
module Dataplane {
  import opened Wrappers
  import opened Words
  import opened Session
  import opened Fence
  import T = SessionTraces

  datatype Device = Device(session: View, fence: Fence)

  predicate Streams(v: View) {
    v.state == STREAMING
  }

  function Handle(d: Device, e: Event, now: nat): Device {
    var s := After(d.session, e);
    Device(s, Couple(d.fence, Streams(d.session), Streams(s), now))
  }

  /** One configured device: its session and its fence, changed together. */
  class DeviceRuntime {
    const session: Session
    var dataplaneStreaming: bool
    var dataplaneEpoch: U64Int
    var dataplaneClosedEpoch: U64Int
    var dataplaneClosedAt: nat

    ghost function FenceValue(): Fence
      reads this
    {
      Fence(dataplaneStreaming, dataplaneEpoch, dataplaneClosedEpoch, dataplaneClosedAt)
    }

    ghost function Value(): Device
      reads this, session
    {
      Device(session.Value(), FenceValue())
    }

    constructor (session: Session)
      ensures this.session == session && FenceValue() == CLOSED
    {
      this.session := session;
      dataplaneStreaming, dataplaneEpoch, dataplaneClosedEpoch, dataplaneClosedAt := false, 0, 0, 0;
    }

    method FenceAccept(epoch: U64Int, timestamp: nat) returns (ok: bool)
      ensures ok <==> Accepted(FenceValue(), epoch, timestamp)
    {
      ok := dataplaneStreaming && epoch == dataplaneEpoch;
      if ok && epoch == dataplaneClosedEpoch && timestamp <= dataplaneClosedAt {
        ok := false;
      }
    }

    /** A stamp is given exactly while streaming, and it carries the current epoch. */
    method Stamp(now: nat) returns (stamp: Option<(U64Int, nat)>)
      ensures stamp.Some? <==> FenceValue().streaming
      ensures stamp.Some? ==> stamp.value == (FenceValue().epoch, now)
    {
      stamp := None;
      if dataplaneStreaming {
        stamp := Some((dataplaneEpoch, now));
      }
    }

    method OnSessionChange(before: State, after: State, now: nat)
      modifies this
      ensures FenceValue() == Couple(old(FenceValue()), before == STREAMING, after == STREAMING, now)
    {
      if before == after {
        return;
      }
      if before != STREAMING && after == STREAMING {
        if dataplaneEpoch + 1 == U64 {
          dataplaneEpoch := 0;
        } else {
          dataplaneEpoch := dataplaneEpoch + 1;
        }
        if dataplaneEpoch == 0 {
          dataplaneEpoch := 1;
        }
        dataplaneStreaming := true;
        return;
      }
      if before == STREAMING && after != STREAMING {
        dataplaneStreaming := false;
        dataplaneClosedEpoch := dataplaneEpoch;
        dataplaneClosedAt := now;
      }
    }

    method SessionEvent(event: Event, now: nat) returns (ok: bool)
      modifies this, session
      ensures Value() == Handle(old(Value()), event, now)
      ensures ok <==> Accepts(old(session.Value()), event)
    {
      var before := session.state;
      ok := session.HandleEvent(event);
      var after := session.state;
      if ok && before != after {
        OnSessionChange(before, after, now);
      }
    }
  }

  // ---- runs ----

  /** One call on the session side of a device at a point in time. */
  datatype Call = Call(op: T.Op, now: nat)

  function Next(d: Device, c: Call): Device {
    match c.op
    case Ev(e) => Handle(d, e, c.now)
    case _ => d.(session := T.Step(d.session, c.op))
  }

  function Run(auto: bool, calls: seq<Call>): Device {
    if calls == [] then Device(T.Start(auto), CLOSED)
    else Next(Run(auto, calls[..|calls| - 1]), calls[|calls| - 1])
  }

  /** The streaming history of a run. */
  function History(auto: bool, calls: seq<Call>): (h: seq<Moment>)
    ensures |h| == |calls|
  {
    if calls == [] then []
    else History(auto, calls[..|calls| - 1]) + [Moment(Streams(Run(auto, calls).session), calls[|calls| - 1].now)]
  }

  lemma {:induction false} BindingKeepsStreaming(v: View, op: T.Op)
    requires !op.Ev?
    ensures Streams(T.Step(v, op)) == Streams(v)
  {
  }

  lemma {:induction false} NextCouples(d: Device, c: Call)
    ensures Next(d, c).fence == Couple(d.fence, Streams(d.session), Streams(Next(d, c).session), c.now)
  {
    if !c.op.Ev? {
      BindingKeepsStreaming(d.session, c.op);
    }
  }

  /** The product machine in one line: the fence of a device is the fence of its streaming history. */
  lemma {:induction false} FenceFollowsSession(auto: bool, calls: seq<Call>)
    ensures Run(auto, calls).fence == FenceAfter(History(auto, calls))
    ensures Streams(Run(auto, calls).session) == StreamingAfter(History(auto, calls))
  {
    if calls != [] {
      var n := |calls| - 1;
      var h := History(auto, calls);
      FenceFollowsSession(auto, calls[..n]);
      NextCouples(Run(auto, calls[..n]), calls[n]);
      assert h[..n] == History(auto, calls[..n]);
    }
  }

  /** The number of entries into STREAMING. */
  function Entries(auto: bool, calls: seq<Call>): nat {
    Openings(History(auto, calls))
  }

  /**
    From IDLE, after every run of session events with fewer than 2^64 entries
    into STREAMING: the dataplane is open exactly when the session is STREAMING,
    the epoch is the number of entries, and an open period's epoch is greater
    than the last closed one.
   */
  lemma {:induction false} EpochCountsEntries(auto: bool, calls: seq<Call>)
    requires Entries(auto, calls) < U64
    ensures var d := Run(auto, calls);
            && (d.fence.streaming <==> Streams(d.session))
            && d.fence.epoch == Entries(auto, calls)
            && (d.fence.streaming ==> d.fence.epoch > d.fence.closedEpoch)
            && (!d.fence.streaming ==> d.fence.epoch == d.fence.closedEpoch)
  {
    FenceFollowsSession(auto, calls);
    EpochsCountOpenings(History(auto, calls));
    EpochBelowWrap(Entries(auto, calls));
    if StreamingAfter(History(auto, calls)) {
      EpochBelowWrap(Entries(auto, calls) - 1);
    }
  }

  lemma {:induction false} EpochBelowWrap(n: nat)
    requires n < U64
    ensures EpochOf(n) == n
  {
    if n > 0 {
      ModUnique(n - 1, EPOCHS, 0, n - 1);
    }
  }

  lemma {:induction false} HistoryPrefix(auto: bool, calls: seq<Call>, k: nat)
    requires k <= |calls|
    ensures History(auto, calls[..k]) == History(auto, calls)[..k]
  {
    var n := |calls| - 1;
    if k < |calls| {
      HistoryPrefix(auto, calls[..n], k);
      assert calls[..n][..k] == calls[..k];
    } else {
      assert calls[..k] == calls;
    }
  }

  /**
    In every run of a device with fewer than 2^64 entries into STREAMING, an item
    stamped after `i` calls is accepted after `j` calls exactly when the session
    has been STREAMING all the way.
   */
  lemma {:induction false} ItemsStayInTheirPeriod(auto: bool, calls: seq<Call>, i: nat, j: nat, timestamp: nat)
    requires i <= j <= |calls|
    requires Run(auto, calls[..i]).fence.streaming && Entries(auto, calls[..j]) < U64
    ensures Accepted(Run(auto, calls[..j]).fence, Run(auto, calls[..i]).fence.epoch, timestamp)
       <==> forall k | i <= k <= j :: Streams(Run(auto, calls[..k]).session)
  {
    var h := History(auto, calls);
    forall k | 0 <= k <= |calls|
      ensures Run(auto, calls[..k]).fence == FenceAfter(h[..k])
      ensures Streams(Run(auto, calls[..k]).session) == StreamingAfter(h[..k])
    {
      HistoryPrefix(auto, calls, k);
      FenceFollowsSession(auto, calls[..k]);
    }
    HistoryPrefix(auto, calls, j);
    FenceExactBelowWrap(h, i, j, timestamp);
  }
}
