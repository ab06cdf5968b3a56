/**
  The incremental BLE-MIDI decoder of src/mb-ble-midi.c, in the source's own
  form: one object, nested loops sharing one index, bytes emitted one by one.
  Every method is proved equal to the flat automaton of MidiAutomaton.
 */
module BleMidiDecoder {
  import opened Bytes
  import opened MidiAutomaton

  class Decoder {
    var runningStatus: Byte
    var pendingStatus: Byte
    const pendingData: array<Byte>
    var pendingLen: Byte
    var pendingExpected: Byte
    var sysexActive: bool

    /** The sink behind the emit callback: every byte handed to it, in order. */
    var emitted: seq<Byte>

    ghost predicate Valid()
      reads this
    {
      pendingData.Length == 2 && pendingLen <= 2
    }

    ghost function View(): State
      requires Valid()
      reads this, pendingData
    {
      State(runningStatus, pendingStatus, pendingData[..pendingLen], pendingExpected, sysexActive)
    }

    constructor ()
      ensures Valid() && View() == IDLE && emitted == []
      ensures fresh(pendingData)
    {
      pendingData := new Byte[2](_ => 0);
      runningStatus, pendingStatus, pendingLen, pendingExpected := 0, 0, 0, 0;
      sysexActive := false;
      emitted := [];
    }

    method Reset()
      requires Valid()
      modifies this, pendingData
      ensures Valid() && View() == IDLE && emitted == old(emitted)
    {
      runningStatus, pendingStatus, pendingLen, pendingExpected := 0, 0, 0, 0;
      pendingData[0], pendingData[1] := 0, 0;
      sysexActive := false;
    }

    method EmitByte(b: Byte)
      modifies this`emitted
      ensures emitted == old(emitted) + [b]
    {
      emitted := emitted + [b];
    }

    method EmitPending()
      requires Valid()
      modifies this
      ensures Valid()
      ensures View() == old(View()).(pendingStatus := 0, data := [], expected := 0)
      ensures emitted == old(emitted) + [old(pendingStatus)] + old(View().data)
    {
      EmitByte(pendingStatus);
      var i := 0;
      while i < pendingLen
        invariant 0 <= i <= pendingLen
        invariant Valid() && View() == old(View())
        invariant emitted == old(emitted) + [old(pendingStatus)] + pendingData[..i]
      {
        EmitByte(pendingData[i]);
        i := i + 1;
        assert pendingData[..i] == pendingData[..i - 1] + [pendingData[i - 1]];
      }
      pendingStatus, pendingLen, pendingExpected := 0, 0, 0;
    }

    method StartPending(status: Byte, expected: Byte)
      requires Valid()
      modifies this
      ensures Valid() && emitted == old(emitted)
      ensures View() == old(View()).(pendingStatus := status, data := [], expected := expected)
    {
      pendingStatus, pendingLen, pendingExpected := status, 0, expected;
    }

    /** Stores data byte `b`; the state of the pending message afterwards. */
    method StorePending(b: Byte) returns (complete: bool)
      requires Valid() && pendingLen < 2
      modifies this, pendingData
      ensures Valid() && emitted == old(emitted)
      ensures View() == old(View()).(data := old(View().data) + [b])
      ensures complete <==> |old(View().data)| + 1 == old(pendingExpected)
    {
      ghost var before := pendingData[..pendingLen];
      pendingData[pendingLen] := b;
      pendingLen := pendingLen + 1;
      assert pendingData[..pendingLen] == before + [b];
      complete := pendingLen == pendingExpected;
    }

    /**
      The inner loop for short messages. `mode` is where the automaton stands
      when the loop hands control back.
     */
    method ConsumePendingData(packet: seq<Byte>, index: nat, firstData: Byte)
      returns (r: Result, next: nat, ghost mode: Mode)
      requires Valid() && index <= |packet|
      modifies this, pendingData
      ensures Valid() && index <= next <= |packet|
      ensures r == Ok || r == Resync
      ensures r == Resync <==> mode == Aborted
      ensures r == Ok ==> next == |packet| || mode == AwaitTimestamp
      ensures Run(PendingByte(Config(old(View()), InPending, old(emitted)), firstData), packet[index..])
           == Run(Config(View(), mode, emitted), packet[next..])
    {
      var b := firstData;
      next := index;
      while true
        invariant Valid() && index <= next <= |packet|
        invariant Run(PendingByte(Config(old(View()), InPending, old(emitted)), firstData), packet[index..])
               == Run(PendingByte(Config(View(), InPending, emitted), b), packet[next..])
        decreases |packet| - next
      {
        ghost var here := Config(View(), InPending, emitted);
        if b >= 0x80 {
          if b >= 0xF8 {
            EmitByte(b);
          } else {
            Reset();
            assert PendingByte(here, b) == Config(View(), Aborted, emitted);
            return Resync, next, Aborted;
          }
        } else {
          if pendingLen >= 2 {
            Reset();
            assert PendingByte(here, b) == Config(View(), Aborted, emitted);
            return Resync, next, Aborted;
          }
          var complete := StorePending(b);
          if complete {
            EmitPending();
            assert here.out + [here.state.pendingStatus] + (here.state.data + [b])
                == here.out + [here.state.pendingStatus] + here.state.data + [b];
            assert PendingByte(here, b) == Config(View(), AwaitTimestamp, emitted);
            return Ok, next, AwaitTimestamp;
          }
        }
        assert PendingByte(here, b) == Config(View(), InPending, emitted);
        if next >= |packet| {
          return Ok, next, InPending;
        }
        RunUnroll(PendingByte(here, b), packet, next);
        b := packet[next];
        next := next + 1;
      }
    }

    /** The inner loop for System Exclusive. */
    method ConsumeSysEx(packet: seq<Byte>, index: nat, firstByte: Byte)
      returns (r: Result, next: nat, ghost mode: Mode)
      requires Valid() && index <= |packet|
      modifies this, pendingData
      ensures Valid() && index <= next <= |packet|
      ensures r == Ok || r == Resync
      ensures r == Resync <==> mode == Aborted
      ensures r == Ok ==> next == |packet| || mode == AwaitTimestamp
      ensures Run(SysExByte(Config(old(View()), InSysEx, old(emitted)), firstByte), packet[index..])
           == Run(Config(View(), mode, emitted), packet[next..])
    {
      var b := firstByte;
      next := index;
      while true
        invariant Valid() && index <= next <= |packet|
        invariant Run(SysExByte(Config(old(View()), InSysEx, old(emitted)), firstByte), packet[index..])
               == Run(SysExByte(Config(View(), InSysEx, emitted), b), packet[next..])
        decreases |packet| - next
      {
        ghost var here := Config(View(), InSysEx, emitted);
        if b == 0xF7 {
          EmitByte(b);
          sysexActive := false;
          assert SysExByte(here, b) == Config(View(), AwaitTimestamp, emitted);
          return Ok, next, AwaitTimestamp;
        }
        if b >= 0x80 {
          if b >= 0xF8 {
            EmitByte(b);
          } else {
            Reset();
            assert SysExByte(here, b) == Config(View(), Aborted, emitted);
            return Resync, next, Aborted;
          }
        } else {
          EmitByte(b);
        }
        assert SysExByte(here, b) == Config(View(), InSysEx, emitted);
        if next >= |packet| {
          return Ok, next, InSysEx;
        }
        RunUnroll(SysExByte(here, b), packet, next);
        b := packet[next];
        next := next + 1;
      }
    }

    /** A data byte behind a timestamp while no message is in progress: running status, or none. */
    method DispatchData(packet: seq<Byte>, index: nat, b: Byte)
      returns (r: Result, next: nat, ghost mode: Mode)
      requires Valid() && index <= |packet| && !sysexActive && pendingStatus == 0 && b < 0x80
      modifies this, pendingData
      ensures Valid() && index <= next <= |packet|
      ensures r == Ok || r == Resync
      ensures r == Resync <==> mode == Aborted
      ensures r == Ok ==> next == |packet| || mode == AwaitTimestamp
      ensures Run(Step(Config(old(View()), AwaitFirst, old(emitted)), b), packet[index..])
           == Run(Config(View(), mode, emitted), packet[next..])
    {
      if runningStatus >= 0x80 {
        var expected := StatusDataLen(runningStatus);
        if expected <= 0 {
          Reset();
          return Resync, index, Aborted;
        }
        StartPending(runningStatus, expected);
        r, next, mode := ConsumePendingData(packet, index, b);
        return;
      }
      Reset();
      return Resync, index, Aborted;
    }

    /** A status byte that begins a message, or stands alone. */
    method DispatchStatus(packet: seq<Byte>, index: nat, b: Byte)
      returns (r: Result, next: nat, ghost mode: Mode)
      requires Valid() && index <= |packet| && !sysexActive && pendingStatus == 0 && 0x80 <= b < 0xF8 && b != 0xF0
      modifies this, pendingData
      ensures Valid() && index <= next <= |packet|
      ensures r == Ok || r == Resync
      ensures r == Resync <==> mode == Aborted
      ensures r == Ok ==> next == |packet| || mode == AwaitTimestamp
      ensures Run(Step(Config(old(View()), AwaitFirst, old(emitted)), b), packet[index..])
           == Run(Config(View(), mode, emitted), packet[next..])
    {
      next := index;
      if b == 0xF7 {
        Reset();
        return Resync, next, Aborted;
      }
      var expected := StatusDataLen(b);
      if expected < 0 {
        Reset();
        return Resync, next, Aborted;
      }
      runningStatus := if b < 0xF0 then b else 0;
      if expected == 0 {
        EmitByte(b);
        return Ok, next, AwaitTimestamp;
      }
      StartPending(b, expected);
      r, mode := Ok, InPending;
      if next < |packet| {
        RunUnroll(Config(View(), InPending, emitted), packet, next);
        r, next, mode := ConsumePendingData(packet, next + 1, packet[next]);
      }
    }

    /** One turn of the outer loop after the timestamp: the byte `b` and all it drags along. */
    method DispatchFirst(packet: seq<Byte>, index: nat, b: Byte)
      returns (r: Result, next: nat, ghost mode: Mode)
      requires Valid() && index <= |packet|
      modifies this, pendingData
      ensures Valid() && index <= next <= |packet|
      ensures r == Ok || r == Resync
      ensures r == Resync <==> mode == Aborted
      ensures r == Ok ==> next == |packet| || mode == AwaitTimestamp
      ensures Run(Step(Config(old(View()), AwaitFirst, old(emitted)), b), packet[index..])
           == Run(Config(View(), mode, emitted), packet[next..])
    {
      next := index;
      if sysexActive {
        r, next, mode := ConsumeSysEx(packet, next, b);
        return;
      }
      if pendingStatus != 0 {
        r, next, mode := ConsumePendingData(packet, next, b);
        return;
      }
      if b < 0x80 {
        r, next, mode := DispatchData(packet, next, b);
        return;
      }
      if b >= 0xF8 {
        EmitByte(b);
        return Ok, next, AwaitTimestamp;
      }
      if b == 0xF0 {
        runningStatus := 0;
        sysexActive := true;
        EmitByte(b);
        r, mode := Ok, InSysEx;
        if next < |packet| {
          RunUnroll(Config(View(), InSysEx, emitted), packet, next);
          r, next, mode := ConsumeSysEx(packet, next + 1, packet[next]);
        }
        return;
      }
      r, next, mode := DispatchStatus(packet, next, b);
    }

    /** The nested loops do exactly what the flat automaton does, for every state and every packet. */
    method DecodePacket(packet: seq<Byte>) returns (r: Result)
      requires Valid()
      modifies this, pendingData
      ensures Valid()
      ensures var d := Decode(old(View()), packet);
              View() == d.state && emitted == old(emitted) + d.out && r == d.result
    {
      if |packet| < 3 {
        return Ignored;
      }
      if packet[0] < 0x80 {
        Reset();
        return InvalidHeader;
      }
      ghost var start := Config(View(), AwaitTimestamp, emitted);
      RunOut(start.(out := []), packet[1..], emitted);
      assert start == start.(out := emitted + []);
      var i := 1;
      ghost var mode := AwaitTimestamp;
      while i < |packet|
        invariant Valid() && 1 <= i <= |packet|
        invariant mode != Aborted
        invariant i < |packet| ==> mode == AwaitTimestamp
        invariant Run(start, packet[1..]) == Run(Config(View(), mode, emitted), packet[i..])
        decreases |packet| - i
      {
        ghost var here := Config(View(), AwaitTimestamp, emitted);
        RunUnroll(here, packet, i);
        var timestamp := packet[i];
        i := i + 1;
        if timestamp < 0x80 {
          Reset();
          RunAborted(Config(View(), Aborted, emitted), packet[i..]);
          return Resync;
        }
        mode := AwaitFirst;
        if i >= |packet| {
          break;
        }
        RunUnroll(here.(mode := AwaitFirst), packet, i);
        var b := packet[i];
        i := i + 1;
        r, i, mode := DispatchFirst(packet, i, b);
        if r != Ok {
          RunAborted(Config(View(), Aborted, emitted), packet[i..]);
          return;
        }
      }
      assert packet[i..] == [];
      return Ok;
    }
  }
}
