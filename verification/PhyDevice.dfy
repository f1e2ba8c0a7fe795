// The PHY as the source keeps it: two structs updated in place, each with its own queue.
module PhyDevice {
  import opened Clock
  import opened PhySpec
  import opened FifoQueue

  lemma RiseEdge(rx: Rx, now: Micros)
    requires rx.state == RxAwaitingRise
    ensures var shifter := ShiftIn(rx.shifter, Elapsed(now, rx.stamp));
            RxEdge(rx, now, true) ==
            if TopBit(shifter) then RxResult(Rx(RxNibbleEnded, RX_SHIFTER_INIT, now), [NibbleOf(shifter)])
            else RxResult(Rx(RxAwaitingFall, shifter, now), [])
  {
    hide ShiftIn, Elapsed, TopBit, NibbleOf;
  }

  class Receiver {
    var state: RxState
    var bitShifter: byte
    var microSecTimeStamp: Micros
    const byteFifo: Fifo<byte>

    ghost predicate Valid()
      reads this, byteFifo, byteFifo.buffer
    {
      byteFifo.Valid()
    }

    ghost function Value(): Rx
      reads this
    {
      Rx(state, bitShifter, microSecTimeStamp)
    }

    constructor (memory: array<byte>)
      ensures Valid() && fresh(byteFifo) && byteFifo.buffer == memory && byteFifo.contents == []
      ensures Value() == RX_START.(state := RxDisabled)
    {
      byteFifo := new Fifo(memory);
      state := RxDisabled;
      bitShifter := RX_SHIFTER_INIT;
      microSecTimeStamp := 0;
    }

    method Enable()
      modifies this`state
      ensures Value() == old(Value()).(state := RxIdle)
    {
      state := RxIdle;
    }

    predicate IsBusy()
      reads this
      ensures IsBusy() <==> RxBusy(Value())
    {
      state != RxDisabled && state != RxIdle
    }

    /** Edges first, then timeouts, pushing straight into the queue. */
    method Update(now: Micros, pinHi: bool)
      requires Valid()
      modifies this, byteFifo, byteFifo.buffer
      ensures Valid()
      ensures Value() == RxStep(old(Value()), now, pinHi).rx
      ensures byteFifo.contents ==
              Pushed(old(byteFifo.contents), RxStep(old(Value()), now, pinHi).out, byteFifo.buffer.Length)
    {
      ghost var before := byteFifo.contents;
      ghost var edge := RxEdge(Value(), now, pinHi);
      HandleEdge(now, pinHi);
      HandleTimeout(now);
      PushedConcat(before, edge.out, RxTimeout(edge.rx, now).out, byteFifo.buffer.Length);
    }

    method ShiftInBit(now: Micros)
      modifies this`bitShifter
      ensures bitShifter == ShiftIn(old(bitShifter), Elapsed(now, microSecTimeStamp))
    {
      bitShifter := bitShifter << 1;
      if Elapsed(now, microSecTimeStamp) > ONE_THRESHOLD {
        bitShifter := bitShifter | 0x01;
      }
    }

    /** The end of a low: one more bit, and after the fourth a nibble. */
    method HandleRise(now: Micros)
      requires Valid() && state == RxAwaitingRise
      modifies this, byteFifo, byteFifo.buffer
      ensures Valid()
      ensures Value() == RxEdge(old(Value()), now, true).rx
      ensures byteFifo.contents ==
              Pushed(old(byteFifo.contents), RxEdge(old(Value()), now, true).out, byteFifo.buffer.Length)
    {
      RiseEdge(Value(), now);
      PushedNone(byteFifo.contents, byteFifo.buffer.Length);
      hide RxEdge, ShiftIn, Elapsed, Pushed, Fifo.Valid, TopBit, NibbleOf;
      ShiftInBit(now);
      microSecTimeStamp := now;
      if TopBit(bitShifter) {
        byteFifo.Push(NibbleOf(bitShifter));
        state := RxNibbleEnded;
        bitShifter := RX_SHIFTER_INIT;
      } else {
        state := RxAwaitingFall;
      }
    }

    method HandleEdge(now: Micros, pinHi: bool)
      requires Valid()
      modifies this, byteFifo, byteFifo.buffer
      ensures Valid()
      ensures Value() == RxEdge(old(Value()), now, pinHi).rx
      ensures byteFifo.contents ==
              Pushed(old(byteFifo.contents), RxEdge(old(Value()), now, pinHi).out, byteFifo.buffer.Length)
    {
      match state
      case RxDisabled =>
      case RxIdle | RxNibbleEnded | RxAwaitingFall =>
        if !pinHi {
          state := RxAwaitingRise;
          microSecTimeStamp := now;
        }
      case RxAwaitingRise =>
        if pinHi {
          HandleRise(now);
        }
      case RxFailedLow =>
        if pinHi {
          state := RxIdle;
        }
    }

    method Push3(a: byte, b: byte, c: byte)
      requires Valid()
      modifies byteFifo, byteFifo.buffer
      ensures Valid()
      ensures byteFifo.contents == Pushed(old(byteFifo.contents), [a, b, c], byteFifo.buffer.Length)
    {
      ghost var before, capacity := byteFifo.contents, byteFifo.buffer.Length;
      byteFifo.Push(a);
      byteFifo.Push(b);
      byteFifo.Push(c);
      PushedConcat(before, [a], [b], capacity);
      PushedConcat(before, [a] + [b], [c], capacity);
      assert [a] + [b] + [c] == [a, b, c];
    }

    method HandleTimeout(now: Micros)
      requires Valid()
      modifies this, byteFifo, byteFifo.buffer
      ensures Valid()
      ensures Value() == RxTimeout(old(Value()), now).rx
      ensures byteFifo.contents ==
              Pushed(old(byteFifo.contents), RxTimeout(old(Value()), now).out, byteFifo.buffer.Length)
    {
      match state
      case RxDisabled | RxIdle | RxFailedLow =>
      case RxAwaitingFall =>
        if Elapsed(now, microSecTimeStamp) > INTERBIT_TIMEOUT_TIME {
          Push3(NibbleOf(bitShifter), TIMEOUT, END);
          state := RxIdle;
          bitShifter := RX_SHIFTER_INIT;
        }
      case RxAwaitingRise =>
        if Elapsed(now, microSecTimeStamp) > LOW_TOO_LONG_TIME {
          Push3(NibbleOf(bitShifter), LOW_TOO_LONG, END);
          state := RxFailedLow;
          bitShifter := RX_SHIFTER_INIT;
        }
      case RxNibbleEnded =>
        if Elapsed(now, microSecTimeStamp) > NIBBLE_END_GAP_TIME {
          byteFifo.Push(END);
          state := RxIdle;
          bitShifter := RX_SHIFTER_INIT;
        }
    }
  }

  class Transmitter {
    var state: TxState
    var bitShifter: byte
    var microSecTimeStamp: Micros
    const byteFifo: Fifo<byte>

    ghost predicate Valid()
      reads this, byteFifo, byteFifo.buffer
    {
      byteFifo.Valid()
    }

    /** The line belongs to the caller of the update, as in the source. */
    ghost function Port(drive: bool): TxPort
      reads this, byteFifo
    {
      TxPort(Tx(state, bitShifter, microSecTimeStamp), byteFifo.contents, drive)
    }

    constructor (memory: array<byte>)
      ensures Valid() && fresh(byteFifo) && byteFifo.buffer == memory
      ensures Port(false) == TX_START
    {
      byteFifo := new Fifo(memory);
      state := TxDisabled;
      bitShifter := TX_SHIFTER_INIT;
      microSecTimeStamp := 0;
    }

    method Enable()
      requires Valid()
      modifies this`state
      ensures Valid()
      ensures forall d :: Port(d) == old(Port(d)).(tx := old(Port(d)).tx.(state := TxEnable))
    {
      state := TxEnable;
    }

    method Disable()
      requires Valid()
      modifies this`state
      ensures Valid()
      ensures forall d :: Port(d) == old(Port(d)).(tx := old(Port(d)).tx.(state := TxDisabled))
    {
      state := TxDisabled;
    }

    predicate IsBusy()
      requires Valid()
      reads this, byteFifo, byteFifo.buffer
      ensures forall d :: IsBusy() <==> TxBusy(Port(d))
    {
      if state == TxDisabled then false
      else if state != TxIdle then true
      else !byteFifo.IsEmpty()
    }

    method ShiftOutBit() returns (bit: bool)
      modifies this`bitShifter
      ensures bit == TopBit(old(bitShifter)) && bitShifter == old(bitShifter) << 1
    {
      bit := TopBit(bitShifter);
      bitShifter := bitShifter << 1;
    }

    /** Takes the next symbol: a message end to wait out, or a nibble to shift out. */
    method StartNext()
      requires Valid() && state == TxIdle
      modifies this, byteFifo
      ensures Valid()
      ensures forall now, d :: Port(false) == TxStep(old(Port(d)), now)
    {
      if !byteFifo.IsEmpty() {
        var txNibble := byteFifo.Pop();
        if txNibble == END {
          state := TxMsgGap;
        } else {
          bitShifter := TX_SHIFTER_INIT;
          bitShifter := bitShifter | ((txNibble & 0x0F) << 4);
          state := TxSending;
        }
      }
    }

    method StartBit(now: Micros)
      requires Valid() && state == TxSending
      modifies this
      ensures Valid()
      ensures forall d :: Port(true) == TxStep(old(Port(d)), now)
    {
      hide LoadShifter, Elapsed, TopBit, Fifo.Valid;
      microSecTimeStamp := now;
      var outBitOne := ShiftOutBit();
      if outBitOne {
        state := TxSendingOne;
      } else {
        state := TxSendingZero;
      }
    }

    method HoldLow(now: Micros, limit: nat) returns (drive: bool)
      requires Valid()
      requires state in {TxSendingOne, TxSendingZero}
      requires limit == if state == TxSendingOne then ONE_LOW_TIME else ZERO_LOW_TIME
      modifies this`state
      ensures Valid()
      ensures forall d :: Port(drive) == TxStep(old(Port(d)), now)
    {
      drive := Elapsed(now, microSecTimeStamp) <= limit;
      if !drive {
        state := TxBitGap;
      }
    }

    method Update(now: Micros, drive: bool) returns (drive': bool)
      requires Valid()
      modifies this, byteFifo
      ensures Valid()
      ensures Port(drive') == TxStep(old(Port(drive)), now)
    {
      drive' := drive;
      match state
      case TxDisabled =>
      case TxEnable =>
        microSecTimeStamp := now;
        state := TxTurnaround;
      case TxTurnaround =>
        if Elapsed(now, microSecTimeStamp) > TURNAROUND_TIME {
          state := TxIdle;
        }
      case TxIdle =>
        StartNext();
        drive' := false;
      case TxSending =>
        StartBit(now);
        drive' := true;
      case TxSendingOne =>
        drive' := HoldLow(now, ONE_LOW_TIME);
      case TxSendingZero =>
        drive' := HoldLow(now, ZERO_LOW_TIME);
      case TxBitGap =>
        drive' := false;
        if Elapsed(now, microSecTimeStamp) > BIT_TIME {
          if MoreBits(bitShifter) {
            state := TxSending;
          } else {
            state := TxIdle;
          }
        }
      case TxMsgGap =>
        state := TxMsgWait;
        microSecTimeStamp := now;
      case TxMsgWait =>
        if Elapsed(now, microSecTimeStamp) > MSG2MSG_TIME {
          state := TxIdle;
        }
    }
  }
}
