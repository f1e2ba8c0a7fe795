// What every run of the main loop keeps, whatever the pin, the clock and the application do:
// which side owns the line, and how full the queues above the PHY get.
module BusProtocol {
  import opened Clock
  import opened PhySpec
  import opened FifoQueue
  import opened LinkSpec
  import opened AppSpec
  import opened DeviceSpec
  import opened TransmitterTiming
  import opened ReceiverProofs
  import opened LinkProofs

  /** One turn's inputs. */
  datatype Input = Input(gap: nat, pinHi: bool, sends: seq<TxMsg>)

  // ---- The invariant ----

  /**
   * The link's receive mode and an enabled transmitter exclude each other (the receiver itself is never
   * disabled), and the line is driven only inside a low.
   */
  predicate DirectionOk(d: Device) {
    && (d.link.rxMode <==> d.phy.port.tx.state == TxDisabled)
    && DriveOk(d.phy.port)
    && d.phy.rx.state != RxDisabled
  }

  /**
   * Between turns no parsed message waits, and each nibble of the frame being received has taken
   * away one of the at most two commands left by the frame before.
   */
  predicate QueuesOk(d: Device) {
    && AppOk(d.app)
    && d.link.rxMsgs == []
    && (d.app.cmds == [] || |d.app.cmds| + |d.link.frame| <= 2)
    && |d.rxFifo| <= Backlog(d.phy.rx.state)
  }

  lemma StartOk()
    ensures DirectionOk(DEVICE_START) && QueuesOk(DEVICE_START)
  {
  }

  // ---- Direction ----

  /**
   * When the direction changes, seen from after the PHY's part of a turn and after the link's. To
   * transmit: exactly when the receiver is idle and a message waits. Back: exactly when no message
   * waits and the transmitter, ready for a symbol, has none. The line is released either way.
   */
  predicate ProperTurn(mid: Device, after: Device) {
    && (mid.link.rxMode ==>
          && (!after.link.rxMode <==> mid.phy.rx.state == RxIdle && mid.link.txMsgs != [])
          && after.phy.port.tx.state == (if after.link.rxMode then TxDisabled else TxEnable)
          && !after.phy.port.drive)
    && (!mid.link.rxMode ==>
          && (after.link.rxMode <==>
                mid.link.txMsgs == [] && mid.phy.port.tx.state == TxIdle && mid.phy.port.queue == [])
          && (if after.link.rxMode then after.phy.port.tx.state == TxDisabled && !after.phy.port.drive
              else after.phy.port.tx.state == mid.phy.port.tx.state))
  }

  lemma DriveStep(p: TxPort, at: Micros)
    requires DriveOk(p)
    ensures DriveOk(TxStep(p, at))
  {
  }

  lemma EnabledStays(rx: Rx, at: Micros, pinHi: bool)
    ensures rx.state != RxDisabled ==> RxStep(rx, at, pinHi).rx.state != RxDisabled
  {
  }

  lemma DirectionKept(d: Device, at: Micros, pinHi: bool, sends: seq<TxMsg>)
    requires DirectionOk(d) && FrameRoom(d.link) && AppOk(d.app)
    ensures DirectionOk(Turn(d, at, pinHi, sends))
    ensures ProperTurn(PhyTurn(d, at, pinHi), BusTurn(d, at, pinHi))
  {
    hide TxStep, RxStep, Parse, Decode, Pushed, Serialise;
    DriveStep(d.phy.port, at);
    EnabledStays(d.phy.rx, at, pinHi);
    DisabledStays(d.phy.port, at);
    PushedNone(TxStep(d.phy.port, at).queue, BYTE_MAX);
  }

  // ---- Queues ----

  /** The fullest each queue gets inside a turn: PHY receive queue, parsed messages, commands. */
  predicate RoomInTurn(d: Device, at: Micros, pinHi: bool)
    requires FrameRoom(d.link) && AppOk(d.app)
  {
    && |PhyTurn(d, at, pinHi).rxFifo| <= 4
    && |BusTurn(d, at, pinHi).link.rxMsgs| <= 1
    && |DecodeTurn(BusTurn(d, at, pinHi)).app.cmds| <= 3
  }

  lemma PhyTurnRoom(d: Device, at: Micros, pinHi: bool)
    requires QueuesOk(d)
    ensures var r := RxStep(d.phy.rx, at, pinHi);
            && PhyTurn(d, at, pinHi).rxFifo == d.rxFifo + r.out
            && |d.rxFifo + r.out| <= 4 && AfterPop(|d.rxFifo + r.out|) <= Backlog(r.rx.state)
  {
    StepBacklog(d.phy.rx, |d.rxFifo|, at, pinHi);
    PushedWithRoom(d.rxFifo, RxStep(d.phy.rx, at, pinHi).out, BYTE_MAX);
  }

  /** An accepted message has at least three nibbles, and by then no command is left. */
  lemma DecodeRoom(a: App, frame: seq<byte>)
    requires AppOk(a) && (a.cmds == [] || |a.cmds| + |frame| <= 2)
    ensures |Decode(a, Parse(frame)).cmds| <= if a.cmds == [] then 3 else |a.cmds|
    ensures |Decode(a, Parse(frame)).cmds| <= 3
  {
    var m := Parse(frame);
    if m.errId == 0 && m.h2c {
      AcceptsExactly(frame);
      hide Parse;
      match m.body
      case Ping => PushedWithRoom(a.cmds, [PING], CMD_MAX);
      case SetPlayState(_, stop, _, _, _, pause, play) =>
        PushedWithRoom(a.cmds, PlayCommands(stop, pause, play), CMD_MAX);
      case SetDiskTrack(disk, track, _, _, _) =>
        PushedWithRoom(a.cmds, [SwitchTo(disk)], CMD_MAX);
        PushedWithRoom(a.cmds, [StepTrack(a.track, track as int, a.numTracks).1], CMD_MAX);
      case _ =>
    }
  }

  lemma QueuesKept(d: Device, at: Micros, pinHi: bool, sends: seq<TxMsg>)
    requires QueuesOk(d) && FrameRoom(d.link)
    ensures QueuesOk(Turn(d, at, pinHi, sends)) && RoomInTurn(d, at, pinHi)
  {
    hide RxStep, TxStep, Parse, Decode, Serialise, Backlog, LinkStep;
    PhyTurnRoom(d, at, pinHi);
    var d1 := PhyTurn(d, at, pinHi);
    var d2 := PopTurn(d1);
    LinkKeepsReceived(d2);
    if d1.rxFifo != [] && d1.rxFifo[0] == END {
      PushedWithRoom(d1.link.rxMsgs, [Parse(d1.link.frame)], RX_MSG_MAX);
      assert d2.link.rxMsgs == [Parse(d.link.frame)];
      DecodeRoom(d.app, d.link.frame);
      DecodeKeepsOk(d.app, Parse(d.link.frame));
    }
  }

  lemma LinkKeepsReceived(d: Device)
    ensures var l := LinkTurn(d);
            && l.link.rxMsgs == d.link.rxMsgs && l.link.frame == d.link.frame
            && l.rxFifo == d.rxFifo && l.app == d.app && l.phy.rx == d.phy.rx
  {
  }

  /** Whatever frame the receiver aborts, on any waveform, the application does nothing about it. */
  lemma AbortedFrameIgnored(a: App, b: Burst)
    requires AppOk(a) && BurstOk(b) && b.ending != GapEnd
    ensures Decode(a, Parse(Content(b))) == a
  {
    AbortedFrameRejected(b);
  }

  // ---- Runs ----

  /** Frames of at most 31 symbols before END are the ones the source has room for. */
  predicate FramesFit(d: Device, now: Micros, inputs: seq<Input>)
    requires QueuesOk(d)
    decreases |inputs|
  {
    inputs == [] ||
    (FrameRoom(d.link) &&
     var next := Advance(now, inputs[0].gap);
     QueuesKept(d, next, inputs[0].pinHi, inputs[0].sends);
     FramesFit(Turn(d, next, inputs[0].pinHi, inputs[0].sends), next, inputs[1..]))
  }

  /** Each turn of the run changes direction only when it may, and overflows nothing. */
  predicate Orderly(d: Device, now: Micros, inputs: seq<Input>)
    requires QueuesOk(d) && FramesFit(d, now, inputs)
    decreases |inputs|
  {
    inputs == [] ||
    var next := Advance(now, inputs[0].gap);
    var d' := Turn(d, next, inputs[0].pinHi, inputs[0].sends);
    QueuesKept(d, next, inputs[0].pinHi, inputs[0].sends);
    && RoomInTurn(d, next, inputs[0].pinHi)
    && ProperTurn(PhyTurn(d, next, inputs[0].pinHi), BusTurn(d, next, inputs[0].pinHi))
    && DirectionOk(d')
    && Orderly(d', next, inputs[1..])
  }

  lemma {:induction false} EveryRunOrderly(d: Device, now: Micros, inputs: seq<Input>)
    requires DirectionOk(d) && QueuesOk(d) && FramesFit(d, now, inputs)
    ensures Orderly(d, now, inputs)
    decreases |inputs|
  {
    if inputs != [] {
      hide BusTurn, Turn, RoomInTurn, DirectionOk, QueuesOk, ProperTurn;
      var next := Advance(now, inputs[0].gap);
      DirectionOkIsApp(d);
      DirectionKept(d, next, inputs[0].pinHi, inputs[0].sends);
      QueuesKept(d, next, inputs[0].pinHi, inputs[0].sends);
      EveryRunOrderly(Turn(d, next, inputs[0].pinHi, inputs[0].sends), next, inputs[1..]);
    }
  }

  lemma DirectionOkIsApp(d: Device)
    requires QueuesOk(d)
    ensures AppOk(d.app)
  {
  }

  /** From power-up, for every waveform, clock and application whose frames fit. */
  lemma FromPowerUp(now: Micros, inputs: seq<Input>)
    requires FramesFit(DEVICE_START, now, inputs)
    ensures Orderly(DEVICE_START, now, inputs)
  {
    StartOk();
    EveryRunOrderly(DEVICE_START, now, inputs);
  }

  // ---- Turnaround ----

  lemma TurnaroundStep(d: Device, now: Micros, i: Input)
    requires DirectionOk(d) && QueuesOk(d) && FrameRoom(d.link)
    requires d.phy.port.tx.state == TxTurnaround
    requires Elapsed(now, d.phy.port.tx.stamp) + i.gap <= TURNAROUND_TIME
    ensures Turn(d, Advance(now, i.gap), i.pinHi, i.sends).phy.port.tx == d.phy.port.tx
    ensures Elapsed(Advance(now, i.gap), d.phy.port.tx.stamp) == Elapsed(now, d.phy.port.tx.stamp) + i.gap
  {
    hide RxStep, Parse, Decode, Pushed, Serialise;
    ElapsedAfter(now, d.phy.port.tx.stamp, i.gap);
  }

  /** What the receiver is shown over a run. */
  function Seen(now: Micros, inputs: seq<Input>): seq<Sample>
    decreases |inputs|
  {
    if inputs == [] then [] else
    var next := Advance(now, inputs[0].gap);
    [Sample(next, inputs[0].pinHi)] + Seen(next, inputs[1..])
  }

  function Gaps(inputs: seq<Input>): seq<nat> {
    if inputs == [] then [] else [inputs[0].gap] + Gaps(inputs[1..])
  }

  /** What the clock reads at the end of a run. */
  function EndTime(now: Micros, inputs: seq<Input>): Micros
    decreases |inputs|
  {
    if inputs == [] then now else EndTime(Advance(now, inputs[0].gap), inputs[1..])
  }

  /** The device at the end of a run, or where the source would write past its frame buffer. */
  function Run(d: Device, now: Micros, inputs: seq<Input>): Device
    requires QueuesOk(d)
    decreases |inputs|
  {
    if inputs == [] || !FrameRoom(d.link) then d else
    var next := Advance(now, inputs[0].gap);
    QueuesKept(d, next, inputs[0].pinHi, inputs[0].sends);
    Run(Turn(d, next, inputs[0].pinHi, inputs[0].sends), next, inputs[1..])
  }

  lemma {:induction false} RunConcat(d: Device, now: Micros, a: seq<Input>, b: seq<Input>)
    requires QueuesOk(d) && FramesFit(d, now, a)
    ensures QueuesOk(Run(d, now, a))
    ensures Run(d, now, a + b) == Run(Run(d, now, a), EndTime(now, a), b)
    ensures FramesFit(d, now, a + b) <==> FramesFit(Run(d, now, a), EndTime(now, a), b)
    ensures EndTime(now, a + b) == EndTime(EndTime(now, a), b)
    decreases |a|
  {
    hide Turn, QueuesOk;
    if a == [] {
      assert a + b == b;
    } else {
      assert (a + b)[1..] == a[1..] + b;
      var next := Advance(now, a[0].gap);
      DirectionOkIsApp(d);
      QueuesKept(d, next, a[0].pinHi, a[0].sends);
      RunConcat(Turn(d, next, a[0].pinHi, a[0].sends), next, a[1..], b);
    }
  }

  lemma {:induction false} RunDirection(d: Device, now: Micros, inputs: seq<Input>)
    requires DirectionOk(d) && QueuesOk(d) && FramesFit(d, now, inputs)
    ensures DirectionOk(Run(d, now, inputs))
    decreases |inputs|
  {
    if inputs != [] {
      hide BusTurn, Turn, DirectionOk, QueuesOk, ProperTurn;
      var next := Advance(now, inputs[0].gap);
      DirectionOkIsApp(d);
      DirectionKept(d, next, inputs[0].pinHi, inputs[0].sends);
      QueuesKept(d, next, inputs[0].pinHi, inputs[0].sends);
      RunDirection(Turn(d, next, inputs[0].pinHi, inputs[0].sends), next, inputs[1..]);
    }
  }

  /** The first part of a run whose frames fit is one, and the turn after it has room. */
  lemma {:induction false} FitBefore(d: Device, now: Micros, inputs: seq<Input>, last: Input)
    requires QueuesOk(d) && FramesFit(d, now, inputs + [last])
    ensures FramesFit(d, now, inputs) && QueuesOk(Run(d, now, inputs)) && FrameRoom(Run(d, now, inputs).link)
    ensures AppOk(Run(d, now, inputs).app)
    ensures var end := Run(d, now, inputs);
            Run(d, now, inputs + [last]) ==
            Turn(end, Advance(EndTime(now, inputs), last.gap), last.pinHi, last.sends)
    decreases |inputs|
  {
    hide Turn, QueuesOk;
    DirectionOkIsApp(d);
    if inputs == [] {
      assert inputs + [last] == [last] && [last][1..] == [];
      QueuesKept(d, Advance(now, last.gap), last.pinHi, last.sends);
    } else {
      assert (inputs + [last])[1..] == inputs[1..] + [last];
      var next := Advance(now, inputs[0].gap);
      QueuesKept(d, next, inputs[0].pinHi, inputs[0].sends);
      FitBefore(Turn(d, next, inputs[0].pinHi, inputs[0].sends), next, inputs[1..], last);
    }
  }

  /** After the turn that handles the enable the device leaves the line alone for more than 3100. */
  lemma {:induction false} LineReleasedInTurnaround(d: Device, now: Micros, inputs: seq<Input>)
    requires DirectionOk(d) && QueuesOk(d) && FramesFit(d, now, inputs)
    requires d.phy.port.tx.state == TxTurnaround
    requires Elapsed(now, d.phy.port.tx.stamp) + Duration(Gaps(inputs)) <= 3100
    ensures var end := Run(d, now, inputs);
            !end.phy.port.drive && end.phy.port.tx == d.phy.port.tx && !end.link.rxMode
    decreases |inputs|
  {
    if inputs != [] {
      hide Turn, QueuesOk;
      var i := inputs[0];
      var next := Advance(now, i.gap);
      assert Gaps(inputs)[0] == i.gap && Gaps(inputs)[1..] == Gaps(inputs[1..]);
      DirectionOkIsApp(d);
      TurnaroundStep(d, now, i);
      DirectionKept(d, next, i.pinHi, i.sends);
      QueuesKept(d, next, i.pinHi, i.sends);
      LineReleasedInTurnaround(Turn(d, next, i.pinHi, i.sends), next, inputs[1..]);
    }
  }

  lemma EnableHandled(d: Device, at: Micros, pinHi: bool, sends: seq<TxMsg>)
    requires DirectionOk(d) && QueuesOk(d) && FrameRoom(d.link) && d.phy.port.tx.state == TxEnable
    ensures var d' := Turn(d, at, pinHi, sends);
            d'.phy.port.tx.state == TxTurnaround && Elapsed(at, d'.phy.port.tx.stamp) == 0 && !d'.phy.port.drive
  {
    hide RxStep, Parse, Decode, Pushed, Serialise;
  }
}
