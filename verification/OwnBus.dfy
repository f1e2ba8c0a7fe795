// The device on a bus nobody else drives. Its receiver stays on while it transmits, so it hears
// itself: every message its application sends comes back through PHY, link and parser, once, in
// order and as the parse of the frame that was built.
module OwnBus {
  import opened Sequences
  import opened Clock
  import opened PhySpec
  import opened FifoQueue
  import opened LinkSpec
  import opened AppSpec
  import opened DeviceSpec
  import opened ReceiverProofs
  import opened TransmitterTiming
  import opened ClosedLoop
  import opened LinkProofs
  import opened BusProtocol
  import opened Output
  import opened Reception

  // ---- Messages as streams ----

  lemma NoEndInFrame(m: TxMsg)
    ensures END !in Frame(m) && 1 <= |Frame(m)| <= 17
  {
    BuiltFrame(m);
  }

  lemma {:induction false} NibblesThenEnd(s: seq<byte>, q: seq<byte>)
    requires AllNibbles(s) && Whole(q)
    ensures InMessage(s + [END] + q)
    ensures s != [] ==> Whole(s + [END] + q)
  {
    if s == [] {
      assert s + [END] + q == [END] + q;
      assert ([END] + q)[1..] == q;
    } else {
      assert (s + [END] + q)[1..] == s[1..] + [END] + q;
      NibblesThenEnd(s[1..], q);
    }
  }

  lemma SerialisedIsWhole(m: TxMsg)
    ensures Whole(Serialise(m))
  {
    BuiltFrame(m);
    NibblesThenEnd(Frame(m), []);
    assert Frame(m) + [END] + [] == Serialise(m);
  }

  /** A frame without END, followed by END, is determined by what it begins. */
  lemma SameFirstEnd(s: seq<byte>, a: seq<byte>, b: seq<byte>)
    requires END !in a && END !in b && a + [END] <= s && b + [END] <= s
    ensures a == b
  {
    assert s[|a|] == (a + [END])[|a|] && s[|b|] == (b + [END])[|b|];
    assert forall i | 0 <= i < |a| :: s[i] == (a + [END])[i] && a[i] != END;
    assert forall i | 0 <= i < |b| :: s[i] == (b + [END])[i] && b[i] != END;
  }

  /** The stream splits at its first END. */
  lemma FirstFrame(ms: seq<TxMsg>, frame: seq<byte>, rest: seq<byte>)
    requires END !in frame && frame + [END] + rest == Stream(ms)
    ensures ms != [] && frame == Frame(ms[0]) && rest == Stream(ms[1..])
  {
    var s := Stream(ms);
    var f, later := Frame(ms[0]), Stream(ms[1..]);
    NoEndInFrame(ms[0]);
    assert s == f + [END] + later;
    assert (frame + [END] + rest)[..|frame| + 1] == frame + [END];
    assert (f + [END] + later)[..|f| + 1] == f + [END];
    SameFirstEnd(s, frame, f);
    assert rest == (frame + [END] + rest)[|frame| + 1..] && later == (f + [END] + later)[|f| + 1..];
  }

  /** A part without END fits in the first frame. */
  lemma PartOfFirstFrame(ms: seq<TxMsg>, frame: seq<byte>, rest: seq<byte>)
    requires END !in frame && frame + rest == Stream(ms)
    ensures |frame| <= 17
    ensures ms != [] ==> rest != []
    ensures ms == [] ==> frame == []
  {
    if ms != [] {
      var s, f := Stream(ms), Frame(ms[0]);
      NoEndInFrame(ms[0]);
      assert s == f + [END] + Stream(ms[1..]);
      assert s[|f|] == END;
      assert forall i | 0 <= i < |frame| :: s[i] == frame[i] && frame[i] != END;
    }
  }

  // ---- The invariant ----

  /** Everything sent and not yet parsed: frame being received, receive queue, line, queues. */
  ghost function Outstanding(d: Device, f: Flight): seq<byte> {
    d.link.frame + (d.rxFifo + (Pending(d.phy, f) + Stream(d.link.txMsgs)))
  }

  /** `owed` are the messages accepted for sending and not yet parsed. */
  ghost predicate Hearing(d: Device, now: Micros, f: Flight, owed: seq<TxMsg>) {
    && LoopInv(d.phy, now, f)
    && (d.link.rxMode <==> d.phy.port.tx.state == TxDisabled)
    && (d.link.rxMode ==> d.phy.port.queue == [])
    && END !in d.link.frame
    && Outstanding(d, f) == Stream(owed)
    && OutputOk(d) && AppOk(d.app)
  }

  /** Between turns no symbol and no parsed message is waiting either. */
  ghost predicate Settled(d: Device, now: Micros, f: Flight, owed: seq<TxMsg>) {
    Hearing(d, now, f, owed) && d.rxFifo == [] && d.link.rxMsgs == []
  }

  // ---- One turn ----

  lemma PhyHears(d: Device, now: Micros, gap: nat, f: Flight, owed: seq<TxMsg>) returns (f': Flight)
    requires Settled(d, now, f, owed) && 1 <= gap <= MOST_JITTER
    ensures var d1 := PhyTurn(d, Advance(now, gap), !d.phy.port.drive);
            && Hearing(d1, Advance(now, gap), f', owed)
            && |d1.rxFifo| <= 1 && d1.link == d.link && d1.app == d.app
  {
    hide LoopInv, Stream, Pending, RxStep, TxStep;
    var next := Advance(now, gap);
    f' := StepKeeps(d.phy, now, gap, f);
    var s := LoopStep(d.phy, next);
    PushedWithRoom(d.rxFifo, s.out, BYTE_MAX);
    Regroup(s.out, Pending(s.phy, f'), Stream(d.link.txMsgs));
    Regroup([], Pending(d.phy, f), Stream(d.link.txMsgs));
    Regroup(s.out, [], []);
    TakenFromHead(d.phy.port, next);
    DisabledStays(d.phy.port, next);
    Regroup([], Pending(d.phy, f) + Stream(d.link.txMsgs), []);
  }

  /** What the link hears: nothing new, or the first message owed. */
  lemma PopHears(d: Device, now: Micros, f: Flight, owed: seq<TxMsg>) returns (owed': seq<TxMsg>)
    requires Hearing(d, now, f, owed) && |d.rxFifo| <= 1 && d.link.rxMsgs == []
    ensures FrameRoom(d.link)
    ensures var d2 := PopTurn(d);
            && Hearing(d2, now, f, owed') && d2.rxFifo == []
            && ((owed' == owed && d2.link.rxMsgs == [])
                || (owed != [] && owed' == owed[1..] && d2.link.rxMsgs == [Parse(Frame(owed[0]))]))
  {
    hide LoopInv, Stream, Pending, Parse, Frame;
    var line := Pending(d.phy, f) + Stream(d.link.txMsgs);
    PartOfFirstFrame(owed, d.link.frame, d.rxFifo + line);
    owed' := owed;
    if d.rxFifo != [] {
      var symbol := d.rxFifo[0];
      assert d.rxFifo == [symbol] && d.rxFifo[1..] == [];
      Regroup(d.link.frame, [symbol], line);
      Regroup([], line, []);
      if symbol == END {
        FirstFrame(owed, d.link.frame, line);
        owed' := owed[1..];
        PushedWithRoom(d.link.rxMsgs, [Parse(d.link.frame)], RX_MSG_MAX);
      }
    }
  }

  lemma LinkHears(d: Device, now: Micros, f: Flight, owed: seq<TxMsg>)
    requires Hearing(d, now, f, owed) && PushRoom(d)
    ensures var d3 := LinkTurn(d);
            Hearing(d3, now, f, owed) && d3.rxFifo == d.rxFifo && d3.link.rxMsgs == d.link.rxMsgs && d3.app == d.app
  {
    LinkTurnConserves(d);
    if !d.link.rxMode && d.link.txMsgs != [] {
      SendHears(d, now, f, owed);
    } else {
      TurnHears(d, now, f, owed);
    }
  }

  /** Pushing a whole message behind the others keeps the PHY's invariant. */
  lemma PushKeepsLoop(p: Phy, now: Micros, f: Flight, more: seq<byte>)
    requires LoopInv(p, now, f) && Whole(more)
    ensures LoopInv(p.(port := p.port.(queue := p.port.queue + more)), now, f)
    ensures Pending(p.(port := p.port.(queue := p.port.queue + more)), f) == Pending(p, f) + more
  {
    hide TxShifter, RxShifter, BitOf;
    WholeConcat(p.port.queue, more);
    Regroup([f.nibble], p.port.queue, more);
    Regroup([END], p.port.queue, more);
    match p.port.tx.state
    case TxSending =>
    case TxSendingOne | TxSendingZero =>
    case TxBitGap =>
    case _ =>
  }

  lemma SendHears(d: Device, now: Micros, f: Flight, owed: seq<TxMsg>)
    requires Hearing(d, now, f, owed) && PushRoom(d) && !d.link.rxMode && d.link.txMsgs != []
    ensures Hearing(LinkTurn(d), now, f, owed)
  {
    hide LoopInv, Pending, Serialise, Whole;
    var m := d.link.txMsgs[0];
    var rest := Stream(d.link.txMsgs[1..]);
    LinkTurnConserves(d);
    SerialisedIsWhole(m);
    PushKeepsLoop(d.phy, now, f, Serialise(m));
    assert Stream(d.link.txMsgs) == Serialise(m) + rest;
    PushedWithRoom(d.phy.port.queue, Serialise(m), BYTE_MAX);
    Regroup(Pending(d.phy, f), Serialise(m), rest);
    assert LinkTurn(d).phy == d.phy.(port := d.phy.port.(queue := d.phy.port.queue + Serialise(m)));
  }

  lemma TurnHears(d: Device, now: Micros, f: Flight, owed: seq<TxMsg>)
    requires Hearing(d, now, f, owed) && (d.link.rxMode || d.link.txMsgs == [])
    ensures Hearing(LinkTurn(d), now, f, owed)
  {
    hide SendingInv, LowInv, BitGapInv, Serialise;
    LinkTurnConserves(d);
    PushedNone(d.phy.port.queue, BYTE_MAX);
  }

  lemma AppHears(d: Device, now: Micros, f: Flight, owed: seq<TxMsg>, sends: seq<TxMsg>)
    requires Hearing(d, now, f, owed) && d.rxFifo == [] && |d.link.rxMsgs| <= 1
    ensures Settled(AppTurn(d, sends), now, f, owed + Accepted(DecodeTurn(d), sends))
  {
    hide LoopInv, Stream, Pending, Decode, Accepted;
    if d.link.rxMsgs != [] {
      DecodeKeepsOk(d.app, d.link.rxMsgs[0]);
    }
    var d4 := DecodeTurn(d);
    var more := Accepted(d4, sends);
    CommandTurnAdds(d4, sends);
    AcceptedBounded(d4, sends);
    StreamConcat(d.link.txMsgs, more);
    StreamConcat(owed, more);
    Regroup(Pending(d.phy, f), Stream(d.link.txMsgs), Stream(more));
    Regroup(d.rxFifo, Pending(d.phy, f) + Stream(d.link.txMsgs), Stream(more));
    Regroup(d.link.frame, d.rxFifo + (Pending(d.phy, f) + Stream(d.link.txMsgs)), Stream(more));
  }

  lemma TurnHeard(d: Device, now: Micros, gap: nat, sends: seq<TxMsg>, f: Flight, owed: seq<TxMsg>)
    returns (f': Flight, owed': seq<TxMsg>)
    requires Settled(d, now, f, owed) && 1 <= gap <= MOST_JITTER && FrameRoom(d.link)
    requires TurnRoom(d, Advance(now, gap), !d.phy.port.drive)
    ensures var next, pin := Advance(now, gap), !d.phy.port.drive;
            && Settled(Turn(d, next, pin, sends), next, f', owed' + AcceptedInTurn(d, next, pin, sends))
            && ((owed' == owed && HeardIn(d, next, pin) == [])
                || (owed != [] && owed' == owed[1..] && HeardIn(d, next, pin) == [Parse(Frame(owed[0]))]))
  {
    var next := Advance(now, gap);
    f' := PhyHears(d, now, gap, f, owed);
    hide Hearing, PhyTurn, LinkTurn, AppTurn, Parse, Frame, Accepted, DecodeTurn, PushRoom;
    var d1 := PhyTurn(d, next, !d.phy.port.drive);
    owed' := PopHears(d1, next, f', owed);
    var d2 := PopTurn(d1);
    LinkHears(d2, next, f', owed');
    AppHears(LinkTurn(d2), next, f', owed', sends);
  }

  // ---- Runs ----

  /** Called in time on its own bus: the pin shows what the device drives, gaps are at most 225. */
  predicate Own(d: Device, now: Micros, inputs: seq<Input>)
    requires QueuesOk(d)
    decreases |inputs|
  {
    inputs == [] || !FrameRoom(d.link) ||
    var i := inputs[0];
    var next := Advance(now, i.gap);
    QueuesKept(d, next, i.pinHi, i.sends);
    && i.pinHi == !d.phy.port.drive && 1 <= i.gap <= MOST_JITTER
    && Own(Turn(d, next, i.pinHi, i.sends), next, inputs[1..])
  }

  lemma {:induction false} OwnConcat(d: Device, now: Micros, a: seq<Input>, b: seq<Input>)
    requires QueuesOk(d) && FramesFit(d, now, a)
    ensures QueuesOk(Run(d, now, a))
    ensures Own(d, now, a + b) <==> Own(d, now, a) && Own(Run(d, now, a), EndTime(now, a), b)
    decreases |a|
  {
    hide Turn, QueuesOk;
    if a == [] {
      assert a + b == b;
    } else {
      assert (a + b)[1..] == a[1..] + b;
      var next := Advance(now, a[0].gap);
      DirectionOkIsApp(d);
      QueuesKept(d, next, a[0].pinHi, a[0].sends);
      OwnConcat(Turn(d, next, a[0].pinHi, a[0].sends), next, a[1..], b);
    }
  }

  function Parses(ms: seq<TxMsg>): seq<RxMsg> {
    seq(|ms|, i requires 0 <= i < |ms| => Parse(Frame(ms[i])))
  }

  /** `heard` are the parses of the first of `all`, and `owed` is the rest. */
  ghost predicate Explains(all: seq<TxMsg>, heard: seq<RxMsg>, owed: seq<TxMsg>) {
    |heard| <= |all| && heard == Parses(all[..|heard|]) && owed == all[|heard|..]
  }

  lemma ExplainTurn(owed: seq<TxMsg>, owed1: seq<TxMsg>, now: seq<RxMsg>, more: seq<TxMsg>, accepted: seq<TxMsg>,
                    heard: seq<RxMsg>, owed': seq<TxMsg>)
    requires (owed1 == owed && now == []) || (owed != [] && owed1 == owed[1..] && now == [Parse(Frame(owed[0]))])
    requires Explains((owed1 + more) + accepted, heard, owed')
    ensures Explains(owed + (more + accepted), now + heard, owed')
  {
    hide Parse, Frame;
    var all, later := owed + (more + accepted), (owed1 + more) + accepted;
    if now == [] {
      assert later == all && now + heard == heard;
    } else {
      assert all == [owed[0]] + later;
      assert all[..1 + |heard|] == [owed[0]] + later[..|heard|];
    }
  }

  lemma SettledHasRoom(d: Device, now: Micros, f: Flight, owed: seq<TxMsg>)
    requires Settled(d, now, f, owed)
    ensures FrameRoom(d.link)
  {
    PartOfFirstFrame(owed, d.link.frame, d.rxFifo + (Pending(d.phy, f) + Stream(d.link.txMsgs)));
  }

  /** What was heard is the parse of the first of what was sent; the rest is still on its way. */
  lemma {:induction false} HearsItself(d: Device, now: Micros, inputs: seq<Input>, f: Flight, owed: seq<TxMsg>)
    returns (f': Flight, owed': seq<TxMsg>)
    requires QueuesOk(d) && Settled(d, now, f, owed)
    requires Own(d, now, inputs) && RoomThroughout(d, now, inputs)
    ensures FramesFit(d, now, inputs)
    ensures Settled(Run(d, now, inputs), EndTime(now, inputs), f', owed')
    ensures Explains(owed + AcceptedIn(d, now, inputs), LogOf(d, now, inputs).heard, owed')
    decreases |inputs|
  {
    SettledHasRoom(d, now, f, owed);
    if inputs == [] {
      f', owed' := f, owed;
      assert owed + [] == owed;
      return;
    }
    hide Settled, Parse, Frame, HeardIn, AcceptedInTurn, Turn, Explains, QueuesOk, TurnRoom, CarriedOutIn;
    SettledIsApp(d, now, f, owed);
    var i := inputs[0];
    var next := Advance(now, i.gap);
    QueuesKept(d, next, i.pinHi, i.sends);
    var d' := Turn(d, next, i.pinHi, i.sends);
    var f1, owed1 := TurnHeard(d, now, i.gap, i.sends, f, owed);
    var more := AcceptedInTurn(d, next, i.pinHi, i.sends);
    f', owed' := HearsItself(d', next, inputs[1..], f1, owed1 + more);
    ExplainTurn(owed, owed1, HeardIn(d, next, i.pinHi), more, AcceptedIn(d', next, inputs[1..]),
                LogOf(d', next, inputs[1..]).heard, owed');
  }

  lemma SettledIsApp(d: Device, now: Micros, f: Flight, owed: seq<TxMsg>)
    requires Settled(d, now, f, owed)
    ensures AppOk(d.app)
  {
  }

  // ---- Quiescence ----

  predicate Quiet(d: Device) {
    !TxBusy(d.phy.port) && d.link.txMsgs == []
  }

  lemma QuietOwesNothing(d: Device, now: Micros, f: Flight, owed: seq<TxMsg>)
    requires Settled(d, now, f, owed) && Quiet(d)
    ensures owed == []
  {
    assert Pending(d.phy, f) == [];
    PartOfFirstFrame(owed, d.link.frame, []);
  }

  lemma StartSettled(now: Micros)
    ensures Settled(DEVICE_START, now, Flight(0, 0), [])
  {
  }

  /** A use of the link from power-up, on the own bus, in time, with room for what is pushed. */
  predicate Use(now: Micros, inputs: seq<Input>) {
    Own(DEVICE_START, now, inputs) && RoomThroughout(DEVICE_START, now, inputs)
  }

  /**
   * From power-up on its own bus, for every schedule with gaps of at most 225 and every use of the
   * link that finds room: nothing is lost, repeated, reordered or misread, and when the device is
   * quiet everything sent has been heard.
   */
  lemma OwnMessagesHeard(now: Micros, inputs: seq<Input>)
    requires Use(now, inputs)
    ensures FramesFit(DEVICE_START, now, inputs)
    ensures var heard, accepted := LogOf(DEVICE_START, now, inputs).heard, AcceptedIn(DEVICE_START, now, inputs);
            && |heard| <= |accepted| && heard == Parses(accepted[..|heard|])
            && (Quiet(Run(DEVICE_START, now, inputs)) ==> heard == Parses(accepted))
  {
    hide Settled, Run, LogOf, AcceptedIn, Own, RoomThroughout, Quiet, Parse, Frame;
    StartSettled(now);
    var heard, accepted := LogOf(DEVICE_START, now, inputs).heard, AcceptedIn(DEVICE_START, now, inputs);
    var f, owed := HearsItself(DEVICE_START, now, inputs, Flight(0, 0), []);
    assert [] + accepted == accepted;
    if Quiet(Run(DEVICE_START, now, inputs)) {
      QuietOwesNothing(Run(DEVICE_START, now, inputs), EndTime(now, inputs), f, owed);
      assert accepted[..|heard|] == accepted;
    }
  }
}
