// How long delivery takes, and end to end: the fields given to a message builder are the fields
// the device reads back off its own bus.
module Delivery {
  import opened Sequences
  import opened Clock
  import opened PhySpec
  import opened ReceiverProofs
  import opened FifoQueue
  import opened LinkSpec
  import opened AppSpec
  import opened DeviceSpec
  import opened TransmitterTiming
  import opened ClosedLoop
  import opened LinkProofs
  import opened BusProtocol
  import opened Output
  import opened Reception
  import opened OwnBus

  lemma {:induction false} CostConcat(a: seq<byte>, b: seq<byte>, gap: nat)
    ensures QueueCost(a + b, gap) == QueueCost(a, gap) + QueueCost(b, gap)
  {
    if a == [] {
      assert a + b == b;
    } else {
      assert (a + b)[1..] == a[1..] + b;
      CostConcat(a[1..], b, gap);
    }
  }

  /** Time until there is nothing left to send, if nothing is added: work, turnaround and the turn that starts it. */
  function TimeLeft(d: Device, now: Micros): int {
    WorkLeft(d.phy.port.tx, now, MOST_JITTER) + QueueCost(ToSend(d), MOST_JITTER) +
    if TxBusy(d.phy.port) || d.link.txMsgs == [] then 0
    else if d.link.rxMode then 3100 + 3 * MOST_JITTER else MOST_JITTER
  }

  lemma WorkIsTimeLeft(d: Device, now: Micros)
    ensures WorkLeft(d.phy.port.tx, now, MOST_JITTER) + QueueCost(ToSend(d), MOST_JITTER) ==
            Work(d.phy.port, now, MOST_JITTER) + QueueCost(Stream(d.link.txMsgs), MOST_JITTER)
  {
    CostConcat(d.phy.port.queue, Stream(d.link.txMsgs), MOST_JITTER);
  }

  lemma NotQuietHasTime(d: Device, now: Micros)
    requires TimersOk(d.phy.port.tx, now) && !Quiet(d)
    ensures 0 < TimeLeft(d, now)
  {
    WorkIsTimeLeft(d, now);
    if TxBusy(d.phy.port) {
      BusyHasWork(d.phy.port, now, MOST_JITTER);
    }
  }

  /** The PHY's part of a turn. */
  lemma PhyTurnTime(d: Device, now: Micros, gap: nat)
    requires TimersOk(d.phy.port.tx, now) && 1 <= gap <= MOST_JITTER
    ensures var d1 := PhyTurn(d, Advance(now, gap), !d.phy.port.drive);
            && TimersOk(d1.phy.port.tx, Advance(now, gap))
            && d1.link == d.link
            && (if TxBusy(d.phy.port)
                then WorkLeft(d1.phy.port.tx, Advance(now, gap), MOST_JITTER) + QueueCost(ToSend(d1), MOST_JITTER) + gap
                     <= WorkLeft(d.phy.port.tx, now, MOST_JITTER) + QueueCost(ToSend(d), MOST_JITTER)
                else d1.phy.port.tx == d.phy.port.tx && d1.phy.port.queue == d.phy.port.queue)
  {
    var next := Advance(now, gap);
    hide RxStep, WorkLeft, QueueCost, TxStep, TimersOk;
    var d1 := PhyTurn(d, next, !d.phy.port.drive);
    StepTimers(d.phy.port, now, gap, MOST_JITTER);
    WorkIsTimeLeft(d, now);
    WorkIsTimeLeft(d1, next);
    if TxBusy(d.phy.port) {
      StepUpper(d.phy.port, now, gap, MOST_JITTER);
    } else {
      NotBusyStays(d.phy.port, next);
    }
  }

  lemma NotBusyStays(p: TxPort, at: Micros)
    requires !TxBusy(p)
    ensures TxStep(p, at).tx == p.tx && TxStep(p, at).queue == p.queue
  {
  }

  /** The link's part: a direction change or a push, neither of which adds to what is to be sent. */
  lemma LinkTurnTime(d1: Device, next: Micros, f: Flight, owed: seq<TxMsg>)
    requires Hearing(d1, next, f, owed) && TimersOk(d1.phy.port.tx, next) && PushRoom(d1)
    ensures var d3 := LinkTurn(d1);
            && TimersOk(d3.phy.port.tx, next)
            && ToSend(d3) == ToSend(d1)
            && (if TxBusy(d1.phy.port) || d1.link.txMsgs == []
                then TimeLeft(d3, next) ==
                     WorkLeft(d1.phy.port.tx, next, MOST_JITTER) + QueueCost(ToSend(d1), MOST_JITTER)
                else TimeLeft(d3, next) == TimeLeft(d1, next) - MOST_JITTER)
  {
    LinkTurnConserves(d1);
    AtRestWhenListening(d1, next, f, owed);
    var out := LinkStep(d1.link, RxBusy(d1.phy.rx), TxBusy(d1.phy.port)).out;
    hide LoopInv, Serialise, Hearing, ToSend;
    if out == [] {
      PushedNone(d1.phy.port.queue, BYTE_MAX);
    } else {
      PushedGrows(d1.phy.port.queue, out, BYTE_MAX);
    }
    SerialiseNotEmpty(d1);
  }

  lemma {:induction false} PushedGrows<T>(contents: seq<T>, items: seq<T>, capacity: nat)
    requires items != [] && 0 < capacity
    ensures Pushed(contents, items, capacity) != []
    decreases |items|
  {
    var more := if |contents| < capacity then contents + [items[0]] else contents;
    if items[1..] == [] {
      PushedNone(more, capacity);
    } else {
      PushedGrows(more, items[1..], capacity);
    }
  }

  lemma AtRestWhenListening(d: Device, now: Micros, f: Flight, owed: seq<TxMsg>)
    requires Hearing(d, now, f, owed)
    ensures d.link.rxMode ==> !RxBusy(d.phy.rx)
  {
  }

  // ---- Messages that cause no reply ----

  /** Not addressed to the device, which hears itself; `BuiltNoReply`: none it builds is. */
  predicate NoReply(m: TxMsg) {
    !Parse(Frame(m)).h2c
  }

  /** Digit `k` has its top bit set. */
  predicate TopBit(pack: bv64, k: nat)
    requires k < 16
  {
    Digit(pack, k) & 8 != 0
  }

  /** A message whose first digit has its top bit set is not the head unit's. */
  lemma FirstDigitTells(m: TxMsg)
    requires 1 <= m.num && TopBit(m.pack, m.num - 1)
    ensures NoReply(m)
  {
    hide Digit, CheckSum, CopyError, CheckSumOk;
    assert Frame(m)[0] == Digit(m.pack, m.num - 1);
    assert Digit(m.pack, m.num - 1) != 1;
  }

  lemma TopBitStays(x: bv64, y: bv64, z: bv64)
    ensures TopBit(0x994000000000001 | x | y | z, 14)
    ensures TopBit(0x9B900000001 | x | y, 10)
    ensures TopBit(0x9C001007502F | x | y | z, 11)
  {
  }

  lemma PlayingTopBit(t: byte, i: byte, ms: bv16)
    ensures TopBit(PlayingPack(t, i, ms), 14)
  {
    hide Widen, TopBit;
    TopBitStays((t as bv64) << 40, (i as bv64) << 32, Widen((ms as bv32) << 16));
  }

  lemma ChangingTopBit(d: byte, t: byte)
    ensures TopBit(ChangingPack(d, t), 10)
  {
    hide Widen, TopBit;
    TopBitStays(Widen((d as bv32) << 28), Widen((t as bv32) << 20), 0);
  }

  lemma DiskInfoTopBit(d: byte, n: byte, ms: bv16)
    ensures TopBit(DiskInfoPack(d, n, ms), 11)
  {
    hide Widen, TopBit;
    TopBitStays((d as bv64) << 36, Widen((n as bv32) << 20), Widen((ms as bv32) << 4));
  }

  lemma ConstantTopBits()
    ensures TopBit(0x992000000000009, 14) && TopBit(0x9A0000000000, 11) && TopBit(0x9F00000, 6)
    ensures TopBit(0x9D00000000, 9) && TopBit(0x98, 1)
  {
  }

  /** Whatever the fields, and whether or not they can be read back, no message the device builds causes a reply. */
  lemma BuiltNoReply(a: byte, b: byte, seconds: Seconds)
    ensures NoReply(PlayingMsg(a, b, seconds)) && NoReply(ChangingMsg(a, b)) && NoReply(DiskInfoMsg(a, b, seconds))
    ensures NoReply(STOPPED_MSG) && NoReply(CD_POWER_ON_MSG) && NoReply(ACK_WAIT_MSG) && NoReply(UNKNOWN_STATUS_MSG)
    ensures NoReply(PING_MSG)
  {
    hide ToBcd, ToMinSec, Widen, TopBit, PlayingPack, ChangingPack, DiskInfoPack, NoReply;
    ConstantTopBits();
    PlayingTopBit(ToBcd(a + 1), ToBcd(b), ToMinSec(seconds));
    ChangingTopBit(a, ToBcd(b + 1));
    DiskInfoTopBit(a, ToBcd(b), ToMinSec(seconds));
    FirstDigitTells(PlayingMsg(a, b, seconds));
    FirstDigitTells(ChangingMsg(a, b));
    FirstDigitTells(DiskInfoMsg(a, b, seconds));
    FirstDigitTells(STOPPED_MSG);
    FirstDigitTells(CD_POWER_ON_MSG);
    FirstDigitTells(ACK_WAIT_MSG);
    FirstDigitTells(UNKNOWN_STATUS_MSG);
    FirstDigitTells(PING_MSG);
  }

  lemma NoReplyNoCommand(a: App, m: TxMsg)
    requires AppOk(a) && NoReply(m)
    ensures Decode(a, Parse(Frame(m))) == a
  {
  }

  // ---- Draining ----

  predicate NoReplies(ms: seq<TxMsg>) {
    forall m | m in ms :: NoReply(m)
  }

  /** Everything still owed causes no reply, and no command is waiting. */
  ghost predicate Draining(d: Device, now: Micros, f: Flight, owed: seq<TxMsg>) {
    && Settled(d, now, f, owed)
    && TimersOk(d.phy.port.tx, now)
    && d.app.cmds == []
    && NoReplies(owed)
  }

  /** The application's part of a turn in which it hears nothing it has to react to. */
  lemma AppTurnDrains(d: Device, owed: seq<TxMsg>, sends: seq<TxMsg>)
    requires AppOk(d.app) && d.app.cmds == [] && |d.link.txMsgs| <= TX_MSG_MAX
    requires d.link.rxMsgs == [] || (owed != [] && d.link.rxMsgs == [Parse(Frame(owed[0]))] && NoReply(owed[0]))
    ensures var more := Accepted(DecodeTurn(d), sends);
            && AppTurn(d, sends) == d.(link := d.link.(rxMsgs := [], txMsgs := d.link.txMsgs + more))
            && more == Fitting(d.link.txMsgs, sends, TX_MSG_MAX)
  {
    if d.link.rxMsgs != [] {
      NoReplyNoCommand(d.app, owed[0]);
    }
    hide Parse, Frame, Decode;
    assert [] + sends == sends;
    PushedFitting(d.link.txMsgs, sends, TX_MSG_MAX);
  }

  /** Popping a symbol touches nothing the time left depends on. */
  lemma PopTurnTime(d: Device, now: Micros)
    requires FrameRoom(d.link)
    ensures var d2 := PopTurn(d);
            d2.phy == d.phy && d2.link.txMsgs == d.link.txMsgs && d2.link.rxMode == d.link.rxMode && d2.app == d.app
  {
  }

  lemma BusDrains(d: Device, now: Micros, gap: nat, f: Flight, owed: seq<TxMsg>)
    returns (f': Flight, owed': seq<TxMsg>)
    requires Settled(d, now, f, owed) && TimersOk(d.phy.port.tx, now)
    requires 1 <= gap <= MOST_JITTER && FrameRoom(d.link) && TurnRoom(d, Advance(now, gap), !d.phy.port.drive)
    ensures var next := Advance(now, gap);
            var d3 := BusTurn(d, next, !d.phy.port.drive);
            && Hearing(d3, next, f', owed') && d3.rxFifo == [] && d3.app == d.app
            && TimersOk(d3.phy.port.tx, next)
            && ((owed' == owed && d3.link.rxMsgs == [])
                || (owed != [] && owed' == owed[1..] && d3.link.rxMsgs == [Parse(Frame(owed[0]))]))
            && (if Quiet(d) then Quiet(d3) else TimeLeft(d3, next) + gap <= TimeLeft(d, now))
  {
    var next := Advance(now, gap);
    f' := PhyHears(d, now, gap, f, owed);
    PhyTurnTime(d, now, gap);
    hide Hearing, WorkLeft, QueueCost, TimersOk, Stream, Parse, Frame, PhyTurn, PopTurn, LinkTurn, LinkRx, PushRoom;
    var d1 := PhyTurn(d, next, !d.phy.port.drive);
    owed' := PopHears(d1, next, f', owed);
    PopTurnTime(d1, next);
    var d2 := PopTurn(d1);
    LinkHears(d2, next, f', owed');
    LinkTurnTime(d2, next, f', owed');
    if Quiet(d) {
      QuietStays(d2);
    }
  }

  lemma AppKeepsTime(d: Device, now: Micros)
    ensures var d4 := d.(link := d.link.(rxMsgs := []));
            (Quiet(d4) <==> Quiet(d)) && TimeLeft(d4, now) == TimeLeft(d, now)
  {
    hide WorkLeft, QueueCost, Stream;
  }

  lemma NoRepliesLeft(owed: seq<TxMsg>, owed': seq<TxMsg>, sends: seq<TxMsg>, more: seq<TxMsg>, waiting: seq<TxMsg>)
    requires NoReplies(owed) && NoReplies(sends) && more == Fitting(waiting, sends, TX_MSG_MAX)
    requires owed' == owed || (owed != [] && owed' == owed[1..])
    ensures NoReplies(owed' + more)
    ensures sends == [] ==> more == []
  {
    hide NoReply;
  }

  /**
   * A turn in which nothing is sent that causes a reply. If nothing is sent at all, the time left
   * drops by the gap, or the device stays quiet.
   */
  lemma DrainTurn(d: Device, now: Micros, gap: nat, sends: seq<TxMsg>, f: Flight, owed: seq<TxMsg>)
    returns (f': Flight, owed': seq<TxMsg>)
    requires Draining(d, now, f, owed) && 1 <= gap <= MOST_JITTER && FrameRoom(d.link)
    requires TurnRoom(d, Advance(now, gap), !d.phy.port.drive) && NoReplies(sends)
    ensures var next, pin := Advance(now, gap), !d.phy.port.drive;
            var d' := Turn(d, next, pin, sends);
            && Draining(d', next, f', owed' + AcceptedInTurn(d, next, pin, sends))
            && ((owed' == owed && HeardIn(d, next, pin) == [])
                || (owed != [] && owed' == owed[1..] && HeardIn(d, next, pin) == [Parse(Frame(owed[0]))]))
            && (sends == [] ==>
                  && AcceptedInTurn(d, next, pin, sends) == []
                  && (if Quiet(d) then Quiet(d') else TimeLeft(d', next) + gap <= TimeLeft(d, now)))
  {
    hide TimeLeft, Quiet, TimersOk, BusTurn, NoReply, Parse, Frame, LoopInv, Stream, Outstanding, TurnRoom;
    var next := Advance(now, gap);
    f', owed' := BusDrains(d, now, gap, f, owed);
    var d3 := BusTurn(d, next, !d.phy.port.drive);
    SentIsListed(d3, next, f', owed');
    AppTurnDrains(d3, owed, sends);
    AppKeepsTime(d3, next);
    AppHears(d3, next, f', owed', sends);
    NoRepliesLeft(owed, owed', sends, AcceptedInTurn(d, next, !d.phy.port.drive, sends), d3.link.txMsgs);
    assert d3.link.txMsgs + [] == d3.link.txMsgs;
  }

  lemma SentIsListed(d: Device, now: Micros, f: Flight, owed: seq<TxMsg>)
    requires Hearing(d, now, f, owed)
    ensures OutputOk(d) && AppOk(d.app)
  {
  }

  lemma QuietStays(d: Device)
    requires Quiet(d)
    ensures Quiet(LinkTurn(d))
  {
    PushedNone(d.phy.port.queue, BYTE_MAX);
  }

  predicate NoSends(inputs: seq<Input>) {
    forall i | 0 <= i < |inputs| :: inputs[i].sends == []
  }

  predicate NoReplySends(inputs: seq<Input>) {
    forall i | 0 <= i < |inputs| :: NoReplies(inputs[i].sends)
  }

  /** What the first turn of a run and the rest of it inherit. */
  lemma FirstInput(d: Device, now: Micros, inputs: seq<Input>)
    requires inputs != [] && QueuesOk(d) && FrameRoom(d.link)
    requires Own(d, now, inputs) && RoomThroughout(d, now, inputs) && NoReplySends(inputs)
    ensures AppOk(d.app)
    ensures var i := inputs[0];
            var next := Advance(now, i.gap);
            var d' := Turn(d, next, i.pinHi, i.sends);
            && i.pinHi == !d.phy.port.drive && 1 <= i.gap <= MOST_JITTER && NoReplies(i.sends)
            && TurnRoom(d, next, i.pinHi)
            && QueuesOk(d') && Own(d', next, inputs[1..]) && RoomThroughout(d', next, inputs[1..])
            && NoReplySends(inputs[1..])
            && (NoSends(inputs) ==> i.sends == [] && NoSends(inputs[1..]))
            && Duration(Gaps(inputs)) == i.gap + Duration(Gaps(inputs[1..]))
  {
    hide Turn, NoReplies, TurnRoom;
    DirectionOkIsApp(d);
    QueuesKept(d, Advance(now, inputs[0].gap), inputs[0].pinHi, inputs[0].sends);
    assert Gaps(inputs)[1..] == Gaps(inputs[1..]);
  }

  /**
   * Over any run of sends that cause no reply, what is heard is the parse of the first of what was
   * sent; and left alone, the device hears everything it still owed within the time left.
   */
  lemma {:induction false} Drains(d: Device, now: Micros, inputs: seq<Input>, f: Flight, owed: seq<TxMsg>)
    returns (f': Flight, owed': seq<TxMsg>)
    requires QueuesOk(d) && Draining(d, now, f, owed)
    requires Own(d, now, inputs) && RoomThroughout(d, now, inputs) && NoReplySends(inputs)
    ensures FramesFit(d, now, inputs)
    ensures var end := Run(d, now, inputs);
            && Draining(end, EndTime(now, inputs), f', owed')
            && Explains(owed + AcceptedIn(d, now, inputs), LogOf(d, now, inputs).heard, owed')
            && (NoSends(inputs) ==>
                  AcceptedIn(d, now, inputs) == []
                  && (Quiet(d) || TimeLeft(d, now) <= Duration(Gaps(inputs)) ==> Quiet(end)))
    decreases |inputs|
  {
    SettledHasRoom(d, now, f, owed);
    if inputs == [] {
      f', owed' := f, owed;
      if !Quiet(d) {
        NotQuietHasTime(d, now);
      }
      assert owed + [] == owed;
      return;
    }
    FirstInput(d, now, inputs);
    hide Draining, TimeLeft, Quiet, Parse, Frame, HeardIn, AcceptedInTurn, Turn, Explains, QueuesOk, TurnRoom, NoSends,
         NoReplies, NoReplySends, CarriedOutIn, Own, RoomThroughout, Gaps;
    var i := inputs[0];
    var next := Advance(now, i.gap);
    var d' := Turn(d, next, i.pinHi, i.sends);
    var f1, owed1 := DrainTurn(d, now, i.gap, i.sends, f, owed);
    var more := AcceptedInTurn(d, next, i.pinHi, i.sends);
    f', owed' := Drains(d', next, inputs[1..], f1, owed1 + more);
    ExplainTurn(owed, owed1, HeardIn(d, next, i.pinHi), more, AcceptedIn(d', next, inputs[1..]),
                LogOf(d', next, inputs[1..]).heard, owed');
  }

  // ---- In time ----

  lemma StartDraining(now: Micros)
    ensures QueuesOk(DEVICE_START) && Draining(DEVICE_START, now, Flight(0, 0), [])
  {
    StartSettled(now);
  }

  /**
   * Whatever use was made of the link by sends that cause no reply: once nothing more is sent, after
   * the time left everything accepted has been heard.
   */
  lemma HeardInTime(now: Micros, use: seq<Input>, rest: seq<Input>)
    requires Use(now, use + rest) && NoReplySends(use) && NoSends(rest)
    requires Duration(Gaps(rest)) >= TimeLeft(Run(DEVICE_START, now, use), EndTime(now, use))
    ensures FramesFit(DEVICE_START, now, use + rest) && Quiet(Run(DEVICE_START, now, use + rest))
    ensures LogOf(DEVICE_START, now, use + rest).heard == Parses(AcceptedIn(DEVICE_START, now, use))
  {
    hide Draining, TimeLeft, Quiet, NoReply, Run, LogOf, AcceptedIn, Own, RoomThroughout, QueuesOk, Explains, Parses;
    StartDraining(now);
    UsePrefix(now, use, rest);
    var f, owed := Drains(DEVICE_START, now, use, Flight(0, 0), []);
    RunConcat(DEVICE_START, now, use, rest);
    OwnConcat(DEVICE_START, now, use, rest);
    OutputConcat(DEVICE_START, now, use, rest);
    NoSendsNoReplies(rest);
    var f', owed' := Drains(Run(DEVICE_START, now, use), EndTime(now, use), rest, f, owed);
    OwnMessagesHeard(now, use + rest);
    Regroup(AcceptedIn(DEVICE_START, now, use), [], []);
  }

  /** A use of the link up to some point is one too. */
  lemma {:induction false} OwnPrefix(d: Device, now: Micros, a: seq<Input>, b: seq<Input>)
    requires QueuesOk(d) && Own(d, now, a + b) && RoomThroughout(d, now, a + b)
    ensures Own(d, now, a) && RoomThroughout(d, now, a)
    decreases |a|
  {
    hide Turn, QueuesOk, TurnRoom;
    if a != [] && FrameRoom(d.link) {
      assert (a + b)[1..] == a[1..] + b;
      var next := Advance(now, a[0].gap);
      DirectionOkIsApp(d);
      QueuesKept(d, next, a[0].pinHi, a[0].sends);
      OwnPrefix(Turn(d, next, a[0].pinHi, a[0].sends), next, a[1..], b);
    }
  }

  lemma UsePrefix(now: Micros, use: seq<Input>, rest: seq<Input>)
    requires Use(now, use + rest)
    ensures Use(now, use)
  {
    StartOk();
    hide Own, RoomThroughout;
    OwnPrefix(DEVICE_START, now, use, rest);
  }

  lemma NoSendsNoReplies(inputs: seq<Input>)
    requires NoSends(inputs)
    ensures NoReplySends(inputs)
  {
  }

  // ---- End to end ----

  lemma SmallTurn(d: Device, now: Micros, gap: nat, f: Flight, owed: seq<TxMsg>) returns (f': Flight, owed': seq<TxMsg>)
    requires QueuesOk(d) && Draining(d, now, f, owed) && |ToSend(d)| <= BYTE_MAX
    requires FrameRoom(d.link) && 1 <= gap <= MOST_JITTER
    ensures AppOk(d.app)
    ensures var next, pin := Advance(now, gap), !d.phy.port.drive;
            var d' := Turn(d, next, pin, []);
            TurnRoom(d, next, pin) && Draining(d', next, f', owed') && |ToSend(d')| <= BYTE_MAX
  {
    var next, pin := Advance(now, gap), !d.phy.port.drive;
    DirectionOkIsApp(d);
    IsOutputOk(d, now, f, owed);
    SmallTurnHasRoom(d, next, pin);
    hide Draining, Turn, TurnRoom, ToSend, AcceptedInTurn, HeardIn, OutputOk, TimeLeft, Parse, Frame;
    TurnConserves(d, next, pin, []);
    f', owed' := DrainTurn(d, now, gap, [], f, owed);
    assert owed' + [] == owed';
  }

  /** With no more to send than the PHY queue holds, and nothing added, there is room throughout. */
  lemma {:induction false} SmallHasRoom(d: Device, now: Micros, inputs: seq<Input>, f: Flight, owed: seq<TxMsg>)
    requires QueuesOk(d) && Draining(d, now, f, owed) && |ToSend(d)| <= BYTE_MAX
    requires Own(d, now, inputs) && NoSends(inputs)
    ensures RoomThroughout(d, now, inputs)
    decreases |inputs|
  {
    if inputs != [] && FrameRoom(d.link) {
      hide Draining, Turn, QueuesOk, TurnRoom, ToSend;
      var i := inputs[0];
      var next := Advance(now, i.gap);
      DirectionOkIsApp(d);
      QueuesKept(d, next, i.pinHi, i.sends);
      var f1, owed1 := SmallTurn(d, now, i.gap, f, owed);
      SmallHasRoom(Turn(d, next, i.pinHi, i.sends), next, inputs[1..], f1, owed1);
    }
  }

  lemma IsOutputOk(d: Device, now: Micros, f: Flight, owed: seq<TxMsg>)
    requires Draining(d, now, f, owed)
    ensures OutputOk(d)
  {
  }

  lemma SmallTurnHasRoom(d: Device, at: Micros, pinHi: bool)
    requires FrameRoom(d.link) && OutputOk(d) && |ToSend(d)| <= BYTE_MAX
    ensures TurnRoom(d, at, pinHi)
  {
    HeadTaken(d, at, pinHi);
    hide PhyTurn, PopTurn, Pushing, Stream;
    LinkPushes(PopTurn(PhyTurn(d, at, pinHi)));
  }

  /** Messages that fit the queues and cause no reply. */
  predicate Sendable(ms: seq<TxMsg>) {
    |ms| <= 16 && |Stream(ms)| <= 256 && NoReplies(ms)
  }

  lemma QuietIsFree(d: Device, now: Micros, f: Flight)
    requires Hearing(d, now, f, []) && Quiet(d)
    ensures TimersOk(d.phy.port.tx, now) && d.phy.port.queue == [] && d.link.txMsgs == []
    ensures WorkLeft(d.phy.port.tx, now, MOST_JITTER) == 0
  {
  }

  lemma QuietTurnHasRoom(d: Device, at: Micros, pinHi: bool)
    requires FrameRoom(d.link) && OutputOk(d) && d.phy.port.queue == [] && d.link.txMsgs == []
    ensures TurnRoom(d, at, pinHi)
  {
    SmallTurnHasRoom(d, at, pinHi);
  }

  lemma SentTime(d: Device, now: Micros, ms: seq<TxMsg>)
    requires d.phy.port.queue == [] && d.link.txMsgs == [] && WorkLeft(d.phy.port.tx, now, MOST_JITTER) == 0
    ensures var d' := d.(link := d.link.(txMsgs := ms));
            ToSend(d') == Stream(ms)
            && TimeLeft(d', now) <= 3100 + 3 * MOST_JITTER + QueueCost(Stream(ms), MOST_JITTER)
  {
    hide WorkLeft, QueueCost, Stream;
    var d' := d.(link := d.link.(txMsgs := ms));
    assert ToSend(d') == Stream(ms);
  }

  /** A quiet device's turn that sends: it hears nothing, and owes exactly what it sent. */
  lemma SendingTurn(d: Device, now: Micros, gap: nat, f: Flight, ms: seq<TxMsg>) returns (f': Flight)
    requires Settled(d, now, f, []) && Quiet(d) && d.app.cmds == []
    requires Sendable(ms) && 1 <= gap <= MOST_JITTER && FrameRoom(d.link)
    ensures var next, pin := Advance(now, gap), !d.phy.port.drive;
            var d' := Turn(d, next, pin, ms);
            && TurnRoom(d, next, pin) && Draining(d', next, f', ms) && |ToSend(d')| <= BYTE_MAX
            && AcceptedInTurn(d, next, pin, ms) == ms && HeardIn(d, next, pin) == []
            && TimeLeft(d', next) <= 3100 + 3 * MOST_JITTER + QueueCost(Stream(ms), MOST_JITTER)
  {
    QuietIsFree(d, now, f);
    hide TimeLeft, TimersOk, BusTurn, NoReply, Parse, Frame, LoopInv, Stream, Outstanding, WorkLeft, QueueCost,
         TurnRoom, TxBusy;
    var next := Advance(now, gap);
    QuietTurnHasRoom(d, next, !d.phy.port.drive);
    var owed: seq<TxMsg>;
    f', owed := BusDrains(d, now, gap, f, []);
    var d3 := BusTurn(d, next, !d.phy.port.drive);
    QuietIsFree(d3, next, f');
    SentIsListed(d3, next, f', []);
    AppTurnDrains(d3, [], ms);
    SentTime(d3, next, ms);
    AppHears(d3, next, f', [], ms);
    assert [] + ms == ms;
  }

  /** After some use the device is quiet and no command waits. */
  ghost predicate QuietAfter(now: Micros, before: seq<Input>) {
    Use(now, before) && var end := Run(DEVICE_START, now, before); Quiet(end) && end.app.cmds == []
  }

  /** A turn of the quiet device in which it sends, and turns in which it does not, all in time. */
  ghost predicate SentWhenQuiet(now: Micros, before: seq<Input>, sending: Input, after: seq<Input>) {
    QuietAfter(now, before) && Own(DEVICE_START, now, before + [sending] + after) && NoSends(after)
  }

  /** Quiet after any use: settled, with nothing owed. */
  lemma AfterUse(now: Micros, before: seq<Input>) returns (f: Flight)
    requires QuietAfter(now, before)
    ensures FramesFit(DEVICE_START, now, before)
    ensures Settled(Run(DEVICE_START, now, before), EndTime(now, before), f, [])
  {
    hide Settled, Run, LogOf, AcceptedIn, Own, RoomThroughout, Quiet, Explains;
    var owed;
    StartSettled(now);
    f, owed := HearsItself(DEVICE_START, now, before, Flight(0, 0), []);
    QuietOwesNothing(Run(DEVICE_START, now, before), EndTime(now, before), f, owed);
  }

  /** Left alone long enough, a draining device hears all it owes. */
  lemma AllHeard(d: Device, now: Micros, inputs: seq<Input>, f: Flight, ms: seq<TxMsg>)
    requires QueuesOk(d) && Draining(d, now, f, ms) && |ToSend(d)| <= BYTE_MAX
    requires Own(d, now, inputs) && NoSends(inputs)
    requires TimeLeft(d, now) <= Duration(Gaps(inputs))
    ensures FramesFit(d, now, inputs) && LogOf(d, now, inputs).heard == Parses(ms)
    ensures Quiet(Run(d, now, inputs)) && Run(d, now, inputs).app.cmds == []
  {
    NoSendsNoReplies(inputs);
    SmallHasRoom(d, now, inputs, f, ms);
    var f', owed := Drains(d, now, inputs, f, ms);
    hide TimeLeft, Quiet, NoReply, Stream, Parses, LoopInv, Outstanding, Run, LogOf, AcceptedIn;
    var heard := LogOf(d, now, inputs).heard;
    QuietOwesNothing(Run(d, now, inputs), EndTime(now, inputs), f', owed);
    assert ms + [] == ms && ms[..|heard|] == ms;
  }

  lemma OneTurn(d: Device, now: Micros, i: Input)
    requires QueuesOk(d) && FrameRoom(d.link)
    ensures AppOk(d.app) && FramesFit(d, now, [i])
    ensures var next := Advance(now, i.gap);
            && Run(d, now, [i]) == Turn(d, next, i.pinHi, i.sends) && EndTime(now, [i]) == next
            && LogOf(d, now, [i]).heard == HeardIn(d, next, i.pinHi)
            && (Own(d, now, [i]) ==> i.pinHi == !d.phy.port.drive && 1 <= i.gap <= MOST_JITTER)
  {
    hide Turn, HeardIn, CarriedOutIn, QueuesOk;
    DirectionOkIsApp(d);
    var next := Advance(now, i.gap);
    QueuesKept(d, next, i.pinHi, i.sends);
    assert [i][1..] == [];
    Regroup(HeardIn(d, next, i.pinHi), [], []);
  }

  /**
   * Whatever a quiet device sends is heard: after the turnaround and the cost of the symbols, for every
   * clock and every schedule with gaps of at most 225, the parses of exactly these messages, and nothing
   * between what was heard before and them.
   */
  lemma EndToEnd(now: Micros, before: seq<Input>, sending: Input, after: seq<Input>)
    requires SentWhenQuiet(now, before, sending, after) && Sendable(sending.sends)
    requires Duration(Gaps(after)) >= 3100 + 3 * MOST_JITTER + QueueCost(Stream(sending.sends), MOST_JITTER)
    ensures var all := before + [sending] + after;
            && FramesFit(DEVICE_START, now, all)
            && LogOf(DEVICE_START, now, all).heard == LogOf(DEVICE_START, now, before).heard + Parses(sending.sends)
  {
    hide TimeLeft, Quiet, Turn, AcceptedInTurn, HeardIn, Stream, Parses, LoopInv, Outstanding, QueueCost, NoSends,
         Run, LogOf, Own, RoomThroughout, FramesFit, Sendable, Settled, Draining, TurnRoom, QueuesOk, Gaps, EndTime,
         ToSend;
    StartOk();
    var f := AfterUse(now, before);
    var d, t := Run(DEVICE_START, now, before), EndTime(now, before);
    var all := before + [sending];
    OwnConcat(DEVICE_START, now, before, [sending] + after);
    Regroup(before, [sending], after);
    SettledHasRoom(d, t, f, []);
    OneTurn(d, t, sending);
    OwnConcat(d, t, [sending], after);
    var f1 := SendingTurn(d, t, sending.gap, f, sending.sends);
    RunConcat(d, t, [sending], after);
    LogConcat(d, t, [sending], after);
    AllHeard(Run(d, t, [sending]), EndTime(t, [sending]), after, f1, sending.sends);
    RunConcat(DEVICE_START, now, before, [sending] + after);
    LogConcat(DEVICE_START, now, before, [sending] + after);
    Regroup([], Parses(sending.sends), []);
  }

  lemma {:induction false} NibblesCost(s: seq<byte>)
    requires AllNibbles(s)
    ensures QueueCost(s, MOST_JITTER) == |s| * 14425
  {
    if s != [] {
      NibblesCost(s[1..]);
    }
  }

  /** 14.425 ms for each digit and the checksum, 6.875 ms for END. */
  lemma MessageCost(m: TxMsg)
    ensures QueueCost(Stream([m]), MOST_JITTER) == (m.num + 1) * 14425 + 6875
    ensures |Stream([m])| <= 18
  {
    BuiltFrame(m);
    var f := Frame(m);
    assert Stream([m]) == f + [END];
    NibblesCost(f);
    CostConcat(f, [END], MOST_JITTER);
    assert QueueCost([END], MOST_JITTER) == 6875;
  }

  /** Exactly one message more has been heard over the whole than at the end of `before`. */
  ghost predicate OneMoreHeard(now: Micros, before: seq<Input>, sending: Input, after: seq<Input>, msg: RxMsg) {
    LogOf(DEVICE_START, now, before + [sending] + after).heard == LogOf(DEVICE_START, now, before).heard + [msg]
  }

  lemma OneDelivered(now: Micros, before: seq<Input>, sending: Input, after: seq<Input>, m: TxMsg)
    requires SentWhenQuiet(now, before, sending, after) && sending.sends == [m] && NoReply(m)
    requires Duration(Gaps(after)) >= 3775 + (m.num + 1) * 14425 + 6875
    ensures OneMoreHeard(now, before, sending, after, Parse(Frame(m)))
  {
    hide Parse, Frame, LogOf, SentWhenQuiet;
    MessageCost(m);
    EndToEnd(now, before, sending, after);
  }

  lemma PlayingHasFifteen(track: byte, index: byte, seconds: Seconds)
    ensures PlayingMsg(track, index, seconds).num == 15
  {
  }

  /** A playing message of a quiet device arrives with the fields it was built from, within 241.45 ms. */
  lemma PlayingDelivered(now: Micros, before: seq<Input>, sending: Input, after: seq<Input>,
                         track: byte, index: byte, seconds: Seconds)
    returns (msg: RxMsg)
    requires track <= 158 && index <= 159 && seconds < 4800
    requires SentWhenQuiet(now, before, sending, after) && sending.sends == [PlayingMsg(track, index, seconds)]
    requires Duration(Gaps(after)) >= 241450
    ensures OneMoreHeard(now, before, sending, after, msg) && TellsPlaying(msg, track, index, seconds)
  {
    var m := PlayingMsg(track, index, seconds);
    PlayingHasFifteen(track, index, seconds);
    PlayingRoundTrip(track, index, seconds);
    BuiltNoReply(track, index, seconds);
    hide PlayingMsg, Parse, Frame, NoReply, SentWhenQuiet, OneMoreHeard, TellsPlaying;
    msg := Parse(Frame(m));
    OneDelivered(now, before, sending, after, m);
  }

  lemma ChangingHasEleven(disk: byte, track: byte)
    ensures ChangingMsg(disk, track).num == 11
  {
  }

  /** A changing message likewise, within 183.75 ms. */
  lemma ChangingDelivered(now: Micros, before: seq<Input>, sending: Input, after: seq<Input>, disk: byte, track: byte)
    returns (msg: RxMsg)
    requires disk <= 7 && track <= 158
    requires SentWhenQuiet(now, before, sending, after) && sending.sends == [ChangingMsg(disk, track)]
    requires Duration(Gaps(after)) >= 183750
    ensures OneMoreHeard(now, before, sending, after, msg) && TellsChanging(msg, disk, track)
  {
    var m := ChangingMsg(disk, track);
    ChangingHasEleven(disk, track);
    ChangingRoundTrip(disk, track);
    BuiltNoReply(disk, track, 0);
    hide ChangingMsg, Parse, Frame, NoReply, SentWhenQuiet, OneMoreHeard, TellsChanging;
    msg := Parse(Frame(m));
    OneDelivered(now, before, sending, after, m);
  }

  /**
   * In any use of the link, at any load: the message heard in the place of a playing or a changing one
   * tells what that was built from.
   */
  lemma FieldsHeard(now: Micros, inputs: seq<Input>, k: nat, a: byte, b: byte, seconds: Seconds)
    requires Use(now, inputs)
    requires k < |LogOf(DEVICE_START, now, inputs).heard|
    ensures k < |AcceptedIn(DEVICE_START, now, inputs)|
    ensures var msg, sent := LogOf(DEVICE_START, now, inputs).heard[k], AcceptedIn(DEVICE_START, now, inputs)[k];
            && (sent == PlayingMsg(a, b, seconds) && a <= 158 && b <= 159 && seconds < 4800 ==>
                  TellsPlaying(msg, a, b, seconds))
            && (sent == ChangingMsg(a, b) && a <= 7 && b <= 158 ==> TellsChanging(msg, a, b))
  {
    hide LogOf, AcceptedIn, Parse, Frame, PlayingMsg, ChangingMsg, TellsPlaying, TellsChanging, Quiet, Run, Use;
    OwnMessagesHeard(now, inputs);
    PlayingRoundTrip(a, b, seconds);
    ChangingRoundTrip(a, b);
  }

  // ---- Starting to play ----

  /** What the application sends in the turn in which it starts to play. */
  function StartPlaying(disk: byte, numTracks: byte, track: byte, index: byte, seconds: Seconds): seq<TxMsg> {
    [ChangingMsg(disk, track), ACK_WAIT_MSG, DiskInfoMsg(disk, numTracks, seconds), ACK_WAIT_MSG,
     PlayingMsg(track, index, seconds)]
  }

  function DigitsIn(ms: seq<TxMsg>): nat {
    if ms == [] then 0 else ms[0].num + DigitsIn(ms[1..])
  }

  lemma {:induction false} StreamCost(ms: seq<TxMsg>)
    ensures QueueCost(Stream(ms), MOST_JITTER) == DigitsIn(ms) * 14425 + |ms| * 21300
    ensures |Stream(ms)| == DigitsIn(ms) + 2 * |ms|
  {
    hide Serialise;
    if ms != [] {
      OneStream(ms[0]);
      MessageCost(ms[0]);
      StreamCost(ms[1..]);
      CostConcat(Serialise(ms[0]), Stream(ms[1..]), MOST_JITTER);
    }
  }

  lemma OneStream(m: TxMsg)
    ensures Stream([m]) == Serialise(m) && |Serialise(m)| == m.num + 2
  {
    BuiltFrame(m);
    hide Frame;
    assert [m][1..] == [] && Serialise(m) + [] == Serialise(m);
  }

  lemma FiveDigits(ms: seq<TxMsg>)
    requires |ms| == 5
    ensures DigitsIn(ms) == ms[0].num + ms[1].num + ms[2].num + ms[3].num + ms[4].num
  {
    assert DigitsIn(ms[4..]) == ms[4].num + DigitsIn(ms[5..]) && ms[4..][1..] == ms[5..];
    assert DigitsIn(ms[3..]) == ms[3].num + DigitsIn(ms[4..]) && ms[3..][1..] == ms[4..];
    assert DigitsIn(ms[2..]) == ms[2].num + DigitsIn(ms[3..]) && ms[2..][1..] == ms[3..];
    assert DigitsIn(ms[1..]) == ms[1].num + DigitsIn(ms[2..]) && ms[1..][1..] == ms[2..];
  }

  lemma StartPlayingSendable(disk: byte, numTracks: byte, track: byte, index: byte, seconds: Seconds)
    ensures var ms := StartPlaying(disk, numTracks, track, index, seconds);
            Sendable(ms) && DigitsIn(ms) == 52 && |ms| == 5
  {
    var ms := StartPlaying(disk, numTracks, track, index, seconds);
    BuiltNoReply(track, index, seconds);
    BuiltNoReply(disk, track, seconds);
    BuiltNoReply(disk, numTracks, seconds);
    StreamCost(ms);
    hide NoReply, PlayingPack, ChangingPack, DiskInfoPack, Stream;
    FiveDigits(ms);
  }

  /** The five messages as a listener would want them. */
  predicate TellsStart(msgs: seq<RxMsg>, disk: byte, numTracks: byte, track: byte, index: byte, seconds: Seconds) {
    && |msgs| == 5
    && TellsChanging(msgs[0], disk, track)
    && msgs[1].errId == 0 && msgs[1].body == AckWait
    && TellsDisk(msgs[2], disk, numTracks)
    && msgs[3].errId == 0 && msgs[3].body == AckWait
    && TellsPlaying(msgs[4], track, index, seconds)
  }

  lemma StartPlayingTells(disk: byte, numTracks: byte, track: byte, index: byte, seconds: Seconds)
    requires disk <= 7 && numTracks <= 159 && track <= 158 && index <= 159 && seconds < 4800
    ensures TellsStart(Parses(StartPlaying(disk, numTracks, track, index, seconds)),
                       disk, numTracks, track, index, seconds)
  {
    ChangingRoundTrip(disk, track);
    AckWaitParse();
    DiskInfoRoundTrip(disk, numTracks, seconds);
    PlayingRoundTrip(track, index, seconds);
    hide Parse, Frame, TellsChanging, TellsDisk, TellsPlaying, ChangingMsg, DiskInfoMsg, PlayingMsg;
  }

  /**
   * Starting to play pushes five messages in one turn. From a quiet device all five are heard, in order
   * and with their fields, and nothing else, within 860.375 ms.
   */
  lemma StartPlayingDelivered(now: Micros, before: seq<Input>, sending: Input, after: seq<Input>,
                              disk: byte, numTracks: byte, track: byte, index: byte, seconds: Seconds)
    returns (msgs: seq<RxMsg>)
    requires disk <= 7 && numTracks <= 159 && track <= 158 && index <= 159 && seconds < 4800
    requires SentWhenQuiet(now, before, sending, after)
    requires sending.sends == StartPlaying(disk, numTracks, track, index, seconds)
    requires Duration(Gaps(after)) >= 860375
    ensures TellsStart(msgs, disk, numTracks, track, index, seconds)
    ensures LogOf(DEVICE_START, now, before + [sending] + after).heard == LogOf(DEVICE_START, now, before).heard + msgs
  {
    StartPlayingSendable(disk, numTracks, track, index, seconds);
    StreamCost(sending.sends);
    StartPlayingTells(disk, numTracks, track, index, seconds);
    hide Parses, LogOf, SentWhenQuiet, StartPlaying, TellsStart, Sendable, Stream, DigitsIn, Gaps;
    msgs := Parses(sending.sends);
    EndToEnd(now, before, sending, after);
  }
}
