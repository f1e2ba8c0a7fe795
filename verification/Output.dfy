// Conservation of what the device has to send: symbols already with the transmitter, followed by
// the serialised messages still with the link.
module Output {
  import opened Sequences
  import opened Clock
  import opened PhySpec
  import opened FifoQueue
  import opened LinkSpec
  import opened AppSpec
  import opened DeviceSpec
  import opened BusProtocol

  function Stream(ms: seq<TxMsg>): seq<byte> {
    if ms == [] then [] else Serialise(ms[0]) + Stream(ms[1..])
  }

  lemma {:induction false} StreamConcat(a: seq<TxMsg>, b: seq<TxMsg>)
    ensures Stream(a + b) == Stream(a) + Stream(b)
  {
    if a == [] {
      assert a + b == b;
    } else {
      assert (a + b)[1..] == a[1..] + b;
      StreamConcat(a[1..], b);
      Regroup(Serialise(a[0]), Stream(a[1..]), Stream(b));
    }
  }

  function ToSend(d: Device): seq<byte> {
    d.phy.port.queue + Stream(d.link.txMsgs)
  }

  /** Both output queues are within their memory. */
  predicate OutputOk(d: Device) {
    |d.phy.port.queue| <= 256 && |d.link.txMsgs| <= 16
  }

  /** What the link's update would push now. */
  function Pushing(d: Device): seq<byte> {
    LinkStep(d.link, RxBusy(d.phy.rx), TxBusy(d.phy.port)).out
  }

  /** The PHY queue has room for it; the source does not check. */
  predicate PushRoom(d: Device) {
    |d.phy.port.queue| + |Pushing(d)| <= 256
  }

  /** What is pushed is the message that leaves the link's queue: the oldest, in every update in transmit mode. */
  lemma LinkPushes(d: Device)
    ensures var d' := LinkTurn(d);
            && d'.phy.port.queue == Pushed(d.phy.port.queue, Pushing(d), BYTE_MAX)
            && Stream(d.link.txMsgs) == Pushing(d) + Stream(d'.link.txMsgs)
            && |d'.link.txMsgs| <= |d.link.txMsgs|
    ensures Pushing(d) == if d.link.rxMode || d.link.txMsgs == [] then [] else Frame(d.link.txMsgs[0]) + [18]
    ensures LinkTurn(d).link.txMsgs == if Pushing(d) == [] then d.link.txMsgs else d.link.txMsgs[1..]
  {
    hide Frame, Pushed;
    PushedNone(d.phy.port.queue, BYTE_MAX);
    SerialiseNotEmpty(d);
    Regroup([], Stream(d.link.txMsgs), []);
  }

  /**
   * Moving a message from the link to the PHY leaves the stream as it is exactly when the PHY queue
   * has room for that message; otherwise the stream gets shorter.
   */
  lemma LinkTurnConserves(d: Device)
    requires OutputOk(d)
    ensures ToSend(LinkTurn(d)) == ToSend(d) <==> PushRoom(d)
    ensures |ToSend(LinkTurn(d))| <= |ToSend(d)| && (|ToSend(LinkTurn(d))| == |ToSend(d)| <==> PushRoom(d))
    ensures OutputOk(LinkTurn(d))
  {
    LinkPushes(d);
    PushedFitting(d.phy.port.queue, Pushing(d), BYTE_MAX);
    hide LinkTurn, Pushing, Stream, Pushed;
    Regroup(d.phy.port.queue, Pushing(d), Stream(LinkTurn(d).link.txMsgs));
  }

  lemma SerialiseNotEmpty(d: Device)
    ensures d.link.txMsgs != [] ==> Serialise(d.link.txMsgs[0]) != []
  {
  }

  /** What the turn adds to the link's queue: the reply to a popped command and the sends that fit. */
  function Accepted(d: Device, sends: seq<TxMsg>): seq<TxMsg> {
    var replies := if d.app.cmds == [] then [] else Replies(d.app.cmds[0]);
    Fitting(d.link.txMsgs, replies + sends, TX_MSG_MAX)
  }

  /** The queue holds 16 messages: as many as find room are accepted, replies before sends. */
  lemma SixteenAccepted(d: Device, sends: seq<TxMsg>)
    requires |d.link.txMsgs| <= 16
    ensures var offered := (if d.app.cmds == [] then [] else Replies(d.app.cmds[0])) + sends;
            && Accepted(d, sends) == (if |d.link.txMsgs| + |offered| <= 16 then offered
                                      else offered[..16 - |d.link.txMsgs|])
            && CommandTurn(d, sends).link.txMsgs == d.link.txMsgs + Accepted(d, sends)
  {
    CommandTurnAdds(d, sends);
  }

  lemma CommandTurnAdds(d: Device, sends: seq<TxMsg>)
    requires |d.link.txMsgs| <= TX_MSG_MAX
    ensures CommandTurn(d, sends).link.txMsgs == d.link.txMsgs + Accepted(d, sends)
    ensures ToSend(CommandTurn(d, sends)) == ToSend(d) + Stream(Accepted(d, sends))
  {
    var replies := if d.app.cmds == [] then [] else Replies(d.app.cmds[0]);
    PushedFitting(d.link.txMsgs, replies + sends, TX_MSG_MAX);
    StreamConcat(d.link.txMsgs, Accepted(d, sends));
    Regroup(d.phy.port.queue, Stream(d.link.txMsgs), Stream(Accepted(d, sends)));
  }

  /** The symbol the transmitter takes in its update, if any. */
  function Taken(p: TxPort): seq<byte> {
    if p.tx.state == TxIdle && p.queue != [] then [p.queue[0]] else []
  }

  lemma TakenFromHead(p: TxPort, at: Micros)
    ensures Taken(p) + TxStep(p, at).queue == p.queue
  {
  }

  function AcceptedInTurn(d: Device, at: Micros, pinHi: bool, sends: seq<TxMsg>): seq<TxMsg>
    requires FrameRoom(d.link) && AppOk(d.app)
  {
    Accepted(DecodeTurn(BusTurn(d, at, pinHi)), sends)
  }

  /** Room for what the link pushes in this turn. */
  predicate TurnRoom(d: Device, at: Micros, pinHi: bool)
    requires FrameRoom(d.link)
  {
    PushRoom(PopTurn(PhyTurn(d, at, pinHi)))
  }

  /** The PHY's turn and the symbol the link takes leave the stream but for its head. */
  lemma HeadTaken(d: Device, at: Micros, pinHi: bool)
    requires FrameRoom(d.link) && OutputOk(d)
    ensures var d2 := PopTurn(PhyTurn(d, at, pinHi));
            Taken(d.phy.port) + ToSend(d2) == ToSend(d) && OutputOk(d2) && d2.app == d.app
  {
    hide TxStep, RxStep, Parse, Stream, Pushed;
    TakenFromHead(d.phy.port, at);
    var d2 := PopTurn(PhyTurn(d, at, pinHi));
    assert d2.phy.port.queue == TxStep(d.phy.port, at).queue && d2.link.txMsgs == d.link.txMsgs;
    Regroup(Taken(d.phy.port), d2.phy.port.queue, Stream(d.link.txMsgs));
  }

  /**
   * In a turn the transmitter takes from the head of the stream and accepted messages are added at
   * its end, and exactly if there was room for the message pushed, nothing else changes.
   */
  lemma TurnConserves(d: Device, at: Micros, pinHi: bool, sends: seq<TxMsg>)
    requires FrameRoom(d.link) && AppOk(d.app) && OutputOk(d)
    ensures OutputOk(Turn(d, at, pinHi, sends))
    ensures var before := ToSend(d) + Stream(AcceptedInTurn(d, at, pinHi, sends));
            var after := Taken(d.phy.port) + ToSend(Turn(d, at, pinHi, sends));
            && (after == before <==> TurnRoom(d, at, pinHi))
            && |after| <= |before| && (|after| == |before| <==> TurnRoom(d, at, pinHi))
  {
    HeadTaken(d, at, pinHi);
    var d2 := PopTurn(PhyTurn(d, at, pinHi));
    LinkTurnConserves(d2);
    hide TxStep, RxStep, LinkStep, Parse, Decode, Stream, Pushed, Accepted, PhyTurn, PopTurn, LinkTurn, PushRoom;
    var d4 := DecodeTurn(LinkTurn(d2));
    CommandTurnAdds(d4, sends);
    assert ToSend(d4) == ToSend(LinkTurn(d2));
    AcceptedBounded(d4, sends);
    var more := Stream(Accepted(d4, sends));
    Regroup(Taken(d.phy.port), ToSend(LinkTurn(d2)), more);
    Regroup(Taken(d.phy.port), ToSend(d2), more);
  }

  lemma AcceptedBounded(d: Device, sends: seq<TxMsg>)
    requires |d.link.txMsgs| <= TX_MSG_MAX
    ensures |d.link.txMsgs + Accepted(d, sends)| <= TX_MSG_MAX
  {
  }

  // ---- Runs ----

  /** There is room for every message at the turn it is pushed in. */
  predicate RoomThroughout(d: Device, now: Micros, inputs: seq<Input>)
    requires QueuesOk(d)
    decreases |inputs|
  {
    inputs == [] || !FrameRoom(d.link) ||
    var next := Advance(now, inputs[0].gap);
    QueuesKept(d, next, inputs[0].pinHi, inputs[0].sends);
    && TurnRoom(d, next, inputs[0].pinHi)
    && RoomThroughout(Turn(d, next, inputs[0].pinHi, inputs[0].sends), next, inputs[1..])
  }

  /** Symbols taken by the transmitter over the run. */
  function TakenIn(d: Device, now: Micros, inputs: seq<Input>): seq<byte>
    requires QueuesOk(d)
    decreases |inputs|
  {
    if inputs == [] || !FrameRoom(d.link) then [] else
    var next := Advance(now, inputs[0].gap);
    QueuesKept(d, next, inputs[0].pinHi, inputs[0].sends);
    Taken(d.phy.port) + TakenIn(Turn(d, next, inputs[0].pinHi, inputs[0].sends), next, inputs[1..])
  }

  /** Messages accepted for sending over the run. */
  function AcceptedIn(d: Device, now: Micros, inputs: seq<Input>): seq<TxMsg>
    requires QueuesOk(d)
    decreases |inputs|
  {
    if inputs == [] || !FrameRoom(d.link) then [] else
    var next := Advance(now, inputs[0].gap);
    QueuesKept(d, next, inputs[0].pinHi, inputs[0].sends);
    AcceptedInTurn(d, next, inputs[0].pinHi, inputs[0].sends)
    + AcceptedIn(Turn(d, next, inputs[0].pinHi, inputs[0].sends), next, inputs[1..])
  }

  /**
   * Accepted messages are sent once, whole, in order and never interleaved, exactly if there was room
   * for each when it was pushed.
   */
  lemma {:induction false} SentInOrder(d: Device, now: Micros, inputs: seq<Input>)
    requires QueuesOk(d) && FramesFit(d, now, inputs) && OutputOk(d)
    ensures var before := ToSend(d) + Stream(AcceptedIn(d, now, inputs));
            var after := TakenIn(d, now, inputs) + ToSend(Run(d, now, inputs));
            && (after == before <==> RoomThroughout(d, now, inputs))
            && |after| <= |before| && (|after| == |before| <==> RoomThroughout(d, now, inputs))
    decreases |inputs|
  {
    if inputs == [] {
      Regroup(ToSend(d), [], []);
    } else {
      hide Turn, QueuesOk, Taken, AcceptedInTurn, ToSend, OutputOk, TurnRoom, Stream;
      var i := inputs[0];
      var next := Advance(now, i.gap);
      DirectionOkIsApp(d);
      QueuesKept(d, next, i.pinHi, i.sends);
      TurnConserves(d, next, i.pinHi, i.sends);
      var d' := Turn(d, next, i.pinHi, i.sends);
      SentInOrder(d', next, inputs[1..]);
      var taken, accepted := TakenIn(d', next, inputs[1..]), AcceptedIn(d', next, inputs[1..]);
      var first := AcceptedInTurn(d, next, i.pinHi, i.sends);
      StreamConcat(first, accepted);
      Regroup(Taken(d.phy.port), taken, ToSend(Run(d, now, inputs)));
      Regroup(Taken(d.phy.port), ToSend(d'), Stream(accepted));
      Regroup(ToSend(d), Stream(first), Stream(accepted));
    }
  }

  lemma {:induction false} OutputConcat(d: Device, now: Micros, a: seq<Input>, b: seq<Input>)
    requires QueuesOk(d) && FramesFit(d, now, a)
    ensures QueuesOk(Run(d, now, a))
    ensures AcceptedIn(d, now, a + b) == AcceptedIn(d, now, a) + AcceptedIn(Run(d, now, a), EndTime(now, a), b)
    ensures RoomThroughout(d, now, a + b) <==>
            RoomThroughout(d, now, a) && RoomThroughout(Run(d, now, a), EndTime(now, a), b)
    decreases |a|
  {
    hide Turn, QueuesOk, AcceptedInTurn, TurnRoom;
    if a == [] {
      assert a + b == b;
    } else {
      assert (a + b)[1..] == a[1..] + b;
      var next := Advance(now, a[0].gap);
      DirectionOkIsApp(d);
      QueuesKept(d, next, a[0].pinHi, a[0].sends);
      var d' := Turn(d, next, a[0].pinHi, a[0].sends);
      OutputConcat(d', next, a[1..], b);
      Regroup(AcceptedInTurn(d, next, a[0].pinHi, a[0].sends), AcceptedIn(d', next, a[1..]),
              AcceptedIn(Run(d, now, a), EndTime(now, a), b));
    }
  }
}
