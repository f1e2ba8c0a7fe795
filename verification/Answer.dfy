// A ping and its answer, from one waveform to the other: the head unit's half and the device's own.
module Answer {
  import opened Sequences
  import opened Clock
  import opened PhySpec
  import opened FifoQueue
  import opened LinkSpec
  import opened LinkProofs
  import opened ReceiverProofs
  import opened AppSpec
  import opened DeviceSpec
  import opened BusProtocol
  import opened TransmitterTiming
  import opened ClosedLoop
  import opened Output
  import opened Reception
  import opened OwnBus
  import opened Delivery
  import opened HeadUnit

  /** Listening, with nothing queued to send. */
  predicate Silent(d: Device) {
    && d.link.rxMode && d.phy.port.tx.state == TxDisabled && !d.phy.port.drive
    && d.phy.port.queue == [] && d.link.txMsgs == []
  }

  /** Unless a command is carried out, a silent device stays silent; then it has the reply to send. */
  lemma SilentTurn(d: Device, at: Micros, hi: bool)
    requires QueuesOk(d) && FrameRoom(d.link) && AppOk(d.app) && Silent(d)
    ensures var d', cmds := Turn(d, at, hi, []), CarriedOutIn(d, at, hi);
            && Silent(d'.(link := d'.link.(txMsgs := [])))
            && d'.link.txMsgs == if cmds == [] then [] else Replies(cmds[0])
  {
    SilentBus(d, at, hi);
    hide BusTurn, Decode, Replies;
    var d4 := DecodeTurn(BusTurn(d, at, hi));
    var replies := if d4.app.cmds == [] then [] else Replies(d4.app.cmds[0]);
    FewReplies(d4.app);
    PushedWithRoom([], replies + [], TX_MSG_MAX);
    Regroup(replies, [], []);
  }

  lemma FewReplies(a: App)
    ensures a.cmds != [] ==> |Replies(a.cmds[0])| <= 1
  {
  }

  lemma SilentBus(d: Device, at: Micros, hi: bool)
    requires QueuesOk(d) && FrameRoom(d.link) && Silent(d)
    ensures Silent(BusTurn(d, at, hi)) && BusTurn(d, at, hi).app == d.app
  {
    hide RxStep, Parse, Serialise;
    DisabledStays(d.phy.port, at);
    PushedNone(d.phy.port.queue, BYTE_MAX);
  }

  lemma {:induction false} SilentRun(d: Device, now: Micros, inputs: seq<Input>)
    requires QueuesOk(d) && FramesFit(d, now, inputs) && Silent(d) && NoSends(inputs)
    requires LogOf(d, now, inputs).carriedOut == []
    ensures Silent(Run(d, now, inputs))
    decreases |inputs|
  {
    if inputs != [] {
      hide Turn, QueuesOk, HeardIn, CarriedOutIn, Replies;
      var i := inputs[0];
      var next := Advance(now, i.gap);
      DirectionOkIsApp(d);
      QueuesKept(d, next, i.pinHi, i.sends);
      SilentTurn(d, next, i.pinHi);
      assert CarriedOutIn(d, next, i.pinHi) == [];
      SilentRun(Turn(d, next, i.pinHi, i.sends), next, inputs[1..]);
    }
  }

  lemma PongNoReply()
    ensures NoReply(PING_MSG)
  {
    BuiltNoReply(0, 0, 0);
  }

  /** An attentive, silent device given messages to send that cause no reply. */
  lemma ReadyToSend(d: Device, now: Micros, ms: seq<TxMsg>)
    requires Attentive(d) && Silent(d.(link := d.link.(txMsgs := []))) && d.link.txMsgs == ms && d.app.cmds == []
    requires Sendable(ms)
    ensures Draining(d, now, Flight(0, 0), ms) && |ToSend(d)| <= BYTE_MAX
    ensures TimeLeft(d, now) <= 3100 + 3 * MOST_JITTER + QueueCost(Stream(ms), MOST_JITTER)
  {
    hide Stream, NoReply;
    var idle := d.(link := d.link.(txMsgs := []));
    SentTime(idle, now, ms);
    Regroup([], Stream(ms), []);
    Regroup(Stream(ms), [], []);
  }

  /** The last input of a run that shows a message with one look at the line after it. */
  lemma LastInput(now: Micros, inputs: seq<Input>, u: Utterance)
    requires Seen(now, inputs) == UtteranceSamples(u) && |u.highs| == 1
    ensures inputs != []
    ensures var before, last := inputs[..|inputs| - 1], inputs[|inputs| - 1];
            inputs == before + [last] && last.pinHi && Advance(EndTime(now, before), last.gap) == u.highs[0]
  {
    hide TrainSamples;
    SeenPrefix(now, inputs, |inputs|);
    assert Samples(u.highs, true) == [Sample(u.highs[0], true)];
    var before, last := inputs[..|inputs| - 1], inputs[|inputs| - 1];
    assert inputs == before + [last];
    SeenLast(now, before, last);
    LastOf(Seen(now, before), Sample(Advance(EndTime(now, before), last.gap), last.pinHi),
           TrainSamples(u.train), Sample(u.highs[0], true));
  }

  lemma LastOf(a: seq<Sample>, x: Sample, b: seq<Sample>, y: Sample)
    requires a + [x] == b + [y]
    ensures x == y
  {
    assert (a + [x])[|a + [x]| - 1] == x && (b + [y])[|b + [y]| - 1] == y;
  }

  lemma {:induction false} SeenLast(now: Micros, before: seq<Input>, last: Input)
    ensures Seen(now, before + [last]) ==
            Seen(now, before) + [Sample(Advance(EndTime(now, before), last.gap), last.pinHi)]
    decreases |before|
  {
    if before == [] {
      assert before + [last] == [last] && [last][1..] == [];
    } else {
      assert (before + [last])[1..] == before[1..] + [last];
      SeenLast(Advance(now, before[0].gap), before[1..], last);
    }
  }

  /** The device after it was shown a ping: listening, with the pong to send and nothing else to do. */
  lemma PingHeard(d: Device, now: Micros, inputs: seq<Input>, u: Utterance)
    requires Shown(d, now, inputs, u) && u.body == Ping && |u.highs| == 1
    requires Silent(d) && d.app.cmds == [] && NoSends(inputs)
    ensures FramesFit(d, now, inputs) && LogOf(d, now, inputs).heard == [Said(Ping)]
    ensures var end := Run(d, now, inputs);
            && Attentive(end) && end.app.cmds == [] && end.link.txMsgs == [PING_MSG]
            && Silent(end.(link := end.link.(txMsgs := [])))
  {
    LastInput(now, inputs, u);
    var before, last := inputs[..|inputs| - 1], inputs[|inputs| - 1];
    ShownIsOk(d, now, inputs, u);
    AsksForPong(d.app);
    PrefixSendsNothing(inputs);
    hide Run, LogOf, QueuesOk, Said, Spoken, UtteranceSamples, HeardIn, CarriedOutIn, Turn, Understood, Seen, Silent,
         NoSends, EndTime, AtRest, FramesFit;
    OneHeard(d, now, inputs, u);
    HeardInItsTurn(d, now, inputs, u);
    var d1 := Run(d, now, before);
    NoneLeft(LogOf(d, now, before).carriedOut, d1.app.cmds);
    SilentRun(d, now, before);
    PingInItsTurn(d1, u.highs[0], true);
    RunConcat(d, now, before, [last]);
    LogConcat(d, now, before, [last]);
    OneTurn(d1, EndTime(now, before), last);
    OneCommand(d1, EndTime(now, before), last);
    SilentTurn(d1, u.highs[0], true);
    assert LogOf(d, now, inputs).carriedOut == [] + [PING];
    AfterTheOne(Run(d, now, inputs).app.cmds);
  }

  lemma PrefixSendsNothing(inputs: seq<Input>)
    requires inputs != [] && NoSends(inputs)
    ensures NoSends(inputs[..|inputs| - 1]) && inputs[|inputs| - 1].sends == []
  {
  }

  lemma NoneLeft(a: seq<Cmd>, b: seq<Cmd>)
    requires a + b == []
    ensures a == [] && b == []
  {
    assert |a + b| == |a| + |b|;
  }

  lemma AfterTheOne(rest: seq<Cmd>)
    requires [] + [PING] == ([] + [PING]) + rest
    ensures rest == []
  {
    assert |([] + [PING]) + rest| == 1 + |rest|;
  }

  lemma OneCommand(d: Device, now: Micros, i: Input)
    requires QueuesOk(d) && FrameRoom(d.link)
    ensures AppOk(d.app)
    ensures LogOf(d, now, [i]).carriedOut == CarriedOutIn(d, Advance(now, i.gap), i.pinHi)
  {
    hide Turn, HeardIn, CarriedOutIn, QueuesOk;
    DirectionOkIsApp(d);
    var next := Advance(now, i.gap);
    QueuesKept(d, next, i.pinHi, i.sends);
    assert [i][1..] == [];
    Regroup(CarriedOutIn(d, next, i.pinHi), [], []);
  }

  lemma AttentiveIsOk(d: Device)
    requires Attentive(d)
    ensures QueuesOk(d)
  {
  }

  lemma OneParse(m: TxMsg)
    ensures Parses([m]) == [Parse(Frame(m))]
  {
    hide Parse, Frame;
  }

  /** The pong's half: the bus is turned around, the pong is sent and comes back. */
  lemma PongSent(d: Device, now: Micros, rest: seq<Input>)
    requires Attentive(d) && d.app.cmds == [] && d.link.txMsgs == [PING_MSG]
    requires Silent(d.(link := d.link.(txMsgs := [])))
    requires Own(d, now, rest) && NoSends(rest) && Duration(Gaps(rest)) >= 53925
    ensures FramesFit(d, now, rest) && LogOf(d, now, rest).heard == [Parse(Frame(PING_MSG))]
    ensures Quiet(Run(d, now, rest))
  {
    PongNoReply();
    MessageCost(PING_MSG);
    OneParse(PING_MSG);
    hide Run, LogOf, QueuesOk, Parse, Frame, Own, Draining, TimeLeft, Quiet, Parses, Stream, QueueCost, NoReply, Gaps,
         ToSend, NoSends;
    ReadyToSend(d, now, [PING_MSG]);
    AllHeard(d, now, rest, Flight(0, 0), [PING_MSG]);
  }

  /** After the first inputs, for which there is room, the bus is left to the device. */
  predicate LeftAlone(d: Device, now: Micros, inputs: seq<Input>, rest: seq<Input>)
    requires QueuesOk(d)
  {
    FramesFit(d, now, inputs) ==>
      (RunConcat(d, now, inputs, rest);
       Own(Run(d, now, inputs), EndTime(now, inputs), rest))
  }

  /**
   * A ping on the wire is answered on the wire. A listening device with nothing to do is shown a ping
   * within tolerance, and the bus is then left to it for 53.925 ms: it turns the bus around, and what
   * goes over the line after the ping is exactly one pong, read back without error.
   */
  lemma PingAnsweredOnWire(d: Device, now: Micros, inputs: seq<Input>, u: Utterance, rest: seq<Input>)
    requires Shown(d, now, inputs, u) && u.body == Ping && |u.highs| == 1
    requires Silent(d) && d.app.cmds == [] && NoSends(inputs) && NoSends(rest)
    requires LeftAlone(d, now, inputs, rest) && Duration(Gaps(rest)) >= 53925
    ensures FramesFit(d, now, inputs + rest) && Quiet(Run(d, now, inputs + rest))
    ensures LogOf(d, now, inputs + rest).heard == [Said(Ping), Parse(Frame(PING_MSG))]
    ensures Parse(Frame(PING_MSG)).errId == 0 && Parse(Frame(PING_MSG)).body == Pong
  {
    ShownIsOk(d, now, inputs, u);
    PingParse();
    hide Run, LogOf, QueuesOk, Said, Parse, Frame, Own, Quiet, Gaps, NoSends, FramesFit, Shown, EndTime, Silent;
    PingHeard(d, now, inputs, u);
    AttentiveIsOk(Run(d, now, inputs));
    PongSent(Run(d, now, inputs), EndTime(now, inputs), rest);
    RunConcat(d, now, inputs, rest);
    LogConcat(d, now, inputs, rest);
  }
}
