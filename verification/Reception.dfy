// What the device makes of whatever it receives. On any waveform, whatever its transmitter is doing
// and whatever its application sends: every symbol the receiver pushes is consumed in order, every
// frame parsed once, every message's commands carried out once and in order.
module Reception {
  import opened Sequences
  import opened Clock
  import opened PhySpec
  import opened FifoQueue
  import opened LinkSpec
  import opened ReceiverProofs
  import opened AppSpec
  import opened DeviceSpec
  import opened BusProtocol

  // ---- Frames in a stream of symbols ----

  /** The frames a stream closes, and the one it leaves open. */
  datatype Split = Split(frames: seq<seq<byte>>, open: seq<byte>)

  function SplitAt(open: seq<byte>, symbols: seq<byte>): Split
    decreases |symbols|
  {
    if symbols == [] then Split([], open)
    else if symbols[0] == END then
      var rest := SplitAt([], symbols[1..]);
      Split([open] + rest.frames, rest.open)
    else SplitAt(open + [symbols[0]], symbols[1..])
  }

  /** No frame of the stream has more than the 31 symbols the source has room for. */
  predicate Fit(open: seq<byte>, symbols: seq<byte>)
    decreases |symbols|
  {
    |open| < NIBBLE_ARRAY_SIZE &&
    (symbols == [] || Fit(if symbols[0] == END then [] else open + [symbols[0]], symbols[1..]))
  }

  function ParseAll(frames: seq<seq<byte>>): seq<RxMsg> {
    seq(|frames|, i requires 0 <= i < |frames| => Parse(frames[i]))
  }

  lemma {:induction false} SplitConcat(open: seq<byte>, a: seq<byte>, b: seq<byte>)
    ensures SplitAt(open, a + b) ==
            var first := SplitAt(open, a);
            var second := SplitAt(first.open, b);
            Split(first.frames + second.frames, second.open)
    ensures Fit(open, a + b) <==> Fit(open, a) && Fit(SplitAt(open, a).open, b)
    decreases |a|
  {
    if a == [] {
      assert a + b == b;
    } else {
      assert (a + b)[1..] == a[1..] + b;
      SplitConcat(if a[0] == END then [] else open + [a[0]], a[1..], b);
    }
  }

  /** Symbols without END only lengthen the frame. */
  lemma {:induction false} NoEndSplits(open: seq<byte>, symbols: seq<byte>)
    requires END !in symbols
    ensures SplitAt(open, symbols) == Split([], open + symbols)
    ensures |open| + |symbols| < NIBBLE_ARRAY_SIZE ==> Fit(open, symbols)
    decreases |symbols|
  {
    if symbols == [] {
      assert open + symbols == open;
    } else {
      assert symbols == [symbols[0]] + symbols[1..];
      NoEndSplits(open + [symbols[0]], symbols[1..]);
      assert open + symbols == open + [symbols[0]] + symbols[1..];
    }
  }

  lemma OneEnd(f: seq<byte>)
    ensures SplitAt(f, [END]) == Split([f], [])
    ensures |f| < NIBBLE_ARRAY_SIZE ==> Fit(f, [END])
  {
    assert [END][1..] == [];
    assert SplitAt([], []) == Split([], []) && Fit([], []);
  }

  lemma EndSplits(f: seq<byte>)
    requires END !in f
    ensures SplitAt([], f + [END]) == Split([f], [])
    ensures |f| < NIBBLE_ARRAY_SIZE ==> Fit([], f + [END])
  {
    hide SplitAt, Fit;
    NoEndSplits([], f);
    OneEnd(f);
    assert [] + f == f;
    SplitConcat([], f, [END]);
    assert [] + [f] == [f];
  }

  // ---- One turn ----

  /** The symbol the link takes in the turn, if any. */
  function Consumed(d: Device, at: Micros, hi: bool): seq<byte> {
    FirstOf(d.rxFifo + RxStep(d.phy.rx, at, hi).out)
  }

  lemma ConsumedIsOne(d: Device, at: Micros, hi: bool)
    requires |d.link.frame| < NIBBLE_ARRAY_SIZE
    ensures var c := Consumed(d, at, hi);
            SplitAt(d.link.frame, c) == if c == [] then Split([], d.link.frame)
                                        else if c[0] == END then Split([d.link.frame], [])
                                        else Split([], d.link.frame + c)
  {
    hide RxStep;
    var c := Consumed(d, at, hi);
    if c != [] {
      assert c == [c[0]] && c[1..] == [];
    }
  }

  /** The link's part: queue, frame and parsed message depend on nothing but the symbols. */
  lemma LinkReceives(d: Device, at: Micros, hi: bool)
    requires QueuesOk(d) && FrameRoom(d.link)
    ensures var d3 := BusTurn(d, at, hi);
            var c := Consumed(d, at, hi);
            var s := SplitAt(d.link.frame, c);
            && d3.phy.rx == RxStep(d.phy.rx, at, hi).rx && d3.app == d.app
            && c + d3.rxFifo == d.rxFifo + RxStep(d.phy.rx, at, hi).out
            && d3.link.frame == s.open && d3.link.rxMsgs == ParseAll(s.frames) && |s.frames| <= 1
  {
    hide RxStep, TxStep, Parse, SplitAt, Backlog, LinkStep;
    PhyTurnRoom(d, at, hi);
    ConsumedIsOne(d, at, hi);
    var d1 := PhyTurn(d, at, hi);
    var d2 := PopTurn(d1);
    LinkKeepsReceived(d2);
    if d1.rxFifo != [] {
      assert d1.rxFifo == [d1.rxFifo[0]] + d1.rxFifo[1..];
      if d1.rxFifo[0] == END {
        PushedWithRoom(d.link.rxMsgs, [Parse(d.link.frame)], RX_MSG_MAX);
        assert d2.link.rxMsgs == [Parse(d.link.frame)];
      }
    }
  }

  /** The application's part: what is heard is understood, and one command at most is taken. */
  lemma AppReceives(d3: Device, sends: seq<TxMsg>)
    requires AppOk(d3.app) && |d3.link.rxMsgs| <= 1 && |d3.app.cmds| <= 2
    ensures var d' := AppTurn(d3, sends);
            var carriedOut := FirstOf(DecodeTurn(d3).app.cmds);
            && d'.phy.rx == d3.phy.rx && d'.rxFifo == d3.rxFifo && d'.link.frame == d3.link.frame
            && Understood(d3.app, d3.link.rxMsgs) == d'.app.(cmds := carriedOut + d'.app.cmds)
            && (carriedOut == [] ==> d'.app.cmds == [])
  {
    hide Decode, Understood;
    if d3.link.rxMsgs == [] {
      NothingUnderstood(d3.app);
    } else {
      DecodeAppends(d3.app, d3.link.rxMsgs[0]);
      assert d3.link.rxMsgs == [d3.link.rxMsgs[0]];
    }
    var cmds := DecodeTurn(d3).app.cmds;
    if cmds != [] {
      assert cmds == [cmds[0]] + cmds[1..];
    }
  }

  lemma NothingUnderstood(a: App)
    requires AppOk(a)
    ensures Understood(a, []) == a
  {
  }

  /** Reception in one turn. Transmitter, output queues, direction and sends do not occur in it. */
  lemma TurnReceives(d: Device, at: Micros, hi: bool, sends: seq<TxMsg>)
    requires QueuesOk(d) && FrameRoom(d.link)
    ensures var d' := Turn(d, at, hi, sends);
            var r := RxStep(d.phy.rx, at, hi);
            var s := SplitAt(d.link.frame, Consumed(d, at, hi));
            && d'.phy.rx == r.rx
            && Consumed(d, at, hi) + d'.rxFifo == d.rxFifo + r.out
            && d'.link.frame == s.open && HeardIn(d, at, hi) == ParseAll(s.frames)
            && Understood(d.app, HeardIn(d, at, hi)) == d'.app.(cmds := CarriedOutIn(d, at, hi) + d'.app.cmds)
            && (CarriedOutIn(d, at, hi) == [] ==> d'.app.cmds == [])
  {
    LinkReceives(d, at, hi);
    hide RxStep, BusTurn, SplitAt, Parse, Understood;
    var d3 := BusTurn(d, at, hi);
    assert FirstOf(d3.link.rxMsgs) == d3.link.rxMsgs;
    AppReceives(d3, sends);
  }

  // ---- Runs ----

  /** What the application heard over a run, and the commands it carried out. */
  datatype Log = Log(heard: seq<RxMsg>, carriedOut: seq<Cmd>)

  function LogOf(d: Device, now: Micros, inputs: seq<Input>): Log
    requires QueuesOk(d)
    decreases |inputs|
  {
    if inputs == [] || !FrameRoom(d.link) then Log([], []) else
    var i := inputs[0];
    var next := Advance(now, i.gap);
    QueuesKept(d, next, i.pinHi, i.sends);
    var rest := LogOf(Turn(d, next, i.pinHi, i.sends), next, inputs[1..]);
    Log(HeardIn(d, next, i.pinHi) + rest.heard, CarriedOutIn(d, next, i.pinHi) + rest.carriedOut)
  }

  lemma {:induction false} LogConcat(d: Device, now: Micros, a: seq<Input>, b: seq<Input>)
    requires QueuesOk(d) && FramesFit(d, now, a)
    ensures QueuesOk(Run(d, now, a))
    ensures LogOf(d, now, a + b) ==
            var first, second := LogOf(d, now, a), LogOf(Run(d, now, a), EndTime(now, a), b);
            Log(first.heard + second.heard, first.carriedOut + second.carriedOut)
    decreases |a|
  {
    hide Turn, QueuesOk, HeardIn, CarriedOutIn;
    if a == [] {
      assert a + b == b;
      Regroup([], LogOf(d, now, b).heard, []);
    } else {
      assert (a + b)[1..] == a[1..] + b;
      var next := Advance(now, a[0].gap);
      DirectionOkIsApp(d);
      QueuesKept(d, next, a[0].pinHi, a[0].sends);
      var d' := Turn(d, next, a[0].pinHi, a[0].sends);
      LogConcat(d', next, a[1..], b);
      var first, second := LogOf(d', next, a[1..]), LogOf(Run(d, now, a), EndTime(now, a), b);
      Regroup(HeardIn(d, next, a[0].pinHi), first.heard, second.heard);
      Regroup(CarriedOutIn(d, next, a[0].pinHi), first.carriedOut, second.carriedOut);
    }
  }

  /** All that is waiting to be consumed or will be pushed over the run. */
  function ToConsume(d: Device, now: Micros, inputs: seq<Input>): seq<byte> {
    d.rxFifo + RxRun(d.phy.rx, Seen(now, inputs)).out
  }

  lemma ParseAllConcat(a: seq<seq<byte>>, b: seq<seq<byte>>)
    ensures ParseAll(a + b) == ParseAll(a) + ParseAll(b)
  {
    hide Parse;
  }

  /** Reception over a run that has consumed `consumed`. */
  ghost predicate Received(d: Device, now: Micros, inputs: seq<Input>, consumed: seq<byte>)
    requires QueuesOk(d) && FramesFit(d, now, inputs)
  {
    var end := Run(d, now, inputs);
    var log := LogOf(d, now, inputs);
    var s := SplitAt(d.link.frame, consumed);
    && consumed + end.rxFifo == ToConsume(d, now, inputs)
    && end.phy.rx == RxRun(d.phy.rx, Seen(now, inputs)).rx
    && log.heard == ParseAll(s.frames) && end.link.frame == s.open
    && Understood(d.app, log.heard) == end.app.(cmds := log.carriedOut + end.app.cmds)
    && QueuesOk(end)
  }

  /** The turn's symbol and the rest of the stream. */
  lemma StreamStep(d: Device, now: Micros, inputs: seq<Input>)
    requires inputs != [] && QueuesOk(d) && Fit(d.link.frame, ToConsume(d, now, inputs))
    ensures FrameRoom(d.link)
    ensures var next := Advance(now, inputs[0].gap);
            var c := Consumed(d, next, inputs[0].pinHi);
            var d' := Turn(d, next, inputs[0].pinHi, inputs[0].sends);
            ToConsume(d, now, inputs) == c + ToConsume(d', next, inputs[1..])
            && Fit(d'.link.frame, ToConsume(d', next, inputs[1..]))
  {
    FitsNow(d.link.frame, ToConsume(d, now, inputs));
    var i := inputs[0];
    var next := Advance(now, i.gap);
    TurnReceives(d, next, i.pinHi, i.sends);
    hide Turn, Consumed, SplitAt, Fit, RxStep, Understood, QueuesOk;
    var r := RxStep(d.phy.rx, next, i.pinHi);
    var d' := Turn(d, next, i.pinHi, i.sends);
    var c := Consumed(d, next, i.pinHi);
    var rest := RxRun(r.rx, Seen(next, inputs[1..])).out;
    assert Seen(now, inputs)[0] == Sample(next, i.pinHi) && Seen(now, inputs)[1..] == Seen(next, inputs[1..]);
    Regroup(d.rxFifo, r.out, rest);
    Regroup(c, d'.rxFifo, rest);
    SplitConcat(d.link.frame, c, ToConsume(d', next, inputs[1..]));
  }

  lemma FitsNow(open: seq<byte>, symbols: seq<byte>)
    requires Fit(open, symbols)
    ensures |open| < NIBBLE_ARRAY_SIZE
  {
  }

  /** One turn and then a run: the pieces fit together. */
  lemma ReceivedThen(d: Device, now: Micros, inputs: seq<Input>, consumed: seq<byte>)
    requires inputs != [] && QueuesOk(d) && FramesFit(d, now, inputs)
    requires var next := Advance(now, inputs[0].gap);
             var d' := Turn(d, next, inputs[0].pinHi, inputs[0].sends);
             && QueuesOk(d') && Received(d', next, inputs[1..], consumed)
             && ToConsume(d, now, inputs) == Consumed(d, next, inputs[0].pinHi) + ToConsume(d', next, inputs[1..])
    ensures var next := Advance(now, inputs[0].gap);
            Received(d, now, inputs, Consumed(d, next, inputs[0].pinHi) + consumed)
  {
    var i := inputs[0];
    var next := Advance(now, i.gap);
    var d' := Turn(d, next, i.pinHi, i.sends);
    TurnReceives(d, next, i.pinHi, i.sends);
    QueuesKept(d, next, i.pinHi, i.sends);
    hide Turn, Consumed, SplitAt, Fit, RxStep, Understood, QueuesOk, HeardIn, CarriedOutIn;
    var c := Consumed(d, next, i.pinHi);
    var end, log := Run(d', next, inputs[1..]), LogOf(d', next, inputs[1..]);
    assert Seen(now, inputs)[0] == Sample(next, i.pinHi) && Seen(now, inputs)[1..] == Seen(next, inputs[1..]);
    SplitConcat(d.link.frame, c, consumed);
    ParseAllConcat(SplitAt(d.link.frame, c).frames, SplitAt(d'.link.frame, consumed).frames);
    Regroup(c, consumed, end.rxFifo);
    UnderstoodThen(d.app, HeardIn(d, next, i.pinHi), log.heard, d'.app, CarriedOutIn(d, next, i.pinHi), end.app,
                   log.carriedOut);
  }

  lemma UnderstoodThen(a: App, first: seq<RxMsg>, rest: seq<RxMsg>, b: App, done: seq<Cmd>, c: App, more: seq<Cmd>)
    requires AppOk(a) && AppOk(b)
    requires Understood(a, first) == b.(cmds := done + b.cmds)
    requires Understood(b, rest) == c.(cmds := more + c.cmds)
    ensures Understood(a, first + rest) == c.(cmds := (done + more) + c.cmds)
  {
    hide Understood;
    UnderstoodConcat(a, first, rest);
    UnderstoodBehind(b, done, rest);
    Regroup(done, more, c.cmds);
  }

  /**
   * Reception over every run, on every waveform whose frames the source has room for. The symbols
   * consumed are the first of those pushed, and at most three are left; the messages heard are the
   * parses of exactly the frames these symbols make; and the commands carried out, followed by those
   * that wait, are exactly the commands those messages ask for.
   */
  lemma {:induction false} RunReceives(d: Device, now: Micros, inputs: seq<Input>) returns (consumed: seq<byte>)
    requires QueuesOk(d) && Fit(d.link.frame, ToConsume(d, now, inputs))
    ensures FramesFit(d, now, inputs) && Received(d, now, inputs, consumed)
    decreases |inputs|
  {
    if inputs == [] {
      consumed := [];
      EmptyRun(d, now);
    } else {
      var i := inputs[0];
      var next := Advance(now, i.gap);
      StreamStep(d, now, inputs);
      QueuesKept(d, next, i.pinHi, i.sends);
      hide Turn, Received, Consumed, ToConsume, Fit, QueuesOk;
      var rest := RunReceives(Turn(d, next, i.pinHi, i.sends), next, inputs[1..]);
      consumed := Consumed(d, next, i.pinHi) + rest;
      ReceivedThen(d, now, inputs, rest);
    }
  }

  lemma EmptyRun(d: Device, now: Micros)
    requires QueuesOk(d)
    ensures Received(d, now, [], [])
  {
    assert d.rxFifo + [] == d.rxFifo && d.app.cmds == [] + d.app.cmds;
    assert ParseAll([]) == [];
  }

  /** Once nothing more is heard, every command has been carried out two turns later. */
  lemma {:induction false} CommandsFinish(d: Device, now: Micros, inputs: seq<Input>)
    requires QueuesOk(d) && FramesFit(d, now, inputs)
    requires LogOf(d, now, inputs).heard == [] && |d.app.cmds| <= |inputs|
    ensures Run(d, now, inputs).app.cmds == [] && LogOf(d, now, inputs).carriedOut == d.app.cmds
    decreases |inputs|
  {
    if inputs != [] {
      var i := inputs[0];
      var next := Advance(now, i.gap);
      TurnReceives(d, next, i.pinHi, i.sends);
      QueuesKept(d, next, i.pinHi, i.sends);
      NothingUnderstood(d.app);
      hide Turn, RxStep, SplitAt, Understood, QueuesOk;
      assert HeardIn(d, next, i.pinHi) == [];
      var d' := Turn(d, next, i.pinHi, i.sends);
      CommandsFinish(d', next, inputs[1..]);
    }
  }

  // ---- Clean waveforms ----

  /** Without an error code the receiver never pushes more than one symbol a call. */
  predicate Clean(symbols: seq<byte>) {
    LOW_TOO_LONG !in symbols && TIMEOUT !in symbols
  }

  lemma CleanStep(rx: Rx, at: Micros, hi: bool)
    ensures Clean(RxStep(rx, at, hi).out) ==> |RxStep(rx, at, hi).out| <= 1
  {
    hide TopBit, ShiftIn;
    var edge := RxEdge(rx, at, hi);
    var timeout := RxTimeout(edge.rx, at);
    assert Elapsed(at, at) == 0;
    if |timeout.out| == 3 {
      assert timeout.out[1] in edge.out + timeout.out;
    }
  }

  /** So each symbol is consumed in the turn in which it is pushed. */
  lemma {:induction false} CleanIsPrompt(d: Device, now: Micros, inputs: seq<Input>)
    requires QueuesOk(d) && FramesFit(d, now, inputs)
    requires d.rxFifo == [] && Clean(RxRun(d.phy.rx, Seen(now, inputs)).out)
    ensures Run(d, now, inputs).rxFifo == []
    decreases |inputs|
  {
    if inputs != [] {
      var i := inputs[0];
      var next := Advance(now, i.gap);
      var r := RxStep(d.phy.rx, next, i.pinHi);
      var rest := RxRun(r.rx, Seen(next, inputs[1..])).out;
      assert Seen(now, inputs)[0] == Sample(next, i.pinHi) && Seen(now, inputs)[1..] == Seen(next, inputs[1..]);
      assert forall b :: b in r.out || b in rest ==> b in r.out + rest;
      CleanStep(d.phy.rx, next, i.pinHi);
      TurnReceives(d, next, i.pinHi, i.sends);
      QueuesKept(d, next, i.pinHi, i.sends);
      hide Turn, RxStep, SplitAt, Understood, QueuesOk;
      assert |d.rxFifo + r.out| <= 1;
      CleanIsPrompt(Turn(d, next, i.pinHi, i.sends), next, inputs[1..]);
    }
  }

  /** Nothing received is under way: between frames, the receiver at rest. Sending is another matter. */
  predicate Attentive(d: Device) {
    QueuesOk(d) && d.rxFifo == [] && d.link.frame == [] && AtRest(d.phy.rx)
  }

  /** On a clean waveform the frames of all that the receiver pushes are what has been heard, at any moment. */
  lemma CleanRun(d: Device, now: Micros, inputs: seq<Input>)
    requires QueuesOk(d) && d.rxFifo == []
    requires var out := RxRun(d.phy.rx, Seen(now, inputs)).out; Clean(out) && Fit(d.link.frame, out)
    ensures FramesFit(d, now, inputs)
    ensures var out := RxRun(d.phy.rx, Seen(now, inputs)).out;
            Received(d, now, inputs, out) && Run(d, now, inputs).rxFifo == []
  {
    hide SplitAt, Fit, QueuesOk, Understood, RxRun, Run, LogOf;
    var out := RxRun(d.phy.rx, Seen(now, inputs)).out;
    assert ToConsume(d, now, inputs) == out;
    var consumed := RunReceives(d, now, inputs);
    CleanIsPrompt(d, now, inputs);
    assert consumed + [] == consumed;
  }
}
