// From the line to the application, on every waveform from power-up: which bits become which
// commands, and how the device finds its way back after noise.
module AnyWaveform {
  import opened Sequences
  import opened Clock
  import opened PhySpec
  import opened LinkSpec
  import opened ReceiverProofs
  import opened LinkProofs
  import opened AppSpec
  import opened DeviceSpec
  import opened BusProtocol
  import opened Reception

  // ---- Bursts are frames ----

  function Contents(bursts: seq<Burst>): seq<seq<byte>> {
    if bursts == [] then [] else [Content(bursts[0])] + Contents(bursts[1..])
  }

  /** What the bursts mean: the parses of those a gap ended. The aborted ones mean nothing. */
  function Meant(bursts: seq<Burst>): seq<RxMsg> {
    if bursts == [] then [] else
    (if bursts[0].ending == GapEnd then [Parse(bursts[0].nibbles)] else []) + Meant(bursts[1..])
  }

  lemma {:induction false} BurstsSplit(bursts: seq<Burst>, open: seq<byte>)
    requires (forall b | b in bursts :: BurstOk(b)) && AllNibbles(open)
    ensures SplitAt([], AllSymbols(bursts) + open) == Split(Contents(bursts), open)
    decreases |bursts|
  {
    hide Content, SplitAt, BurstOk;
    if bursts == [] {
      NoEndSplits([], open);
      Regroup(open, [], []);
    } else {
      var rest := AllSymbols(bursts[1..]) + open;
      BurstSplits(bursts[0]);
      BurstsSplit(bursts[1..], open);
      Regroup(Symbols(bursts[0]), AllSymbols(bursts[1..]), open);
      SplitConcat([], Symbols(bursts[0]), rest);
    }
  }

  lemma BurstSplits(b: Burst)
    requires BurstOk(b)
    ensures SplitAt([], Symbols(b)) == Split([Content(b)], [])
  {
    ContentHasNoLetters(b);
    hide Content, SplitAt;
    EndSplits(Content(b));
  }

  lemma {:induction false} ContentsTake(bursts: seq<Burst>, k: nat)
    requires k <= |bursts|
    ensures |Contents(bursts)| == |bursts| && Contents(bursts[..k]) == Contents(bursts)[..k]
    decreases |bursts|
  {
    hide Content;
    if bursts != [] {
      ContentsTake(bursts[1..], if k == 0 then 0 else k - 1);
      if k > 0 {
        assert bursts[..k][1..] == bursts[1..][..k - 1];
      }
    }
  }

  lemma RefusedMeansNothing(a: App, m: RxMsg)
    requires AppOk(a) && m.errId != 0
    ensures Understood(a, [m]) == a
  {
    assert [m][1..] == [] && a.cmds + [] == a.cmds;
  }

  /** Aborted bursts contribute nothing. */
  lemma {:induction false} OnlyWholeOnesMean(a: App, bursts: seq<Burst>)
    requires AppOk(a) && forall b | b in bursts :: BurstOk(b)
    ensures Understood(a, ParseAll(Contents(bursts))) == Understood(a, Meant(bursts))
    decreases |bursts|
  {
    hide Parse, Content, Understood, BurstOk;
    if bursts == [] {
      assert ParseAll([]) == [];
    } else {
      var b := bursts[0];
      var m, rest := [Parse(Content(b))], ParseAll(Contents(bursts[1..]));
      ParseAllConcat([Content(b)], Contents(bursts[1..]));
      assert ParseAll(Contents(bursts)) == m + rest;
      UnderstoodConcat(a, m, rest);
      if b.ending == GapEnd {
        WholeContent(b);
        UnderstoodConcat(a, m, Meant(bursts[1..]));
        OnlyWholeOnesMean(Understood(a, m), bursts[1..]);
      } else {
        AbortedFrameRejected(b);
        RefusedMeansNothing(a, m[0]);
        Regroup(Meant(bursts[1..]), [], []);
        OnlyWholeOnesMean(a, bursts[1..]);
      }
    }
  }

  lemma WholeContent(b: Burst)
    requires b.ending == GapEnd
    ensures Content(b) == b.nibbles
  {
  }

  // ---- From power-up ----

  /** A waveform from power-up whose frames the source has room for. */
  predicate Fits(now: Micros, inputs: seq<Input>) {
    Fit([], RxRun(RX_START, Seen(now, inputs)).out)
  }

  /** The frames consumed are those of the first bursts, all of them if nothing waits. */
  lemma ConsumedBursts(bursts: seq<Burst>, open: seq<byte>, consumed: seq<byte>, waiting: seq<byte>) returns (k: nat)
    requires (forall b | b in bursts :: BurstOk(b)) && AllNibbles(open)
    requires consumed + waiting == AllSymbols(bursts) + open
    ensures k <= |bursts| && SplitAt([], consumed).frames == Contents(bursts[..k])
    ensures waiting == [] ==> k == |bursts| && SplitAt([], consumed).open == open
  {
    hide SplitAt, BurstOk, AllSymbols;
    BurstsSplit(bursts, open);
    SplitConcat([], consumed, waiting);
    k := |SplitAt([], consumed).frames|;
    ContentsTake(bursts, 0);
    ContentsTake(bursts, k);
    if waiting == [] {
      Regroup(consumed, [], []);
    }
  }

  /** The bits on the line are exactly those of the bursts, of the open one and of its unfinished nibble. */
  predicate BitsOf(samples: seq<Sample>, bursts: seq<Burst>, open: seq<byte>, tail: Tail) {
    LineBits(High, samples) == AllBurstBits(bursts) + (AllBits(open) + tail)
  }

  /** What `ms` ask for, no more and no less, has been carried out or waits. */
  predicate Obeyed(now: Micros, inputs: seq<Input>, ms: seq<RxMsg>)
    requires FramesFit(DEVICE_START, now, inputs)
  {
    var end := Run(DEVICE_START, now, inputs);
    Understood(APP_START, ms) == end.app.(cmds := LogOf(DEVICE_START, now, inputs).carriedOut + end.app.cmds)
  }

  /**
   * On every waveform from power-up, whatever the device sends. The line's bits make bursts; those a
   * gap ended, and they alone, are understood, in order; and what they ask for, no more and no less,
   * has been carried out or waits. At most the last bursts are still in the receive queue.
   */
  lemma LineToCommands(now: Micros, inputs: seq<Input>)
    returns (bursts: seq<Burst>, open: seq<byte>, tail: Tail, k: nat)
    requires Fits(now, inputs)
    ensures FramesFit(DEVICE_START, now, inputs)
    ensures (forall b | b in bursts :: BurstOk(b)) && AllNibbles(open)
    ensures BitsOf(Seen(now, inputs), bursts, open, tail)
    ensures k <= |bursts| && (Run(DEVICE_START, now, inputs).rxFifo == [] ==> k == |bursts|)
    ensures LogOf(DEVICE_START, now, inputs).heard == ParseAll(Contents(bursts[..k]))
    ensures Obeyed(now, inputs, Meant(bursts[..k]))
    ensures var end := Run(DEVICE_START, now, inputs);
            && (end.rxFifo == [] && AtRest(end.phy.rx) ==> end.link.frame == [])
            && QueuesOk(end) && end.phy.rx == RxRun(RX_START, Seen(now, inputs)).rx
            && OpenBurst(end.phy.rx, open, tail, LineAfter(High, Seen(now, inputs)))
  {
    var samples := Seen(now, inputs);
    bursts, open, tail := BurstsFromStart(samples);
    hide RxRun, Run, LogOf, QueuesOk, Understood, Parse, SplitAt, Fit, Seen, BurstOk, AllSymbols, AllBurstBits, AllBits,
         LineBits, LineAfter, Meant, Contents, OpenBurst;
    StartHasNothing(now, inputs);
    var consumed := RunReceives(DEVICE_START, now, inputs);
    k := ConsumedBursts(bursts, open, consumed, Run(DEVICE_START, now, inputs).rxFifo);
    OnlyWholeOnesMean(APP_START, bursts[..k]);
    if AtRest(Run(DEVICE_START, now, inputs).phy.rx) {
      RestIsClosed(Run(DEVICE_START, now, inputs).phy.rx, open, tail, LineAfter(High, samples));
    }
  }

  lemma StartHasNothing(now: Micros, inputs: seq<Input>)
    ensures QueuesOk(DEVICE_START) && AppOk(APP_START)
    ensures ToConsume(DEVICE_START, now, inputs) == RxRun(RX_START, Seen(now, inputs)).out
  {
    Regroup([], RxRun(RX_START, Seen(now, inputs)).out, []);
  }

  lemma RestIsClosed(rx: Rx, open: seq<byte>, tail: Tail, line: Line)
    requires OpenBurst(rx, open, tail, line) && AtRest(rx)
    ensures open == []
  {
  }

  /** The bursts of a waveform, with the state the receiver is left in. */
  lemma BurstsFromStart(samples: seq<Sample>) returns (bursts: seq<Burst>, open: seq<byte>, tail: Tail)
    ensures (forall b | b in bursts :: BurstOk(b)) && AllNibbles(open)
    ensures RxRun(RX_START, samples).out == AllSymbols(bursts) + open
    ensures BitsOf(samples, bursts, open, tail)
    ensures OpenBurst(RxRun(RX_START, samples).rx, open, tail, LineAfter(High, samples))
  {
    bursts, open, tail := RunGrammar(RX_START, [], [], High, samples);
    Regroup([], RxRun(RX_START, samples).out, []);
    Regroup(AllBits([]), [], LineBits(High, samples));
    Regroup([], LineBits(High, samples), []);
  }

  /** No waveform makes the receiver push a letter the parser takes for bad signalling. */
  lemma NoLetterPushed(samples: seq<Sample>)
    ensures forall s | s in RxRun(RX_START, samples).out :: !IsSignal(s)
  {
    var bursts, open, tail := BurstsFromStart(samples);
    NoLetterInBursts(bursts);
    NibblesAreNoSignal(open);
    hide RxRun, AllSymbols, IsSignal;
  }

  lemma {:induction false} NoLetterInBursts(bursts: seq<Burst>)
    requires forall b | b in bursts :: BurstOk(b)
    ensures forall s | s in AllSymbols(bursts) :: !IsSignal(s)
    decreases |bursts|
  {
    if bursts != [] {
      assert !IsSignal(END);
      hide Content, IsSignal, BurstOk;
      ContentHasNoLetters(bursts[0]);
      NoLetterInBursts(bursts[1..]);
    }
  }

  // ---- Back to attention ----

  /** A look at the line more than the gap limit after the first, and not so late that the clock has gone around. */
  predicate LongAfter(at: Micros, first: Micros) {
    3100 < Elapsed(at, first) < WRAP - 3100
  }

  lemma LaterSum(at: Micros, first: Micros, since: Micros)
    requires LongAfter(at, first) && Elapsed(first, since) <= 3100
    ensures Elapsed(at, since) > 3100
  {
    assert Advance(first, Elapsed(at, first)) == at;
    ElapsedAfter(first, since, Elapsed(at, first));
  }

  /** After one look at a high line: at rest, or waiting for the gap since a rise not longer ago than that. */
  ghost predicate Waiting(rx: Rx, at: Micros) {
    || AtRest(rx)
    || (rx.state in {RxAwaitingFall, RxNibbleEnded} && Elapsed(at, rx.stamp) <= 3100)
  }

  lemma HighSeen(rx: Rx, open: seq<byte>, tail: Tail, line: Line, at: Micros)
    requires OpenBurst(rx, open, tail, line)
    ensures Waiting(RxStep(rx, at, true).rx, at)
  {
    PartialOf([]);
    assert Elapsed(at, at) == 0;
    hide AllNibbles, ShiftIn, TopBit, NibbleOf, FromBits;
  }

  lemma WaitingStep(rx: Rx, at: Micros)
    requires rx.state in {RxAwaitingFall, RxNibbleEnded}
    ensures var r := RxStep(rx, at, true).rx;
            if Elapsed(at, rx.stamp) > 3100 then AtRest(r) else r == rx
  {
    hide NibbleOf;
  }

  lemma RestStays(rx: Rx, at: Micros)
    requires AtRest(rx)
    ensures RxStep(rx, at, true) == RxResult(rx, [])
  {
  }

  /** The line stays high, and is looked at once after the gap. */
  lemma {:induction false} HighsBringRest(rx: Rx, first: Micros, highs: seq<Micros>)
    requires Waiting(rx, first) && exists t :: t in highs && LongAfter(t, first)
    ensures AtRest(RxRun(rx, Samples(highs, true)).rx)
    decreases |highs|
  {
    hide RxStep, LongAfter, Elapsed;
    assert Samples(highs, true)[1..] == Samples(highs[1..], true);
    assert highs == [highs[0]] + highs[1..];
    if AtRest(rx) {
      IdleStaysQuiet(rx, highs);
    } else {
      WaitingStep(rx, highs[0]);
      if LongAfter(highs[0], first) {
        LaterSum(highs[0], first, rx.stamp);
        IdleStaysQuiet(RxStep(rx, highs[0], true).rx, highs[1..]);
      } else {
        if Elapsed(highs[0], rx.stamp) > 3100 {
          IdleStaysQuiet(RxStep(rx, highs[0], true).rx, highs[1..]);
        } else {
          HighsBringRest(rx, first, highs[1..]);
        }
      }
    }
  }

  predicate AllHigh(inputs: seq<Input>) {
    forall i | 0 <= i < |inputs| :: inputs[i].pinHi
  }

  function Times(samples: seq<Sample>): seq<Micros> {
    seq(|samples|, i requires 0 <= i < |samples| => samples[i].at)
  }

  lemma {:induction false} SeenHigh(now: Micros, inputs: seq<Input>)
    requires AllHigh(inputs)
    ensures |Seen(now, inputs)| == |inputs|
    ensures Seen(now, inputs) == Samples(Times(Seen(now, inputs)), true)
    decreases |inputs|
  {
    if inputs != [] {
      SeenHigh(Advance(now, inputs[0].gap), inputs[1..]);
    }
  }

  lemma {:induction false} SeenConcat(now: Micros, a: seq<Input>, b: seq<Input>)
    ensures Seen(now, a + b) == Seen(now, a) + Seen(EndTime(now, a), b)
    decreases |a|
  {
    if a == [] {
      assert a + b == b;
    } else {
      assert (a + b)[1..] == a[1..] + b;
      SeenConcat(Advance(now, a[0].gap), a[1..], b);
    }
  }

  /** At rest under a high line, the receive queue empties by one a turn. */
  lemma {:induction false} RestEmpties(d: Device, now: Micros, inputs: seq<Input>)
    requires QueuesOk(d) && FramesFit(d, now, inputs) && AtRest(d.phy.rx) && AllHigh(inputs)
    requires |d.rxFifo| <= |inputs|
    ensures Run(d, now, inputs).rxFifo == [] && AtRest(Run(d, now, inputs).phy.rx)
    decreases |inputs|
  {
    if inputs != [] {
      var i := inputs[0];
      var next := Advance(now, i.gap);
      RestStays(d.phy.rx, next);
      TurnReceives(d, next, i.pinHi, i.sends);
      QueuesKept(d, next, i.pinHi, i.sends);
      hide Turn, RxStep, SplitAt, Understood, QueuesOk, HeardIn, CarriedOutIn, Parse;
      assert d.rxFifo + [] == d.rxFifo;
      RestEmpties(Turn(d, next, i.pinHi, i.sends), next, inputs[1..]);
    }
  }

  /** The receiver is at rest after any waveform and a high line that outlasts the gap. */
  lemma RestAfterHighs(now: Micros, noise: seq<Input>, quiet: seq<Input>)
    requires AllHigh(quiet) && quiet != []
    requires var seen := Seen(EndTime(now, noise), quiet);
             exists i | 0 <= i < |seen| :: LongAfter(seen[i].at, seen[0].at)
    ensures AtRest(RxRun(RX_START, Seen(now, noise + quiet)).rx)
  {
    var seen := Seen(EndTime(now, noise), quiet);
    SeenConcat(now, noise, quiet);
    SeenHigh(EndTime(now, noise), quiet);
    var bursts, open, tail := BurstsFromStart(Seen(now, noise));
    hide RxStep, LongAfter, Elapsed, OpenBurst, BurstOk, Waiting, LineAfter;
    RxRunConcat(RX_START, Seen(now, noise), seen);
    var rx := RxRun(RX_START, Seen(now, noise)).rx;
    HighSeen(rx, open, tail, LineAfter(High, Seen(now, noise)), seen[0].at);
    var highs := Times(seen);
    assert seen == Samples(highs, true) && Samples(highs, true)[1..] == Samples(highs[1..], true);
    var i :| 0 <= i < |seen| && LongAfter(seen[i].at, seen[0].at);
    NotLongAfterItself(seen[0].at);
    assert highs[1..][i - 1] == seen[i].at;
    HighsBringRest(RxStep(rx, seen[0].at, true).rx, seen[0].at, highs[1..]);
  }

  lemma NotLongAfterItself(at: Micros)
    ensures !LongAfter(at, at)
  {
  }

  lemma FitsFrames(now: Micros, inputs: seq<Input>)
    requires Fits(now, inputs)
    ensures FramesFit(DEVICE_START, now, inputs)
    ensures var end := Run(DEVICE_START, now, inputs);
            QueuesOk(end) && end.phy.rx == RxRun(RX_START, Seen(now, inputs)).rx
  {
    StartHasNothing(now, inputs);
    hide RxRun, Run, LogOf, QueuesOk, Understood, SplitAt, Fit, Seen, ToConsume;
    var consumed := RunReceives(DEVICE_START, now, inputs);
  }

  lemma RestIsAttentive(now: Micros, inputs: seq<Input>)
    requires Fits(now, inputs)
    requires var end := Run(DEVICE_START, now, inputs); end.rxFifo == [] && AtRest(end.phy.rx)
    ensures Attentive(Run(DEVICE_START, now, inputs))
  {
    hide RxRun, Run, QueuesOk, OpenBurst, AtRest;
    var bursts, open, tail, k := LineToCommands(now, inputs);
  }

  /**
   * After any waveform from power-up, noise and aborted frames included, a line that stays high longer
   * than the gap limit and is looked at twice more makes the device attentive again.
   */
  lemma AttentiveAgain(now: Micros, noise: seq<Input>, quiet: seq<Input>, more: seq<Input>)
    requires Fits(now, noise + quiet + more) && AllHigh(quiet) && AllHigh(more) && |more| >= 2 && quiet != []
    requires var seen := Seen(EndTime(now, noise), quiet);
             exists i | 0 <= i < |seen| :: LongAfter(seen[i].at, seen[0].at)
    ensures FramesFit(DEVICE_START, now, noise + quiet + more)
    ensures Attentive(Run(DEVICE_START, now, noise + quiet + more))
  {
    RestAfterHighs(now, noise, quiet);
    hide RxRun, Run, QueuesOk, Seen, LongAfter, EndTime, AtRest, FramesFit, Fits;
    var first := noise + quiet;
    FitsPrefix(now, first, more);
    FitsFrames(now, first);
    FitsFrames(now, first + more);
    RunConcat(DEVICE_START, now, first, more);
    AtMostTwo(Run(DEVICE_START, now, first));
    RestEmpties(Run(DEVICE_START, now, first), EndTime(now, first), more);
    RestIsAttentive(now, first + more);
  }

  lemma AtMostTwo(d: Device)
    requires QueuesOk(d) && AtRest(d.phy.rx)
    ensures |d.rxFifo| <= 2
  {
  }

  lemma FitsPrefix(now: Micros, a: seq<Input>, b: seq<Input>)
    requires Fits(now, a + b)
    ensures Fits(now, a)
  {
    hide RxStep, Fit;
    SeenConcat(now, a, b);
    RxRunConcat(RX_START, Seen(now, a), Seen(EndTime(now, a), b));
    var first := RxRun(RX_START, Seen(now, a));
    SplitConcat([], first.out, RxRun(first.rx, Seen(EndTime(now, a), b)).out);
  }

  // ---- When the device takes the line ----

  /** The receiver takes part in every turn, whatever else the device does. */
  lemma {:induction false} RunReceiver(d: Device, now: Micros, inputs: seq<Input>)
    requires QueuesOk(d) && FramesFit(d, now, inputs)
    ensures Run(d, now, inputs).phy.rx == RxRun(d.phy.rx, Seen(now, inputs)).rx
    decreases |inputs|
  {
    if inputs != [] {
      hide Turn, RxStep, QueuesOk;
      var i := inputs[0];
      var next := Advance(now, i.gap);
      QueuesKept(d, next, i.pinHi, i.sends);
      DirectionOkIsApp(d);
      TurnReceiver(d, next, i.pinHi, i.sends);
      RunReceiver(Turn(d, next, i.pinHi, i.sends), next, inputs[1..]);
    }
  }

  lemma TurnReceiver(d: Device, at: Micros, pinHi: bool, sends: seq<TxMsg>)
    requires FrameRoom(d.link) && AppOk(d.app)
    ensures var rx := RxStep(d.phy.rx, at, pinHi).rx;
            && PhyTurn(d, at, pinHi).phy.rx == rx && Turn(d, at, pinHi, sends).phy.rx == rx
  {
    hide RxStep, TxStep, Parse, Decode, Serialise;
  }

  lemma IdleIsFree(rx: Rx, open: seq<byte>, tail: Tail, line: Line)
    requires OpenBurst(rx, open, tail, line) && rx.state == RxIdle
    ensures line == High && open == []
  {
  }

  /** The receiver's end of a run and the line's: idle means a high line and nothing begun. */
  lemma IdleLine(samples: seq<Sample>) returns (bursts: seq<Burst>)
    requires RxRun(RX_START, samples).rx.state == RxIdle
    ensures LineAfter(High, samples) == High
    ensures RxRun(RX_START, samples).out == AllSymbols(bursts) && LineBits(High, samples) == AllBurstBits(bursts)
    ensures forall b | b in bursts :: BurstOk(b)
  {
    var open, tail;
    bursts, open, tail := BurstsFromStart(samples);
    IdleIsFree(RxRun(RX_START, samples).rx, open, tail, LineAfter(High, samples));
    hide RxRun, AllSymbols, AllBurstBits, LineBits, LineAfter;
    Regroup(AllSymbols(bursts), [], []);
    Regroup(AllBurstBits(bursts), [], []);
  }

  /**
   * On every run from power-up, whatever the waveform: in the turn in which the device turns to
   * transmit, the line as last seen is high, and every burst on it has been closed by an END.
   */
  lemma TakesOnlyFreeLine(now: Micros, inputs: seq<Input>, last: Input) returns (bursts: seq<Burst>)
    requires FramesFit(DEVICE_START, now, inputs + [last])
    requires Run(DEVICE_START, now, inputs).link.rxMode && !Run(DEVICE_START, now, inputs + [last]).link.rxMode
    ensures last.pinHi && LineAfter(High, Seen(now, inputs + [last])) == High
    ensures RxRun(RX_START, Seen(now, inputs + [last])).out == AllSymbols(bursts)
    ensures LineBits(High, Seen(now, inputs + [last])) == AllBurstBits(bursts)
    ensures forall b | b in bursts :: BurstOk(b)
  {
    StartOk();
    FitBefore(DEVICE_START, now, inputs, last);
    RunDirection(DEVICE_START, now, inputs);
    RunReceiver(DEVICE_START, now, inputs + [last]);
    var d, at := Run(DEVICE_START, now, inputs), Advance(EndTime(now, inputs), last.gap);
    DirectionKept(d, at, last.pinHi, last.sends);
    TurnReceiver(d, at, last.pinHi, last.sends);
    KeepsMode(d, at, last.pinHi, last.sends);
    hide Run, RxRun, Seen, FramesFit, Turn, BusTurn, PhyTurn, DirectionOk, QueuesOk;
    bursts := IdleLine(Seen(now, inputs + [last]));
    LastSeen(now, inputs, last);
  }

  lemma KeepsMode(d: Device, at: Micros, pinHi: bool, sends: seq<TxMsg>)
    requires FrameRoom(d.link) && AppOk(d.app)
    ensures PhyTurn(d, at, pinHi).link.rxMode == d.link.rxMode
    ensures Turn(d, at, pinHi, sends).link.rxMode == BusTurn(d, at, pinHi).link.rxMode
  {
    hide RxStep, TxStep, Parse, Decode, Serialise;
  }

  lemma {:induction false} LineLast(line: Line, samples: seq<Sample>, s: Sample)
    ensures LineAfter(line, samples + [s]) == LineStep(LineAfter(line, samples), s)
    decreases |samples|
  {
    if samples == [] {
      assert samples + [s] == [s] && [s][1..] == [];
    } else {
      assert (samples + [s])[1..] == samples[1..] + [s];
      LineLast(LineStep(line, samples[0]), samples[1..], s);
    }
  }

  /** A line last seen high was high at the last look. */
  lemma LastSeen(now: Micros, inputs: seq<Input>, last: Input)
    requires LineAfter(High, Seen(now, inputs + [last])) == High
    ensures last.pinHi
  {
    var at := Advance(EndTime(now, inputs), last.gap);
    SeenConcat(now, inputs, [last]);
    assert [last][1..] == [] && Seen(EndTime(now, inputs), [last]) == [Sample(at, last.pinHi)];
    LineLast(High, Seen(now, inputs), Sample(at, last.pinHi));
  }
}
