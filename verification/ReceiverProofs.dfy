// What the receiver guarantees whatever the pin does: the grammar of its output, and the depth of
// the queue behind it. What it decodes when the waveform is within tolerance.
module ReceiverProofs {
  import opened Sequences
  import opened Clock
  import opened PhySpec

  datatype Sample = Sample(at: Micros, hi: bool)

  /** The receiver fed one sample per call; `out` collects everything it pushed. */
  function RxRun(rx: Rx, samples: seq<Sample>): RxResult
    decreases |samples|
  {
    if samples == [] then RxResult(rx, []) else
    var first := RxStep(rx, samples[0].at, samples[0].hi);
    var rest := RxRun(first.rx, samples[1..]);
    RxResult(rest.rx, first.out + rest.out)
  }

  lemma {:induction false} RxRunConcat(rx: Rx, a: seq<Sample>, b: seq<Sample>)
    ensures RxRun(rx, a + b) ==
            var first := RxRun(rx, a);
            var second := RxRun(first.rx, b);
            RxResult(second.rx, first.out + second.out)
    decreases |a|
  {
    if a == [] {
      assert a + b == b;
    } else {
      hide RxStep;
      assert (a + b)[1..] == a[1..] + b;
      RxRunConcat(RxStep(rx, a[0].at, a[0].hi).rx, a[1..], b);
    }
  }

  // ---- Bits on the line ----

  /** The line as its samples show it: high, low since a time, or low for more than 2495 microseconds. */
  datatype Line = High | Low(since: Micros) | Spoilt

  function LineStep(line: Line, s: Sample): Line {
    if s.hi then High else
    match line
    case High => Low(s.at)
    case Low(since) => if Elapsed(s.at, since) > 2495 then Spoilt else line
    case Spoilt => Spoilt
  }

  /** The end of a low that was never seen to last too long is a bit: a one if it was over 1282 microseconds. */
  function LineBit(line: Line, s: Sample): seq<bool> {
    if line.Low? && s.hi then [Elapsed(s.at, line.since) > 1282] else []
  }

  function LineAfter(line: Line, samples: seq<Sample>): Line
    decreases |samples|
  {
    if samples == [] then line else LineAfter(LineStep(line, samples[0]), samples[1..])
  }

  function LineBits(line: Line, samples: seq<Sample>): seq<bool>
    decreases |samples|
  {
    if samples == [] then [] else LineBit(line, samples[0]) + LineBits(LineStep(line, samples[0]), samples[1..])
  }

  function FromBits(b3: bool, b2: bool, b1: bool, b0: bool): byte {
    (if b3 then 8 else 0) + (if b2 then 4 else 0) + (if b1 then 2 else 0) + (if b0 then 1 else 0)
  }

  function NibbleBits(n: byte): (bits: seq<bool>)
    ensures |bits| == 4
  {
    [n & 8 != 0, n & 4 != 0, n & 2 != 0, n & 1 != 0]
  }

  function AllBits(nibbles: seq<byte>): seq<bool> {
    if nibbles == [] then [] else NibbleBits(nibbles[0]) + AllBits(nibbles[1..])
  }

  lemma {:induction false} AllBitsConcat(a: seq<byte>, b: seq<byte>)
    ensures AllBits(a + b) == AllBits(a) + AllBits(b)
    ensures |AllBits(a)| == 4 * |a|
  {
    if a == [] {
      assert a + b == b;
    } else {
      assert (a + b)[1..] == a[1..] + b;
      AllBitsConcat(a[1..], b);
    }
  }

  // ---- Output grammar ----

  ghost predicate AllNibbles(s: seq<byte>) {
    forall i | 0 <= i < |s| :: s[i] < 16
  }

  /** The bits of a nibble not yet whole. */
  type Tail = t: seq<bool> | |t| <= 3

  /** As a number, most significant first. */
  function Value(bits: Tail): byte {
    match |bits|
    case 0 => 0
    case 1 => FromBits(false, false, false, bits[0])
    case 2 => FromBits(false, false, bits[0], bits[1])
    case 3 => FromBits(false, bits[0], bits[1], bits[2])
  }

  /** The receiver's shifter after these bits of a nibble: 8 * 2^k + their value. */
  function Marked(bits: Tail): byte {
    match |bits|
    case 0 => 8
    case 1 => 16 + Value(bits)
    case 2 => 32 + Value(bits)
    case 3 => 64 + Value(bits)
  }

  datatype Ending = GapEnd | TimedOut | LowTooLong

  /** What is received between two ENDs: whole nibbles, the bits of one more, and how it ended. */
  datatype Burst = Burst(nibbles: seq<byte>, tail: Tail, ending: Ending)

  /** A gap ends whole nibbles only, and a timeout needs a bit to wait after. No burst is empty. */
  ghost predicate BurstOk(b: Burst) {
    && AllNibbles(b.nibbles)
    && (b.ending == GapEnd ==> b.nibbles != [] && b.tail == [])
    && (b.ending == TimedOut ==> b.tail != [])
  }

  /** What an aborted nibble is reported as: its bits, or the bare marker if there were none. */
  function Partial(tail: Tail): byte {
    if tail == [] then 8 else Value(tail)
  }

  /** What comes before END. */
  function Content(b: Burst): seq<byte> {
    match b.ending
    case GapEnd => b.nibbles
    case TimedOut => b.nibbles + [Partial(b.tail), TIMEOUT]
    case LowTooLong => b.nibbles + [Partial(b.tail), LOW_TOO_LONG]
  }

  function Symbols(b: Burst): seq<byte> {
    Content(b) + [END]
  }

  function AllSymbols(bursts: seq<Burst>): seq<byte> {
    if bursts == [] then [] else Symbols(bursts[0]) + AllSymbols(bursts[1..])
  }

  function BurstBits(b: Burst): seq<bool> {
    AllBits(b.nibbles) + b.tail
  }

  function AllBurstBits(bursts: seq<Burst>): seq<bool> {
    if bursts == [] then [] else BurstBits(bursts[0]) + AllBurstBits(bursts[1..])
  }

  /** Since the last END: the nibbles pushed, the bits in the shifter, and the line the receiver waits on. */
  ghost predicate OpenBurst(rx: Rx, open: seq<byte>, tail: Tail, line: Line) {
    && AllNibbles(open) && rx.shifter == Marked(tail)
    && match rx.state
       case RxDisabled => false
       case RxIdle => open == [] && tail == [] && line == High
       case RxAwaitingRise => line == Low(rx.stamp)
       case RxAwaitingFall => tail != [] && line == High
       case RxNibbleEnded => open != [] && tail == [] && line == High
       case RxFailedLow => open == [] && tail == [] && line == Spoilt
  }

  lemma ShiftInMarked(tail: Tail, low: Micros)
    ensures var one := low > 1282;
            var shifter := ShiftIn(Marked(tail), low);
            if |tail| == 3
            then TopBit(shifter) && NibbleOf(shifter) == FromBits(tail[0], tail[1], tail[2], one)
            else !TopBit(shifter) && shifter == Marked(tail + [one])
  {
  }

  lemma PartialOf(tail: Tail)
    ensures NibbleOf(Marked(tail)) == Partial(tail) && Marked([]) == RX_SHIFTER_INIT
  {
  }

  lemma BitsOfFour(tail: Tail, b: bool)
    requires |tail| == 3
    ensures var n := FromBits(tail[0], tail[1], tail[2], b);
            n < 16 && NibbleBits(n) == tail + [b]
  {
  }

  lemma RisesToNoTimeout(rx: Rx, at: Micros)
    requires rx.state == RxAwaitingRise
    ensures var shifter := ShiftIn(rx.shifter, Elapsed(at, rx.stamp));
            RxStep(rx, at, true) ==
            if TopBit(shifter) then RxResult(Rx(RxNibbleEnded, RX_SHIFTER_INIT, at), [NibbleOf(shifter)])
            else RxResult(Rx(RxAwaitingFall, shifter, at), [])
  {
    hide ShiftIn, TopBit, NibbleOf;
    assert Elapsed(at, at) == 0;
  }

  /** The fourth bit makes the nibble of exactly these bits. */
  lemma FourthBit(rx: Rx, open: seq<byte>, tail: Tail, at: Micros)
    requires OpenBurst(rx, open, tail, Low(rx.stamp)) && rx.state == RxAwaitingRise && |tail| == 3
    ensures var one := Elapsed(at, rx.stamp) > 1282;
            var n := FromBits(tail[0], tail[1], tail[2], one);
            && RxStep(rx, at, true) == RxResult(Rx(RxNibbleEnded, RX_SHIFTER_INIT, at), [n])
            && n < 16 && AllBits(open + [n]) == AllBits(open) + tail + [one]
  {
    var one := Elapsed(at, rx.stamp) > 1282;
    var n := FromBits(tail[0], tail[1], tail[2], one);
    ShiftInMarked(tail, Elapsed(at, rx.stamp));
    RisesToNoTimeout(rx, at);
    BitsOfFour(tail, one);
    AllBitsConcat(open, [n]);
    assert AllBits([n]) == NibbleBits(n) + AllBits([n][1..]) && [n][1..] == [];
    hide *;
  }

  /** An earlier one is one bit more in the shifter. */
  lemma EarlierBit(rx: Rx, open: seq<byte>, tail: Tail, at: Micros)
    requires OpenBurst(rx, open, tail, Low(rx.stamp)) && rx.state == RxAwaitingRise && |tail| < 3
    ensures var one := Elapsed(at, rx.stamp) > 1282;
            RxStep(rx, at, true) == RxResult(Rx(RxAwaitingFall, Marked(tail + [one]), at), [])
  {
    ShiftInMarked(tail, Elapsed(at, rx.stamp));
    RisesToNoTimeout(rx, at);
  }

  lemma FourthOpens(open: seq<byte>, n: byte, at: Micros)
    requires AllNibbles(open) && n < 16
    ensures OpenBurst(Rx(RxNibbleEnded, RX_SHIFTER_INIT, at), open + [n], [], High)
  {
    PartialOf([]);
    hide Marked;
  }

  lemma EarlierOpens(open: seq<byte>, tail: Tail, at: Micros)
    requires AllNibbles(open) && tail != []
    ensures OpenBurst(Rx(RxAwaitingFall, Marked(tail), at), open, tail, High)
  {
  }

  lemma OpenNibbles(rx: Rx, open: seq<byte>, tail: Tail, line: Line)
    requires OpenBurst(rx, open, tail, line)
    ensures AllNibbles(open)
  {
  }

  /** A rise: one bit more, in the shifter or as the last of a nibble pushed. */
  lemma RiseGrammar(rx: Rx, open: seq<byte>, tail: Tail, at: Micros)
    returns (open': seq<byte>, tail': Tail)
    requires OpenBurst(rx, open, tail, Low(rx.stamp)) && rx.state == RxAwaitingRise
    ensures var s := RxStep(rx, at, true);
            && OpenBurst(s.rx, open', tail', High) && open' == open + s.out
            && AllBits(open') + tail' == AllBits(open) + tail + [Elapsed(at, rx.stamp) > 1282]
  {
    var one := Elapsed(at, rx.stamp) > 1282;
    hide Marked, FromBits, AllBits, RxStep, Elapsed, OpenBurst, AllNibbles;
    OpenNibbles(rx, open, tail, Low(rx.stamp));
    if |tail| == 3 {
      FourthBit(rx, open, tail, at);
      var n := FromBits(tail[0], tail[1], tail[2], one);
      FourthOpens(open, n, at);
      open', tail' := open + [n], [];
      Regroup(AllBits(open'), [], []);
    } else {
      EarlierBit(rx, open, tail, at);
      EarlierOpens(open, tail + [one], at);
      open', tail' := open, tail + [one];
      Regroup(open, [], []);
      Regroup(AllBits(open), tail, [one]);
    }
  }

  /** Any other step: nothing but time and falls, or the end of the burst. */
  lemma QuietGrammar(rx: Rx, open: seq<byte>, tail: Tail, line: Line, s: Sample) returns (closed: seq<Burst>)
    requires OpenBurst(rx, open, tail, line) && !(rx.state == RxAwaitingRise && s.hi)
    ensures var r := RxStep(rx, s.at, s.hi);
            && |closed| <= 1 && (forall b | b in closed :: BurstOk(b))
            && (if closed == [] then r.out == [] && OpenBurst(r.rx, open, tail, LineStep(line, s))
                else open + r.out == Symbols(closed[0]) && BurstBits(closed[0]) == AllBits(open) + tail
                     && OpenBurst(r.rx, [], [], LineStep(line, s)))
  {
    PartialOf(tail);
    PartialOf([]);
    hide Marked, NibbleOf, Partial, AllBits;
    assert Elapsed(s.at, s.at) == 0;
    var r := RxStep(rx, s.at, s.hi);
    if r.out == [] {
      closed := [];
    } else {
      closed := [Burst(open, tail, if rx.state == RxNibbleEnded then GapEnd
                                   else if rx.state == RxAwaitingFall then TimedOut else LowTooLong)];
    }
  }

  lemma NoBit(rx: Rx, open: seq<byte>, tail: Tail, line: Line, s: Sample)
    requires OpenBurst(rx, open, tail, line) && !(rx.state == RxAwaitingRise && s.hi)
    ensures LineBit(line, s) == [] && AllBits([]) == []
  {
  }

  lemma OneBurst(closed: seq<Burst>)
    requires |closed| <= 1
    ensures AllSymbols(closed) == if closed == [] then [] else Symbols(closed[0])
    ensures AllBurstBits(closed) == if closed == [] then [] else BurstBits(closed[0])
  {
    hide Symbols, BurstBits;
    if closed != [] {
      assert closed[1..] == [];
    }
  }

  /** One step: at most one burst ends, and every bit goes where it belongs. */
  lemma StepGrammar(rx: Rx, open: seq<byte>, tail: Tail, line: Line, s: Sample)
    returns (closed: seq<Burst>, open': seq<byte>, tail': Tail)
    requires OpenBurst(rx, open, tail, line)
    ensures forall b | b in closed :: BurstOk(b)
    ensures var r := RxStep(rx, s.at, s.hi);
            && OpenBurst(r.rx, open', tail', LineStep(line, s))
            && open + r.out == AllSymbols(closed) + open'
            && AllBits(open) + tail + LineBit(line, s) == AllBurstBits(closed) + (AllBits(open') + tail')
  {
    if rx.state == RxAwaitingRise && s.hi {
      hide RxStep, AllBits, Marked, AllNibbles, Elapsed;
      closed := [];
      open', tail' := RiseGrammar(rx, open, tail, s.at);
      Regroup([], [], open');
      Regroup([], [], AllBits(open') + tail');
    } else {
      closed := QuietGrammar(rx, open, tail, line, s);
      NoBit(rx, open, tail, line, s);
      OneBurst(closed);
      hide RxStep, AllBits, Symbols, BurstBits, AllSymbols, AllBurstBits, OpenBurst, LineStep, LineBit, BurstOk;
      if closed == [] {
        open', tail' := open, tail;
        Regroup([], [], open);
        Regroup([], [], AllBits(open) + tail);
      } else {
        open', tail' := [], [];
        Regroup(Symbols(closed[0]), [], []);
        Regroup(BurstBits(closed[0]), [], []);
      }
    }
  }

  lemma {:induction false} BurstsConcat(a: seq<Burst>, b: seq<Burst>)
    ensures AllSymbols(a + b) == AllSymbols(a) + AllSymbols(b)
    ensures AllBurstBits(a + b) == AllBurstBits(a) + AllBurstBits(b)
  {
    hide Symbols, BurstBits;
    if a == [] {
      assert a + b == b;
    } else {
      assert (a + b)[1..] == a[1..] + b;
      BurstsConcat(a[1..], b);
      Regroup(Symbols(a[0]), AllSymbols(a[1..]), AllSymbols(b));
      Regroup(BurstBits(a[0]), AllBurstBits(a[1..]), AllBurstBits(b));
    }
  }

  /** `open` + `first` is `closed` + `mid`, and `mid` + `rest` is `more` + `end`: put together. */
  lemma Splice<T>(open: seq<T>, first: seq<T>, closed: seq<T>, mid: seq<T>, rest: seq<T>, more: seq<T>, end: seq<T>)
    requires open + first == closed + mid && mid + rest == more + end
    ensures open + (first + rest) == (closed + more) + end
  {
    Regroup(open, first, rest);
    Regroup(closed, mid, rest);
    Regroup(closed, more, end);
  }

  lemma {:induction false} RunGrammar(rx: Rx, open: seq<byte>, tail: Tail, line: Line, samples: seq<Sample>)
    returns (closed: seq<Burst>, open': seq<byte>, tail': Tail)
    requires OpenBurst(rx, open, tail, line)
    ensures forall b | b in closed :: BurstOk(b)
    ensures open + RxRun(rx, samples).out == AllSymbols(closed) + open'
    ensures (AllBits(open) + tail) + LineBits(line, samples) == AllBurstBits(closed) + (AllBits(open') + tail')
    ensures OpenBurst(RxRun(rx, samples).rx, open', tail', LineAfter(line, samples))
    decreases |samples|
  {
    hide OpenBurst, BurstOk, Symbols, BurstBits, AllBits, RxStep, LineStep, LineBit;
    if samples == [] {
      closed, open', tail' := [], open, tail;
      Regroup(open, [], []);
      Regroup(AllBits(open) + tail, [], []);
      return;
    }
    var s := samples[0];
    var r := RxStep(rx, s.at, s.hi);
    var now, open1, tail1 := StepGrammar(rx, open, tail, line, s);
    var later;
    later, open', tail' := RunGrammar(r.rx, open1, tail1, LineStep(line, s), samples[1..]);
    closed := now + later;
    BurstsConcat(now, later);
    Splice(open, r.out, AllSymbols(now), open1, RxRun(r.rx, samples[1..]).out, AllSymbols(later), open');
    Splice(AllBits(open) + tail, LineBit(line, s), AllBurstBits(now), AllBits(open1) + tail1,
           LineBits(LineStep(line, s), samples[1..]), AllBurstBits(later), AllBits(open') + tail');
  }

  /**
   * For every waveform and every clock: what an idle receiver pushes is bursts and then the nibbles
   * of an open one; the bits of all these, of aborted nibbles and of the shifter are exactly the bits
   * on the line, in order; and the shifter is the marker over the bits of the open nibble.
   */
  lemma OutputGrammar(samples: seq<Sample>) returns (bursts: seq<Burst>, open: seq<byte>, tail: Tail)
    ensures (forall b | b in bursts :: BurstOk(b)) && AllNibbles(open)
    ensures RxRun(RX_START, samples).out == AllSymbols(bursts) + open
    ensures LineBits(High, samples) == AllBurstBits(bursts) + (AllBits(open) + tail)
    ensures RxRun(RX_START, samples).rx.shifter == Marked(tail)
    ensures RxRun(RX_START, samples).rx.state == RxIdle ==> open == [] && tail == [] && LineAfter(High, samples) == High
  {
    bursts, open, tail := RunGrammar(RX_START, [], [], High, samples);
    Regroup([], [], RxRun(RX_START, samples).out);
    Regroup(AllBits([]) + [], [], LineBits(High, samples));
  }

  // ---- Depth of the receive queue ----

  function AfterPop(n: nat): nat {
    if n == 0 then 0 else n - 1
  }

  /** The queue holds `n` symbols before each call and one is popped after it: it never exceeds `capacity`. */
  predicate NeverOver(rx: Rx, n: nat, samples: seq<Sample>, capacity: nat)
    decreases |samples|
  {
    samples == [] ||
    var s := RxStep(rx, samples[0].at, samples[0].hi);
    n + |s.out| <= capacity && NeverOver(s.rx, AfterPop(n + |s.out|), samples[1..], capacity)
  }

  /** Symbols that may be left after the pop, by receiver state. */
  function Backlog(state: RxState): nat {
    match state
    case RxDisabled | RxIdle => 2
    case RxAwaitingRise | RxNibbleEnded => 1
    case RxAwaitingFall => 0
    case RxFailedLow => 3
  }

  lemma StepBacklog(rx: Rx, n: nat, now: Micros, pinHi: bool)
    requires n <= Backlog(rx.state)
    ensures var s := RxStep(rx, now, pinHi);
            n + |s.out| <= 4 && AfterPop(n + |s.out|) <= Backlog(s.rx.state)
  {
  }

  lemma {:induction false} FourIsEnough(rx: Rx, n: nat, samples: seq<Sample>)
    requires n <= Backlog(rx.state)
    ensures NeverOver(rx, n, samples, 4)
    decreases |samples|
  {
    if samples != [] {
      StepBacklog(rx, n, samples[0].at, samples[0].hi);
      var s := RxStep(rx, samples[0].at, samples[0].hi);
      FourIsEnough(s.rx, AfterPop(n + |s.out|), samples[1..]);
    }
  }

  /** Four is the exact bound: a short pulse that times out, then a low that lasts too long. */
  lemma ThreeIsNot() returns (samples: seq<Sample>)
    ensures !NeverOver(RX_START, 0, samples, 3)
  {
    samples := [Sample(0, false), Sample(1, true), Sample(3102, true), Sample(3103, false), Sample(5599, false)];
    var s1 := RxStep(RX_START, 0, false);
    var s2 := RxStep(s1.rx, 1, true);
    var s3 := RxStep(s2.rx, 3102, true);
    var s4 := RxStep(s3.rx, 3103, false);
    var s5 := RxStep(s4.rx, 5599, false);
    assert |s3.out| == 3 && |s5.out| == 3;
    assert samples[1..] == [Sample(1, true), Sample(3102, true), Sample(3103, false), Sample(5599, false)];
    assert samples[1..][1..] == [Sample(3102, true), Sample(3103, false), Sample(5599, false)];
    assert samples[1..][1..][1..] == [Sample(3103, false), Sample(5599, false)];
    assert samples[1..][1..][1..][1..] == [Sample(5599, false)];
    assert !NeverOver(s4.rx, 1, [Sample(5599, false)], 3);
    assert !NeverOver(s3.rx, 2, [Sample(3103, false), Sample(5599, false)], 3);
    assert !NeverOver(s2.rx, 0, samples[1..][1..], 3);
  }

  // ---- Decoding within tolerance ----

  /** One low and the high after it: the samples that saw the edges, and the later ones at the same level. */
  datatype Pulse = Pulse(fall: Micros, lows: seq<Micros>, rise: Micros, highs: seq<Micros>)

  function Samples(times: seq<Micros>, hi: bool): seq<Sample> {
    seq(|times|, i requires 0 <= i < |times| => Sample(times[i], hi))
  }

  function PulseSamples(p: Pulse): seq<Sample> {
    [Sample(p.fall, false)] + Samples(p.lows, false) + [Sample(p.rise, true)] + Samples(p.highs, true)
  }

  function TrainSamples(train: seq<Pulse>): seq<Sample> {
    if train == [] then [] else PulseSamples(train[0]) + TrainSamples(train[1..])
  }

  /** In microseconds: no sample of the low is over 2495 after the fall, none of the high over 3100 after the rise. */
  ghost predicate InTolerance(p: Pulse) {
    && Elapsed(p.rise, p.fall) <= 2495
    && (forall t | t in p.lows :: Elapsed(t, p.fall) <= 2495)
    && (forall t | t in p.highs :: Elapsed(t, p.rise) <= 3100)
  }

  /** A low over 1282 microseconds is a one. */
  predicate IsOne(p: Pulse) {
    Elapsed(p.rise, p.fall) > 1282
  }

  /** Each four pulses, most significant first, make one nibble. */
  function Nibbles(train: seq<Pulse>): seq<byte> {
    if |train| < 4 then [] else
    [FromBits(IsOne(train[0]), IsOne(train[1]), IsOne(train[2]), IsOne(train[3]))] + Nibbles(train[4..])
  }

  lemma {:induction false} LowSamples(rx: Rx, times: seq<Micros>)
    requires rx.state == RxAwaitingRise
    requires forall t | t in times :: Elapsed(t, rx.stamp) <= 2495
    ensures RxRun(rx, Samples(times, false)) == RxResult(rx, [])
  {
    if times != [] {
      assert Samples(times, false)[1..] == Samples(times[1..], false);
      LowSamples(rx, times[1..]);
    }
  }

  lemma {:induction false} HighSamples(rx: Rx, times: seq<Micros>)
    requires rx.state in {RxAwaitingFall, RxNibbleEnded}
    requires forall t | t in times :: Elapsed(t, rx.stamp) <= 3100
    ensures RxRun(rx, Samples(times, true)) == RxResult(rx, [])
  {
    if times != [] {
      assert Samples(times, true)[1..] == Samples(times[1..], true);
      HighSamples(rx, times[1..]);
    }
  }

  lemma RunOne(rx: Rx, at: Micros, hi: bool)
    ensures RxRun(rx, [Sample(at, hi)]) == RxStep(rx, at, hi)
  {
    assert RxRun(RxStep(rx, at, hi).rx, [Sample(at, hi)][1..]) == RxResult(RxStep(rx, at, hi).rx, []);
  }

  /** One pulse shifts in exactly one bit, however often its levels are sampled. */
  lemma OnePulse(rx: Rx, p: Pulse)
    requires rx.state in {RxIdle, RxNibbleEnded, RxAwaitingFall}
    requires InTolerance(p)
    ensures RxRun(rx, PulseSamples(p)) == PulseResult(rx.shifter, p)
  {
    var fallen := rx.(state := RxAwaitingRise, stamp := p.fall);
    FallSeen(rx, p.fall);
    RunOne(rx, p.fall, false);
    LowSamples(fallen, p.lows);
    RiseShifts(fallen, p);
    RunOne(fallen, p.rise, true);
    HighSamples(PulseResult(rx.shifter, p).rx, p.highs);
    hide RxStep, PulseResult, RxRun, InTolerance;
    RxRunConcat(rx, [Sample(p.fall, false)], Samples(p.lows, false));
    RxRunConcat(rx, [Sample(p.fall, false)] + Samples(p.lows, false), [Sample(p.rise, true)]);
    RxRunConcat(rx, [Sample(p.fall, false)] + Samples(p.lows, false) + [Sample(p.rise, true)], Samples(p.highs, true));
  }

  lemma FallSeen(rx: Rx, at: Micros)
    requires rx.state in {RxIdle, RxNibbleEnded, RxAwaitingFall}
    ensures RxStep(rx, at, false) == RxResult(rx.(state := RxAwaitingRise, stamp := at), [])
  {
  }

  lemma RiseShifts(rx: Rx, p: Pulse)
    requires rx.state == RxAwaitingRise && rx.stamp == p.fall
    ensures RxStep(rx, p.rise, true) == PulseResult(rx.shifter, p)
  {
  }

  function PulseResult(before: byte, p: Pulse): RxResult {
    var shifter := if IsOne(p) then (before << 1) | 1 else before << 1;
    if shifter & 0x80 != 0
    then RxResult(Rx(RxNibbleEnded, RX_SHIFTER_INIT, p.rise), [shifter & 0x0F])
    else RxResult(Rx(RxAwaitingFall, shifter, p.rise), [])
  }

  /** The receiver's reaction to a train, one pulse at a time. */
  function TrainResult(rx: Rx, train: seq<Pulse>): RxResult
    decreases |train|
  {
    if train == [] then RxResult(rx, []) else
    var first := PulseResult(rx.shifter, train[0]);
    var rest := TrainResult(first.rx, train[1..]);
    RxResult(rest.rx, first.out + rest.out)
  }

  lemma {:induction false} RunsTrain(rx: Rx, train: seq<Pulse>)
    requires rx.state in {RxIdle, RxNibbleEnded, RxAwaitingFall}
    requires forall p | p in train :: InTolerance(p)
    ensures RxRun(rx, TrainSamples(train)) == TrainResult(rx, train)
    decreases |train|
  {
    if train != [] {
      OnePulse(rx, train[0]);
      RunsTrain(PulseResult(rx.shifter, train[0]).rx, train[1..]);
      RxRunConcat(rx, PulseSamples(train[0]), TrainSamples(train[1..]));
    }
  }

  /** Four pulses from a nibble boundary push exactly one nibble and end on a boundary again. */
  lemma FourPulses(a: Pulse, b: Pulse, c: Pulse, d: Pulse)
    ensures var r1 := PulseResult(RX_SHIFTER_INIT, a);
            var r2 := PulseResult(r1.rx.shifter, b);
            var r3 := PulseResult(r2.rx.shifter, c);
            && r1.out == [] && r2.out == [] && r3.out == []
            && PulseResult(r3.rx.shifter, d) ==
               RxResult(Rx(RxNibbleEnded, RX_SHIFTER_INIT, d.rise), [FromBits(IsOne(a), IsOne(b), IsOne(c), IsOne(d))])
  {
  }

  lemma {:induction false} PacksNibbles(rx: Rx, train: seq<Pulse>)
    requires rx.shifter == RX_SHIFTER_INIT && |train| % 4 == 0
    ensures TrainResult(rx, train) ==
            RxResult(if train == [] then rx else Rx(RxNibbleEnded, RX_SHIFTER_INIT, train[|train| - 1].rise),
                     Nibbles(train))
    decreases |train|
  {
    if train != [] {
      FourPulses(train[0], train[1], train[2], train[3]);
      var r1 := PulseResult(RX_SHIFTER_INIT, train[0]);
      var r2 := PulseResult(r1.rx.shifter, train[1]);
      var r3 := PulseResult(r2.rx.shifter, train[2]);
      var r4 := PulseResult(r3.rx.shifter, train[3]);
      var rest := train[4..];
      assert train[3..][1..] == rest && train[2..][1..] == train[3..] && train[1..][1..] == train[2..];
      PacksNibbles(r4.rx, rest);
      assert TrainResult(r3.rx, train[3..]) == RxResult(TrainResult(r4.rx, rest).rx, Nibbles(train));
      assert TrainResult(r2.rx, train[2..]) == TrainResult(r3.rx, train[3..]);
      assert TrainResult(r1.rx, train[1..]) == TrainResult(r2.rx, train[2..]);
    }
  }

  /** Any train of whole nibbles within tolerance is decoded bit for bit. */
  lemma DecodesTrain(rx: Rx, train: seq<Pulse>)
    requires rx.state in {RxIdle, RxNibbleEnded} && rx.shifter == RX_SHIFTER_INIT
    requires |train| % 4 == 0
    requires forall p | p in train :: InTolerance(p)
    ensures RxRun(rx, TrainSamples(train)).out == Nibbles(train)
    ensures RxRun(rx, TrainSamples(train)).rx ==
            if train == [] then rx else Rx(RxNibbleEnded, RX_SHIFTER_INIT, train[|train| - 1].rise)
  {
    RunsTrain(rx, train);
    PacksNibbles(rx, train);
  }

  /**
   * High samples after a whole nibble: one END and a receiver at rest if and only if one of them is
   * more than 3100 microseconds after the rise; otherwise nothing at all.
   */
  lemma {:induction false} QuietAfterNibble(rx: Rx, times: seq<Micros>)
    requires rx.state == RxNibbleEnded
    ensures var over := exists t :: t in times && Elapsed(t, rx.stamp) > 3100;
            RxRun(rx, Samples(times, true)) ==
            if over then RxResult(Rx(RxIdle, 8, rx.stamp), [18]) else RxResult(rx, [])
  {
    if times != [] {
      var rest := Samples(times[1..], true);
      assert Samples(times, true)[1..] == rest;
      var s := RxStep(rx, times[0], true);
      if Elapsed(times[0], rx.stamp) > 3100 {
        assert times[0] in times;
        IdleStaysQuiet(s.rx, times[1..]);
      } else {
        QuietAfterNibble(rx, times[1..]);
        assert times == [times[0]] + times[1..];
      }
    }
  }

  lemma {:induction false} IdleStaysQuiet(rx: Rx, times: seq<Micros>)
    requires rx.state == RxIdle
    ensures RxRun(rx, Samples(times, true)) == RxResult(rx, [])
  {
    if times != [] {
      assert Samples(times, true)[1..] == Samples(times[1..], true);
      IdleStaysQuiet(rx, times[1..]);
    }
  }

  /** Until it is enabled the receiver takes no notice of the line. */
  lemma {:induction false} DisabledIgnores(rx: Rx, samples: seq<Sample>)
    requires rx.state == RxDisabled
    ensures RxRun(rx, samples) == RxResult(rx, [])
    decreases |samples|
  {
    if samples != [] {
      DisabledIgnores(rx, samples[1..]);
    }
  }

  /** The value of the bits received, or the bare marker, as the nibble of an aborted burst. */
  lemma PartialOfMarked(shifter: byte, tail: Tail)
    requires shifter == Marked(tail)
    ensures NibbleOf(shifter) == Partial(tail)
  {
  }

  /**
   * Low samples after a fall: the burst is aborted, with the bits received, 16 and 18, once and for
   * all, if and only if one of them is more than 2495 microseconds after it; otherwise nothing at all.
   */
  lemma {:induction false} LowTooLongExactly(rx: Rx, tail: Tail, times: seq<Micros>)
    requires rx.state == RxAwaitingRise && rx.shifter == Marked(tail)
    ensures var over := exists t :: t in times && Elapsed(t, rx.stamp) > 2495;
            RxRun(rx, Samples(times, false)) ==
            if over then RxResult(Rx(RxFailedLow, 8, rx.stamp), [Partial(tail), 16, 18]) else RxResult(rx, [])
  {
    if times != [] {
      var rest := Samples(times[1..], false);
      assert Samples(times, false)[1..] == rest;
      PartialOfMarked(rx.shifter, tail);
      hide Marked, Partial, NibbleOf;
      if Elapsed(times[0], rx.stamp) > 2495 {
        assert times[0] in times;
        FailedStaysLow(Rx(RxFailedLow, 8, rx.stamp), times[1..]);
      } else {
        LowTooLongExactly(rx, tail, times[1..]);
        assert times == [times[0]] + times[1..];
      }
    }
  }

  /** However long the line then stays low, nothing more is pushed; the next high sample ends it. */
  lemma {:induction false} FailedStaysLow(rx: Rx, times: seq<Micros>)
    requires rx.state == RxFailedLow
    ensures RxRun(rx, Samples(times, false)) == RxResult(rx, [])
    ensures forall at: Micros :: RxStep(rx, at, true) == RxResult(rx.(state := RxIdle), [])
  {
    if times != [] {
      assert Samples(times, false)[1..] == Samples(times[1..], false);
      FailedStaysLow(rx, times[1..]);
    }
  }

  /**
   * High samples inside a nibble: the burst is aborted, with the bits received, 17 and 18, if and only
   * if one of them is more than 3100 microseconds after the rise; otherwise nothing at all.
   */
  lemma {:induction false} TimesOutExactly(rx: Rx, tail: Tail, times: seq<Micros>)
    requires rx.state == RxAwaitingFall && rx.shifter == Marked(tail)
    ensures var over := exists t :: t in times && Elapsed(t, rx.stamp) > 3100;
            RxRun(rx, Samples(times, true)) ==
            if over then RxResult(Rx(RxIdle, 8, rx.stamp), [Partial(tail), 17, 18]) else RxResult(rx, [])
  {
    if times != [] {
      var rest := Samples(times[1..], true);
      assert Samples(times, true)[1..] == rest;
      PartialOfMarked(rx.shifter, tail);
      hide Marked, Partial, NibbleOf;
      if Elapsed(times[0], rx.stamp) > 3100 {
        assert times[0] in times;
        IdleStaysQuiet(Rx(RxIdle, 8, rx.stamp), times[1..]);
      } else {
        TimesOutExactly(rx, tail, times[1..]);
        assert times == [times[0]] + times[1..];
      }
    }
  }
}
