// The desktop library's own waveform: its nibble encoder, its sampler, and the receiver decoding
// what they produce.
module ReferenceEncoder {
  import opened Sequences
  import opened Clock
  import opened PhySpec
  import opened ReceiverProofs
  import opened LinkSpec
  import opened AppSpec
  import opened DeviceSpec
  import opened BusProtocol
  import opened Reception
  import opened HeadUnit

  /** A level and the time it is taken, in microseconds that may be negative. */
  datatype Toggle = Toggle(at: int, hi: bool)

  // ---- The encoder ----

  function LowTime(one: bool): int {
    if one then ONE_LOW_TIME else ZERO_LOW_TIME
  }

  function BitToggles(at: int, bits: seq<bool>): seq<Toggle>
    decreases |bits|
  {
    if bits == [] then [] else
    [Toggle(at, false), Toggle(at + LowTime(bits[0]), true)] + BitToggles(at + BIT_TIME, bits[1..])
  }

  function StartOf(time: int, nibbles: seq<byte>): int {
    time - 4 * |nibbles| * BIT_TIME + NIBBLE_END_GAP_TIME
  }

  function Toggles(time: int, nibbles: seq<byte>): seq<Toggle> {
    BitToggles(StartOf(time, nibbles), AllBits(nibbles))
  }

  lemma {:induction false} BitTogglesAt(at: int, bits: seq<bool>, k: nat)
    requires k < |bits|
    ensures |BitToggles(at, bits)| == 2 * |bits|
    ensures BitToggles(at, bits)[2 * k] == Toggle(at + 3100 * k, false)
    ensures BitToggles(at, bits)[2 * k + 1] == Toggle(at + 3100 * k + (if bits[k] then 1890 else 675), true)
    decreases |bits|
  {
    if |bits| > 1 {
      BitTogglesAt(at + 3100, bits[1..], if k == 0 then 0 else k - 1);
    }
  }

  lemma {:induction false} AllBitsAt(nibbles: seq<byte>, k: nat)
    requires k < 4 * |nibbles|
    ensures |AllBits(nibbles)| == 4 * |nibbles| && AllBits(nibbles)[k] == NibbleBits(nibbles[k / 4])[k % 4]
    decreases |nibbles|
  {
    hide NibbleBits;
    AllBitsConcat(nibbles, []);
    if k >= 4 {
      AllBitsAt(nibbles[1..], k - 4);
      assert (k - 4) / 4 == k / 4 - 1 && (k - 4) % 4 == k % 4;
    }
  }

  /**
   * In microseconds: the waveform starts 12400 for each nibble before `time`, less 3100; bit `k`, most
   * significant first, falls 3100 for each bit after that, and rises 1890 later for a one, 675 for a zero.
   */
  lemma TogglesInMicroseconds(time: int, nibbles: seq<byte>, k: nat)
    requires k < 4 * |nibbles|
    ensures |Toggles(time, nibbles)| == 8 * |nibbles|
    ensures var fall := time - 12400 * |nibbles| + 3100 + 3100 * k;
            && Toggles(time, nibbles)[2 * k] == Toggle(fall, false)
            && Toggles(time, nibbles)[2 * k + 1] ==
               Toggle(fall + (if NibbleBits(nibbles[k / 4])[k % 4] then 1890 else 675), true)
  {
    hide NibbleBits;
    AllBitsAt(nibbles, k);
    BitTogglesAt(StartOf(time, nibbles), AllBits(nibbles), k);
  }

  lemma {:induction false} BitTogglesConcat(at: int, a: seq<bool>, b: seq<bool>)
    ensures BitToggles(at, a + b) == BitToggles(at, a) + BitToggles(at + |a| * BIT_TIME, b)
    decreases |a|
  {
    if a == [] {
      assert a + b == b;
    } else {
      assert (a + b)[1..] == a[1..] + b;
      BitTogglesConcat(at + BIT_TIME, a[1..], b);
    }
  }

  lemma OneMoreBit(at: int, bits: seq<bool>, bit: bool)
    ensures BitToggles(at, bits + [bit]) ==
            BitToggles(at, bits) + [Toggle(at + |bits| * BIT_TIME, false)]
            + [Toggle(at + |bits| * BIT_TIME + LowTime(bit), true)]
  {
    BitTogglesConcat(at, bits, [bit]);
    assert BitToggles(at + |bits| * BIT_TIME + BIT_TIME, [bit][1..]) == [];
  }

  lemma OneMoreNibble(nibbles: seq<byte>, k: nat)
    requires k < |nibbles|
    ensures AllBits(nibbles[..k + 1]) == AllBits(nibbles[..k]) + NibbleBits(nibbles[k])
    ensures |AllBits(nibbles[..k])| == 4 * k
  {
    AllBitsConcat(nibbles[..k], [nibbles[k]]);
    assert nibbles[..k + 1] == nibbles[..k] + [nibbles[k]];
    assert AllBits([nibbles[k]][1..]) == [];
  }

  /** Walks the nibbles and their bits, advancing the current time. */
  method ToToggles(time: int, nibbles: seq<byte>) returns (toggleList: seq<Toggle>)
    requires AllNibbles(nibbles)
    ensures toggleList == Toggles(time, nibbles)
  {
    hide NibbleBits;
    var currentTimeUs := time - 4 * |nibbles| * BIT_TIME + NIBBLE_END_GAP_TIME;
    toggleList := [];
    ghost var sent: seq<bool> := [];
    for idx := 0 to |nibbles|
      invariant sent == AllBits(nibbles[..idx]) && |sent| == 4 * idx
      invariant toggleList == BitToggles(StartOf(time, nibbles), sent)
      invariant currentTimeUs == StartOf(time, nibbles) + |sent| * BIT_TIME
    {
      var bits := NibbleBits(nibbles[idx]);
      OneMoreNibble(nibbles, idx);
      ghost var before := sent;
      assert before + bits[..0] == before;
      for j := 0 to 4
        invariant sent == before + bits[..j]
        invariant toggleList == BitToggles(StartOf(time, nibbles), sent)
        invariant currentTimeUs == StartOf(time, nibbles) + |sent| * BIT_TIME
      {
        OneMoreBit(StartOf(time, nibbles), sent, bits[j]);
        assert before + bits[..j + 1] == sent + [bits[j]];
        toggleList := toggleList + [Toggle(currentTimeUs, false)];
        currentTimeUs := currentTimeUs + if bits[j] then ONE_LOW_TIME else ZERO_LOW_TIME;
        toggleList := toggleList + [Toggle(currentTimeUs, true)];
        currentTimeUs := currentTimeUs + if bits[j] then BIT_TIME - ONE_LOW_TIME else BIT_TIME - ZERO_LOW_TIME;
        sent := sent + [bits[j]];
      }
      assert bits[..4] == bits;
    }
    assert nibbles[..|nibbles|] == nibbles;
  }

  // ---- The sampler ----

  /** Repeats of a level, one interval apart, until the next edge is at most an interval away. */
  function Held(from: int, until: int, interval: nat): seq<int>
    requires 0 < interval
    decreases until - from
  {
    if until - from > interval then [from] + Held(from + interval, until, interval) else []
  }

  /** A level is repeated one interval apart exactly as long as more than an interval is left. */
  lemma {:induction false} HeldExactly(from: int, until: int, interval: nat, j: nat)
    requires 0 < interval
    ensures j < |Held(from, until, interval)| <==> until - (from + j * interval) > interval
    ensures j < |Held(from, until, interval)| ==> Held(from, until, interval)[j] == from + j * interval
    decreases j
  {
    if until - from > interval && j > 0 {
      HeldExactly(from + interval, until, interval, j - 1);
      assert j * interval == interval + (j - 1) * interval;
    }
  }

  function HeldToggles(prev: Toggle, until: int, interval: nat): seq<Toggle>
    requires 0 < interval
  {
    var times := Held(prev.at, until, interval);
    seq(|times|, i requires 0 <= i < |times| => Toggle(times[i], prev.hi))
  }

  function Sampled(prev: Toggle, toggles: seq<Toggle>, interval: nat): seq<Toggle>
    requires 0 < interval
    decreases |toggles|
  {
    if toggles == [] then [] else
    HeldToggles(prev, toggles[0].at, interval) + [toggles[0]] + Sampled(toggles[0], toggles[1..], interval)
  }

  /** Sampling starts ten intervals before the first edge, with the line high. */
  function Intervalized(toggles: seq<Toggle>, interval: nat): seq<Toggle>
    requires 0 < interval && toggles != []
  {
    Sampled(Toggle(toggles[0].at - 10 * interval, true), toggles, interval)
  }

  lemma OneMoreEdge(samples: seq<Toggle>, prev: Toggle, toggles: seq<Toggle>, k: nat, interval: nat)
    requires 0 < interval && k < |toggles|
    ensures samples + Sampled(prev, toggles[k..], interval) ==
            samples + HeldToggles(prev, toggles[k].at, interval) + [toggles[k]] +
            Sampled(toggles[k], toggles[k + 1..], interval)
  {
    hide HeldToggles;
    assert toggles[k..][0] == toggles[k] && toggles[k..][1..] == toggles[k + 1..];
    var held, rest := HeldToggles(prev, toggles[k].at, interval), Sampled(toggles[k], toggles[k + 1..], interval);
    Regroup(samples, held + [toggles[k]], rest);
    Regroup(samples, held, [toggles[k]]);
  }

  lemma NoMoreEdges(prev: Toggle, toggles: seq<Toggle>, interval: nat)
    requires 0 < interval
    ensures Sampled(prev, toggles[|toggles|..], interval) == []
  {
  }

  class ToggleElement {
    var time: int
    var val: bool

    constructor (time: int, val: bool)
      ensures this.time == time && this.val == val
    {
      this.time, this.val := time, val;
    }

    ghost function Value(): Toggle
      reads this
    {
      Toggle(time, val)
    }
  }

  ghost function Values(toggles: seq<ToggleElement>): seq<Toggle>
    reads toggles
  {
    seq(|toggles|, i requires 0 <= i < |toggles| reads toggles => toggles[i].Value())
  }

  /** Emits the held samples before one edge, advancing the previous element's own time. */
  method HoldUntil(prevToggle: ToggleElement, until: int, interval: nat) returns (held: seq<Toggle>)
    requires 0 < interval
    modifies prevToggle`time
    ensures held == HeldToggles(old(prevToggle.Value()), until, interval)
  {
    held := [];
    ghost var whole := Held(prevToggle.time, until, interval);
    while until - prevToggle.time > interval
      invariant |held| <= |whole| && whole[|held|..] == Held(prevToggle.time, until, interval)
      invariant forall i | 0 <= i < |held| :: held[i] == Toggle(whole[i], prevToggle.val)
      decreases until - prevToggle.time
    {
      assert whole[|held|] == prevToggle.time;
      held := held + [Toggle(prevToggle.time, prevToggle.val)];
      prevToggle.time := prevToggle.time + interval;
    }
  }

  /** The generator, collecting what it yields. It moves the times of the elements it has passed. */
  method IntervalizedToggles(toggles: seq<ToggleElement>, interval: nat) returns (samples: seq<Toggle>)
    requires 0 < interval && toggles != []
    requires forall i, j | 0 <= i < j < |toggles| :: toggles[i] != toggles[j]
    modifies toggles
    ensures samples == Intervalized(old(Values(toggles)), interval)
  {
    ghost var values := Values(toggles);
    ghost var whole := Intervalized(values, interval);
    hide HeldToggles, Sampled, Intervalized, Values;
    var prevToggle := new ToggleElement(toggles[0].time - 10 * interval, true);
    samples := [];
    for k := 0 to |toggles|
      invariant forall i | k <= i < |toggles| :: toggles[i].Value() == values[i]
      invariant if k == 0 then fresh(prevToggle) else prevToggle == toggles[k - 1]
      invariant whole == samples + Sampled(prevToggle.Value(), values[k..], interval)
    {
      var toggle := toggles[k];
      ghost var prev := prevToggle.Value();
      OneMoreEdge(samples, prev, values, k, interval);
      var held := HoldUntil(prevToggle, toggle.time, interval);
      samples := samples + held + [Toggle(toggle.time, toggle.val)];
      prevToggle := toggle;
    }
    NoMoreEdges(prevToggle.Value(), values, interval);
  }

  // ---- What the sampler keeps ----

  /** The level at a time: that of the last edge not after it. */
  function Level(prev: Toggle, toggles: seq<Toggle>, t: int): bool
    decreases |toggles|
  {
    if toggles == [] || t < toggles[0].at then prev.hi else Level(toggles[0], toggles[1..], t)
  }

  ghost predicate Increasing(prev: Toggle, toggles: seq<Toggle>) {
    && (toggles != [] ==> prev.at < toggles[0].at)
    && (forall i | 0 <= i < |toggles| - 1 :: toggles[i].at < toggles[i + 1].at)
  }

  lemma {:induction false} HeldTimes(from: int, until: int, interval: nat)
    requires 0 < interval && from < until
    ensures var h := Held(from, until, interval);
            && (forall t | t in h :: from <= t < until)
            && (forall i | 0 <= i < |h| - 1 :: h[i + 1] - h[i] == interval)
            && (if h == [] then until - from <= interval
                else h[0] == from && 0 < until - h[|h| - 1] <= 2 * interval)
    decreases until - from
  {
    if until - from > interval {
      HeldTimes(from + interval, until, interval);
      var h := Held(from + interval, until, interval);
      assert Held(from, until, interval) == [from] + h;
    }
  }

  /** Samples never go back and are at most two intervals apart. */
  ghost predicate Spaced(from: int, samples: seq<Toggle>, interval: nat) {
    && (samples != [] ==> 0 <= samples[0].at - from <= 2 * interval)
    && (forall i | 0 <= i < |samples| - 1 :: 0 <= samples[i + 1].at - samples[i].at <= 2 * interval)
  }

  ghost predicate RightLevels(samples: seq<Toggle>, prev: Toggle, toggles: seq<Toggle>) {
    forall s | s in samples :: prev.at <= s.at && s.hi == Level(prev, toggles, s.at)
  }

  lemma SpacedJoin(from: int, held: seq<Toggle>, edge: Toggle, rest: seq<Toggle>, interval: nat)
    requires Spaced(from, held, interval) && Spaced(edge.at, rest, interval)
    requires 0 <= edge.at - (if held == [] then from else held[|held| - 1].at) <= 2 * interval
    ensures Spaced(from, held + [edge] + rest, interval)
  {
    var samples := held + [edge] + rest;
    forall i | 0 <= i < |samples| - 1 ensures 0 <= samples[i + 1].at - samples[i].at <= 2 * interval {
      if |held| < i {
        var j := i - |held| - 1;
        assert samples[i] == rest[j] && samples[i + 1] == rest[j + 1];
      }
    }
  }

  lemma {:induction false} SampledSpaced(prev: Toggle, toggles: seq<Toggle>, interval: nat)
    requires 0 < interval && Increasing(prev, toggles)
    ensures Spaced(prev.at, Sampled(prev, toggles, interval), interval)
    decreases |toggles|
  {
    if toggles != [] {
      var edge := toggles[0];
      HeldTimes(prev.at, edge.at, interval);
      SampledSpaced(edge, toggles[1..], interval);
      SpacedJoin(prev.at, HeldToggles(prev, edge.at, interval), edge, Sampled(edge, toggles[1..], interval), interval);
    }
  }

  lemma HeldLevels(prev: Toggle, until: int, interval: nat)
    requires 0 < interval && prev.at < until
    ensures forall s | s in HeldToggles(prev, until, interval) :: prev.at <= s.at < until && s.hi == prev.hi
  {
    HeldTimes(prev.at, until, interval);
    var times := Held(prev.at, until, interval);
    assert forall i | 0 <= i < |times| :: times[i] in times;
  }

  lemma {:induction false} SampledLevels(prev: Toggle, toggles: seq<Toggle>, interval: nat)
    requires 0 < interval && Increasing(prev, toggles)
    ensures RightLevels(Sampled(prev, toggles, interval), prev, toggles)
    decreases |toggles|
  {
    if toggles != [] {
      var edge := toggles[0];
      HeldLevels(prev, edge.at, interval);
      SampledLevels(edge, toggles[1..], interval);
      EdgeLevel(edge, toggles[1..]);
      var held, rest := HeldToggles(prev, edge.at, interval), Sampled(edge, toggles[1..], interval);
      forall s | s in held + [edge] + rest ensures prev.at <= s.at && s.hi == Level(prev, toggles, s.at) {
        hide Sampled, HeldToggles, Held;
        assert s in held || s == edge || s in rest;
      }
    }
  }

  lemma EdgeLevel(edge: Toggle, later: seq<Toggle>)
    requires Increasing(edge, later)
    ensures Level(edge, later, edge.at) == edge.hi
  {
  }

  lemma {:induction false} SampledKeepsEdges(prev: Toggle, toggles: seq<Toggle>, interval: nat)
    requires 0 < interval
    ensures forall t | t in toggles :: t in Sampled(prev, toggles, interval)
    decreases |toggles|
  {
    if toggles != [] {
      SampledKeepsEdges(toggles[0], toggles[1..], interval);
      assert toggles == [toggles[0]] + toggles[1..];
    }
  }

  // ---- Decoding the reference waveform ----

  function Reading(t: int): Micros {
    t % WRAP
  }

  function Readings(times: seq<int>): seq<Micros> {
    seq(|times|, i requires 0 <= i < |times| => Reading(times[i]))
  }

  /** What the receiver is fed: the samples, with the times as the 32-bit counter shows them. */
  function Fed(samples: seq<Toggle>): seq<Sample> {
    seq(|samples|, i requires 0 <= i < |samples| => Sample(Reading(samples[i].at), samples[i].hi))
  }

  /** The sampled waveform of a list of bits as pulses; after the last rise there are no samples. */
  function Train(at: int, bits: seq<bool>, interval: nat): seq<Pulse>
    requires 0 < interval
    decreases |bits|
  {
    if bits == [] then [] else
    var rise := at + LowTime(bits[0]);
    [Pulse(Reading(at), Readings(Held(at, rise, interval)), Reading(rise),
           if |bits| == 1 then [] else Readings(Held(rise, at + BIT_TIME, interval)))]
    + Train(at + BIT_TIME, bits[1..], interval)
  }

  lemma ElapsedReading(from: int, to: int)
    requires 0 <= to - from < WRAP
    ensures Elapsed(Reading(to), Reading(from)) == to - from
  {
  }

  lemma HeldWithin(from: int, until: int, interval: nat, limit: int)
    requires 0 < interval && from < until <= from + limit < from + WRAP
    ensures forall t | t in Readings(Held(from, until, interval)) :: Elapsed(t, Reading(from)) <= limit
  {
    HeldTimes(from, until, interval);
    var h := Held(from, until, interval);
    forall i | 0 <= i < |h| ensures Elapsed(Reading(h[i]), Reading(from)) <= limit {
      assert h[i] in h;
      ElapsedReading(from, h[i]);
    }
  }

  lemma PulseInTolerance(at: int, one: bool, highs: seq<Micros>, interval: nat)
    requires 0 < interval
    requires highs == [] || highs == Readings(Held(at + LowTime(one), at + BIT_TIME, interval))
    ensures var rise := at + LowTime(one);
            var p := Pulse(Reading(at), Readings(Held(at, rise, interval)), Reading(rise), highs);
            InTolerance(p) && IsOne(p) == one
  {
    var rise := at + LowTime(one);
    HeldWithin(at, rise, interval, ONE_LOW_TIME);
    HeldWithin(rise, at + BIT_TIME, interval, BIT_TIME);
    ElapsedReading(at, rise);
    hide Held, Readings, Reading, Elapsed;
  }

  /** The train shows these bits. */
  ghost predicate Shows(train: seq<Pulse>, bits: seq<bool>) {
    |train| == |bits| && forall i | 0 <= i < |train| :: IsOne(train[i]) == bits[i]
  }

  lemma {:induction false} TrainInTolerance(at: int, bits: seq<bool>, interval: nat)
    requires 0 < interval
    ensures Shows(Train(at, bits, interval), bits)
    ensures forall p | p in Train(at, bits, interval) :: InTolerance(p)
    decreases |bits|
  {
    hide InTolerance, IsOne, Held, Reading, Readings;
    if bits != [] {
      var train, later := Train(at, bits, interval), Train(at + BIT_TIME, bits[1..], interval);
      PulseInTolerance(at, bits[0], train[0].highs, interval);
      TrainInTolerance(at + BIT_TIME, bits[1..], interval);
      assert train == [train[0]] + later;
      forall i | 1 <= i < |bits| ensures IsOne(train[i]) == bits[i] {
        assert train[i] == later[i - 1] && bits[i] == bits[1..][i - 1];
      }
    }
  }

  lemma FedConcat(a: seq<Toggle>, b: seq<Toggle>)
    ensures Fed(a + b) == Fed(a) + Fed(b)
  {
  }

  lemma FedHeld(prev: Toggle, until: int, interval: nat)
    requires 0 < interval
    ensures Fed(HeldToggles(prev, until, interval)) == Samples(Readings(Held(prev.at, until, interval)), prev.hi)
  {
  }

  /** One bit's samples: the high held before its fall, the fall, the low held, the rise, the rest. */
  lemma SampledBit(prev: Toggle, at: int, bits: seq<bool>, interval: nat)
    requires 0 < interval && bits != []
    ensures var rise := at + LowTime(bits[0]);
            Sampled(prev, BitToggles(at, bits), interval) ==
            HeldToggles(prev, at, interval) + [Toggle(at, false)] +
            (HeldToggles(Toggle(at, false), rise, interval) + [Toggle(rise, true)] +
             Sampled(Toggle(rise, true), BitToggles(at + BIT_TIME, bits[1..]), interval))
  {
    hide HeldToggles;
    var rise := Toggle(at + LowTime(bits[0]), true);
    var fall := Toggle(at, false);
    var later := BitToggles(at + BIT_TIME, bits[1..]);
    var toggles := BitToggles(at, bits);
    assert toggles[0] == fall && toggles[1..] == [rise] + later && toggles[1..][1..] == later;
  }

  lemma FedBit(prev: Toggle, at: int, rise: int, rest: seq<Toggle>, interval: nat)
    requires 0 < interval
    ensures Fed(HeldToggles(prev, at, interval) + [Toggle(at, false)] +
                (HeldToggles(Toggle(at, false), rise, interval) + [Toggle(rise, true)] + rest)) ==
            Samples(Readings(Held(prev.at, at, interval)), prev.hi) + [Sample(Reading(at), false)] +
            ((Samples(Readings(Held(at, rise, interval)), false) + [Sample(Reading(rise), true)]) + Fed(rest))
  {
    FedOne(at, false);
    FedOne(rise, true);
    FedHeld(prev, at, interval);
    FedHeld(Toggle(at, false), rise, interval);
    hide Fed, HeldToggles, Held, Samples, Readings;
    var held1, held2 := HeldToggles(prev, at, interval), HeldToggles(Toggle(at, false), rise, interval);
    FedConcat(held1 + [Toggle(at, false)], held2 + [Toggle(rise, true)] + rest);
    FedConcat(held1, [Toggle(at, false)]);
    FedConcat(held2 + [Toggle(rise, true)], rest);
    FedConcat(held2, [Toggle(rise, true)]);
  }

  lemma FedOne(at: int, hi: bool)
    ensures Fed([Toggle(at, hi)]) == [Sample(Reading(at), hi)]
  {
  }

  /** From a rise on: the high held until the next fall, then that bit and the ones after it. */
  lemma {:induction false} SamplesAreTrain(prev: Toggle, at: int, bits: seq<bool>, interval: nat)
    requires 0 < interval && prev.hi && bits != []
    ensures Fed(Sampled(prev, BitToggles(at, bits), interval)) ==
            Samples(Readings(Held(prev.at, at, interval)), true) + TrainSamples(Train(at, bits, interval))
    decreases |bits|
  {
    var rise := at + LowTime(bits[0]);
    var rest := Sampled(Toggle(rise, true), BitToggles(at + BIT_TIME, bits[1..]), interval);
    var tail := Train(at + BIT_TIME, bits[1..], interval);
    var p := Train(at, bits, interval)[0];
    if |bits| > 1 {
      SamplesAreTrain(Toggle(rise, true), at + BIT_TIME, bits[1..], interval);
    } else {
      assert bits[1..] == [] && rest == [] && tail == [];
    }
    assert Fed(rest) == Samples(p.highs, true) + TrainSamples(tail);
    assert Train(at, bits, interval) == [p] + tail && ([p] + tail)[1..] == tail;
    assert p.fall == Reading(at) && p.rise == Reading(rise) && p.lows == Readings(Held(at, rise, interval));
    assert TrainSamples(Train(at, bits, interval)) == PulseSamples(p) + TrainSamples(tail);
    hide *;
    SampledBit(prev, at, bits, interval);
    FedBit(prev, at, rise, rest, interval);
    Assemble(Samples(Readings(Held(prev.at, at, interval)), true), p, TrainSamples(tail));
  }

  lemma Assemble(held: seq<Sample>, p: Pulse, tail: seq<Sample>)
    ensures (held + [Sample(p.fall, false)]) +
            ((Samples(p.lows, false) + [Sample(p.rise, true)]) + (Samples(p.highs, true) + tail)) ==
            held + (PulseSamples(p) + tail)
  {
    hide Samples;
  }

  lemma BitsBack(n: byte)
    requires n < 16
    ensures var b := NibbleBits(n); FromBits(b[0], b[1], b[2], b[3]) == n
  {
  }

  lemma ShowsParts(train: seq<Pulse>, first: seq<bool>, later: seq<bool>)
    requires Shows(train, first + later) && |first| == 4
    ensures Shows(train[..4], first) && Shows(train[4..], later)
  {
    forall i | 0 <= i < 4 ensures IsOne(train[..4][i]) == first[i] {
      assert (first + later)[i] == first[i];
    }
    forall i | 0 <= i < |later| ensures IsOne(train[4..][i]) == later[i] {
      assert (first + later)[i + 4] == later[i];
    }
  }

  lemma FirstNibbleBack(n: byte, train: seq<Pulse>)
    requires n < 16 && 4 <= |train| && Shows(train[..4], NibbleBits(n))
    ensures FromBits(IsOne(train[0]), IsOne(train[1]), IsOne(train[2]), IsOne(train[3])) == n
  {
    BitsBack(n);
    hide FromBits, IsOne, NibbleBits;
    var t := train[..4];
    assert t[0] == train[0] && t[1] == train[1] && t[2] == train[2] && t[3] == train[3];
  }

  lemma {:induction false} NibblesBack(nibbles: seq<byte>, train: seq<Pulse>)
    requires AllNibbles(nibbles) && Shows(train, AllBits(nibbles))
    ensures Nibbles(train) == nibbles
    decreases |nibbles|
  {
    hide NibbleBits, IsOne, FromBits;
    if nibbles != [] {
      ShowsParts(train, NibbleBits(nibbles[0]), AllBits(nibbles[1..]));
      FirstNibbleBack(nibbles[0], train);
      NibblesBack(nibbles[1..], train[4..]);
    }
  }

  lemma IdleThenTrain(rx: Rx, highs: seq<Micros>, train: seq<Pulse>)
    requires AtRest(rx) && train != [] && |train| % 4 == 0
    requires forall p | p in train :: InTolerance(p)
    ensures var r := RxRun(rx, Samples(highs, true) + TrainSamples(train));
            r.out == Nibbles(train) && r.rx.state == RxNibbleEnded
  {
    hide InTolerance, Samples, TrainSamples, RxRun, Nibbles;
    IdleStaysQuiet(rx, highs);
    RxRunConcat(rx, Samples(highs, true), TrainSamples(train));
    DecodesTrain(rx, train);
  }

  /**
   * An idle receiver decodes the sampled reference waveform to exactly the nibbles, at every sampling
   * interval and wherever the clock stands, and waits after the last nibble without having pushed END.
   */
  lemma ReferenceDecodes(rx: Rx, time: int, nibbles: seq<byte>, interval: nat)
    requires AtRest(rx) && 0 < interval && nibbles != [] && AllNibbles(nibbles)
    ensures Toggles(time, nibbles) != []
    ensures var r := RxRun(rx, Fed(Intervalized(Toggles(time, nibbles), interval)));
            r.out == nibbles && r.rx.state == RxNibbleEnded
  {
    var at, bits := StartOf(time, nibbles), AllBits(nibbles);
    var prev := FirstEdge(time, nibbles, interval);
    AllBitsConcat(nibbles, []);
    var train := Train(at, bits, interval);
    hide *;
    SamplesAreTrain(prev, at, bits, interval);
    TrainInTolerance(at, bits, interval);
    IdleThenTrain(rx, Readings(Held(prev.at, at, interval)), train);
    NibblesBack(nibbles, train);
  }

  lemma FirstEdge(time: int, nibbles: seq<byte>, interval: nat) returns (prev: Toggle)
    requires 0 < interval && nibbles != []
    ensures prev == Toggle(StartOf(time, nibbles) - 10 * interval, true)
    ensures AllBits(nibbles) != []
    ensures Toggles(time, nibbles) == BitToggles(StartOf(time, nibbles), AllBits(nibbles)) != []
    ensures Toggles(time, nibbles)[0].at == StartOf(time, nibbles)
    ensures Intervalized(Toggles(time, nibbles), interval) == Sampled(prev, Toggles(time, nibbles), interval)
  {
    hide StartOf;
    AllBitsConcat(nibbles, []);
    prev := Toggle(StartOf(time, nibbles) - 10 * interval, true);
  }

  lemma MessageToggles(time: int, b: Body)
    requires Representable(b)
    ensures Toggles(time, Checked(Encode(b))) != []
  {
    FrameIsShort(b);
    AllBitsConcat(Checked(Encode(b)), []);
  }

  /** A message of the catalogue as the desktop library encodes and samples it. */
  function MessageSamples(time: int, b: Body, interval: nat): seq<Sample>
    requires Representable(b) && 0 < interval
  {
    MessageToggles(time, b);
    Fed(Intervalized(Toggles(time, Checked(Encode(b))), interval))
  }

  /**
   * Any message of the catalogue, encoded by the desktop library, sampled at any interval and followed
   * by a gap, is heard by the device's application, whatever the device is sending meanwhile.
   */
  lemma ReferenceMessageHeard(d: Device, now: Micros, inputs: seq<Input>,
                              time: int, b: Body, interval: nat, highs: seq<Micros>)
    requires Attentive(d) && Representable(b) && 0 < interval
    requires var samples := MessageSamples(time, b, interval);
             && Seen(now, inputs) == samples + Samples(highs, true)
             && exists t :: t in highs && Elapsed(t, RxRun(d.phy.rx, samples).rx.stamp) > 3100
    ensures FramesFit(d, now, inputs)
    ensures var end, log := Run(d, now, inputs), LogOf(d, now, inputs);
            && log.heard == [Said(b)]
            && Understood(d.app, [Said(b)]) == end.app.(cmds := log.carriedOut + end.app.cmds)
            && end.rxFifo == [] && end.link.frame == [] && AtRest(end.phy.rx)
  {
    var nibbles, samples := Checked(Encode(b)), MessageSamples(time, b, interval);
    MessageToggles(time, b);
    FrameIsShort(b);
    OneMessage(b);
    hide Encode, Checked, Toggles, Intervalized, Fed, RxRun, Run, LogOf, Understood, Elapsed, Samples, QueuesOk, Said,
         SpeechSymbols, SaidAll;
    ReferenceDecodes(d.phy.rx, time, nibbles, interval);
    QuietAfterNibble(RxRun(d.phy.rx, samples).rx, highs);
    RxRunConcat(d.phy.rx, samples, Samples(highs, true));
    SymbolsHeard(d, now, inputs, [b]);
  }

  lemma OneMessage(b: Body)
    ensures SpeechSymbols([b]) == Checked(Encode(b)) + [END] && SaidAll([b]) == [Said(b)]
  {
    hide Checked, Encode;
    assert [b][1..] == [];
  }

  lemma {:induction false} TogglesIncrease(at: int, bits: seq<bool>, prev: Toggle)
    requires prev.at < at
    ensures Increasing(prev, BitToggles(at, bits))
    decreases |bits|
  {
    if bits != [] {
      var rise := Toggle(at + LowTime(bits[0]), true);
      var later := BitToggles(at + BIT_TIME, bits[1..]);
      TogglesIncrease(at + BIT_TIME, bits[1..], rise);
      assert BitToggles(at, bits) == [Toggle(at, false), rise] + later;
    }
  }

  lemma FirstSample(prev: Toggle, toggles: seq<Toggle>, interval: nat)
    requires 0 < interval && toggles != [] && toggles[0].at - prev.at == 10 * interval
    ensures Sampled(prev, toggles, interval) != [] && Sampled(prev, toggles, interval)[0] == prev
  {
    HeldExactly(prev.at, toggles[0].at, interval, 0);
  }

  /** The sampler starts ten intervals early and keeps every edge of the waveform, its levels and its order. */
  lemma ReferenceSampledFaithfully(time: int, nibbles: seq<byte>, interval: nat)
    requires 0 < interval && nibbles != []
    ensures Toggles(time, nibbles) != []
    ensures var toggles := Toggles(time, nibbles);
            var before := Toggle(toggles[0].at - 10 * interval, true);
            var samples := Intervalized(toggles, interval);
            && samples != [] && samples[0] == before
            && Spaced(before.at, samples, interval)
            && RightLevels(samples, before, toggles)
            && (forall t | t in toggles :: t in samples)
  {
    var prev := FirstEdge(time, nibbles, interval);
    TogglesIncrease(StartOf(time, nibbles), AllBits(nibbles), prev);
    FirstSample(prev, Toggles(time, nibbles), interval);
    hide *;
    SampledSpaced(prev, Toggles(time, nibbles), interval);
    SampledLevels(prev, Toggles(time, nibbles), interval);
    SampledKeepsEdges(prev, Toggles(time, nibbles), interval);
  }
}
