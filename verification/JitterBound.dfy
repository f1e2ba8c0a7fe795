// 225 microseconds is the longest gap the closed loop bears: with 226, three late calls in a row
// between two nibbles make the receiver close the message in the middle.
module JitterBound {
  import opened Clock
  import opened PhySpec
  import opened ClosedLoop

  /** The round trip for every PHY, clock and schedule with gaps of at most `most`. */
  ghost predicate RoundTripsAt(most: nat) {
    forall p: Phy, now: Micros, gaps: seq<nat> | Ready(p) && Paced(gaps, most) ::
      var end := LoopRun(p, now, gaps);
      end.out <= p.port.queue && (!TxBusy(end.phy.port) ==> end.out == p.port.queue)
  }

  // ---- Runs by parts ----

  lemma {:induction false} LoopRunConcat(p: Phy, now: Micros, a: seq<nat>, b: seq<nat>)
    ensures LoopRun(p, now, a + b) ==
            var first := LoopRun(p, now, a);
            var second := LoopRun(first.phy, first.now, b);
            LoopEnd(second.phy, second.now, first.out + second.out)
    decreases |a|
  {
    hide LoopStep;
    if a == [] {
      assert a + b == b;
    } else {
      assert (a + b)[1..] == a[1..] + b;
      var next := Advance(now, a[0]);
      LoopRunConcat(LoopStep(p, next).phy, next, a[1..], b);
    }
  }

  function Ones(n: nat): seq<nat> {
    seq(n, _ => 1)
  }

  /** The PHY called `n` times, a microsecond apart. */
  function Each(p: Phy, now: Micros, n: nat): LoopEnd {
    LoopRun(p, now, Ones(n))
  }

  lemma OneCall(p: Phy, now: Micros, s: PhyResult)
    requires now + 1 < 0x1_0000_0000 && LoopStep(p, now + 1) == s
    ensures Each(p, now, 1) == LoopEnd(s.phy, now + 1, s.out)
  {
    hide LoopStep;
    assert Ones(1) == [1] && Ones(1)[1..] == [];
    assert LoopRun(s.phy, now + 1, []) == LoopEnd(s.phy, now + 1, []);
  }

  /** Two runs, one after the other, of which one pushes nothing. */
  lemma Then(p: Phy, now: Micros, m: nat, mid: LoopEnd, n: nat, end: LoopEnd)
    requires Each(p, now, m) == mid && Each(mid.phy, mid.now, n) == end
    requires mid.out == [] || end.out == []
    ensures Each(p, now, m + n) == end.(out := if mid.out == [] then end.out else mid.out)
  {
    assert Ones(m + n) == Ones(m) + Ones(n);
    hide LoopRun, Ones;
    LoopRunConcat(p, now, Ones(m), Ones(n));
    assert mid.out + end.out == if mid.out == [] then end.out else mid.out;
  }

  /** Nothing happens while nothing is due. */
  lemma {:induction false} Waits(p: Phy, now: Micros, n: nat)
    requires now + n < 0x1_0000_0000
    requires forall at: Micros | now < at <= now + n :: LoopStep(p, at) == PhyResult(p, [])
    ensures Each(p, now, n) == LoopEnd(p, now + n, [])
    decreases n
  {
    hide LoopStep;
    if n > 0 {
      assert LoopStep(p, now + 1) == PhyResult(p, []);
      OneCall(p, now, PhyResult(p, []));
      Waits(p, now + 1, n - 1);
      hide Each;
      Then(p, now, 1, LoopEnd(p, now + 1, []), n - 1, LoopEnd(p, now + n, []));
    }
  }

  // ---- A zero, called every microsecond ----

  /** The transmitter is about to send a zero and the receiver is ready for it. */
  predicate ZeroDue(p: Phy, now: Micros) {
    && now + 3101 < 0x1_0000_0000
    && p.port.tx.state == TxSending && !p.port.drive && p.port.tx.shifter & 0x80 == 0
    && (p.rx.state == RxIdle || (p.rx.state == RxAwaitingFall && p.rx.stamp <= now < p.rx.stamp + 3100))
  }

  function InZero(p: Phy, low: Micros): Phy
    requires low + 1 < 0x1_0000_0000
  {
    Phy(TxPort(Tx(TxSendingZero, p.port.tx.shifter << 1, low), p.port.queue, true),
        Rx(RxAwaitingRise, p.rx.shifter, low + 1))
  }

  function AfterZero(p: Phy, low: Micros): Phy
    requires low + 677 < 0x1_0000_0000
  {
    var shifter := p.rx.shifter << 1;
    Phy(TxPort(Tx(TxBitGap, p.port.tx.shifter << 1, low), p.port.queue, false),
        if shifter & 0x80 != 0 then Rx(RxNibbleEnded, RX_SHIFTER_INIT, low + 677)
        else Rx(RxAwaitingFall, shifter, low + 677))
  }

  function ZeroOut(p: Phy): seq<byte> {
    var shifter := p.rx.shifter << 1;
    if shifter & 0x80 != 0 then [shifter & 0x0F] else []
  }

  lemma ZeroDriven(p: Phy, now: Micros)
    requires ZeroDue(p, now)
    ensures LoopStep(p, now + 1) ==
            PhyResult(Phy(TxPort(Tx(TxSendingZero, p.port.tx.shifter << 1, now + 1), p.port.queue, true), p.rx), [])
  {
  }

  lemma ZeroFallSeen(p: Phy, low: Micros)
    requires low + 1 < 0x1_0000_0000 && p.rx.state in {RxIdle, RxAwaitingFall}
    ensures LoopStep(Phy(TxPort(Tx(TxSendingZero, p.port.tx.shifter << 1, low), p.port.queue, true), p.rx), low + 1) ==
            PhyResult(InZero(p, low), [])
  {
  }

  lemma ZeroDueFits(p: Phy, now: Micros)
    requires ZeroDue(p, now)
    ensures now + 3101 < 0x1_0000_0000
  {
  }

  lemma ZeroFalls(p: Phy, now: Micros)
    requires ZeroDue(p, now)
    ensures Each(p, now, 2) == LoopEnd(InZero(p, now + 1), now + 2, [])
  {
    var low := now + 1;
    var driven := Phy(TxPort(Tx(TxSendingZero, p.port.tx.shifter << 1, low), p.port.queue, true), p.rx);
    ZeroDueFits(p, now);
    assert p.rx.state in {RxIdle, RxAwaitingFall};
    hide *;
    ZeroDriven(p, now);
    ZeroFallSeen(p, low);
    OneCall(p, now, PhyResult(driven, []));
    OneCall(driven, low, PhyResult(InZero(p, low), []));
    Then(p, now, 1, LoopEnd(driven, low, []), 1, LoopEnd(InZero(p, low), now + 2, []));
  }

  lemma ZeroReleased(p: Phy, low: Micros)
    requires low + 676 < 0x1_0000_0000
    ensures LoopStep(InZero(p, low), low + 676) ==
            PhyResult(Phy(TxPort(Tx(TxBitGap, p.port.tx.shifter << 1, low), p.port.queue, false),
                          Rx(RxAwaitingRise, p.rx.shifter, low + 1)), [])
  {
  }

  lemma ZeroSeen(p: Phy, low: Micros)
    requires low + 677 < 0x1_0000_0000
    ensures LoopStep(Phy(TxPort(Tx(TxBitGap, p.port.tx.shifter << 1, low), p.port.queue, false),
                         Rx(RxAwaitingRise, p.rx.shifter, low + 1)), low + 677) ==
            PhyResult(AfterZero(p, low), ZeroOut(p))
  {
  }

  lemma ZeroRises(p: Phy, low: Micros)
    requires low + 677 < 0x1_0000_0000
    ensures Each(InZero(p, low), low + 675, 2) == LoopEnd(AfterZero(p, low), low + 677, ZeroOut(p))
  {
    var released := Phy(TxPort(Tx(TxBitGap, p.port.tx.shifter << 1, low), p.port.queue, false),
                        Rx(RxAwaitingRise, p.rx.shifter, low + 1));
    ZeroReleased(p, low);
    ZeroSeen(p, low);
    hide *;
    OneCall(InZero(p, low), low + 675, PhyResult(released, []));
    OneCall(released, low + 676, PhyResult(AfterZero(p, low), ZeroOut(p)));
    Then(InZero(p, low), low + 675, 1, LoopEnd(released, low + 676, []),
         1, LoopEnd(AfterZero(p, low), low + 677, ZeroOut(p)));
  }

  lemma ZeroHolds(p: Phy, low: Micros)
    requires low + 675 < 0x1_0000_0000
    ensures Each(InZero(p, low), low + 1, 674) == LoopEnd(InZero(p, low), low + 675, [])
  {
    Waits(InZero(p, low), low + 1, 674);
  }

  lemma GapHolds(p: Phy, low: Micros)
    requires low + 3100 < 0x1_0000_0000
    ensures Each(AfterZero(p, low), low + 677, 2423) == LoopEnd(AfterZero(p, low), low + 3100, [])
  {
    Waits(AfterZero(p, low), low + 677, 2423);
  }

  /** From the call before the fall to the last call inside the bit's period. */
  lemma ZeroSent(p: Phy, now: Micros)
    requires ZeroDue(p, now)
    ensures Each(p, now, 3101) == LoopEnd(AfterZero(p, now + 1), now + 3101, ZeroOut(p))
  {
    var low := now + 1;
    ZeroFalls(p, now);
    ZeroHolds(p, low);
    ZeroRises(p, low);
    GapHolds(p, low);
    hide *;
    var held, risen := LoopEnd(InZero(p, low), low + 675, []), LoopEnd(AfterZero(p, low), low + 677, ZeroOut(p));
    Then(p, now, 2, LoopEnd(InZero(p, low), low + 1, []), 674, held);
    Then(p, now, 676, held, 2, risen);
    Then(p, now, 678, risen, 2423, LoopEnd(AfterZero(p, low), low + 3100, []));
  }

  lemma PeriodEnds(p: Phy, now: Micros)
    requires now + 3102 < 0x1_0000_0000
    requires (p.port.tx.shifter << 1) & 0x0F != 0 && (p.rx.shifter << 1) & 0x80 == 0
    ensures LoopStep(AfterZero(p, now + 1), now + 3102) ==
            PhyResult(Phy(TxPort(Tx(TxSending, p.port.tx.shifter << 1, now + 1), p.port.queue, false),
                          Rx(RxAwaitingFall, p.rx.shifter << 1, now + 678)), [])
  {
  }

  /** The call that ends the period starts the next bit. */
  lemma NextZero(p: Phy, now: Micros)
    requires ZeroDue(p, now) && now + 3102 < 0x1_0000_0000
    requires (p.port.tx.shifter << 1) & 0x0F != 0 && (p.rx.shifter << 1) & 0x80 == 0
    ensures Each(p, now, 3102) ==
            LoopEnd(Phy(TxPort(Tx(TxSending, p.port.tx.shifter << 1, now + 1), p.port.queue, false),
                        Rx(RxAwaitingFall, p.rx.shifter << 1, now + 678)), now + 3102, [])
  {
    var next := Phy(TxPort(Tx(TxSending, p.port.tx.shifter << 1, now + 1), p.port.queue, false),
                    Rx(RxAwaitingFall, p.rx.shifter << 1, now + 678));
    var gap := AfterZero(p, now + 1);
    PeriodEnds(p, now);
    assert ZeroOut(p) == [];
    hide *;
    ZeroSent(p, now);
    OneCall(gap, now + 3101, PhyResult(next, []));
    Then(p, now, 3101, LoopEnd(gap, now + 3101, []), 1, LoopEnd(next, now + 3102, []));
  }

  // ---- The nibble zero, and three late calls ----

  const QUEUE: seq<byte> := [0, 0, END]

  /** The message queued; the first nibble popped; before its second, third and fourth bit. */
  function Before(bit: nat): Phy {
    match bit
    case 0 => Phy(TxPort(Tx(TxIdle, TX_SHIFTER_INIT, 0), QUEUE, false), RX_START)
    case 1 => Phy(TxPort(Tx(TxSending, 0x01, 0), [0, END], false), RX_START)
    case 2 => Phy(TxPort(Tx(TxSending, 0x02, 2), [0, END], false), Rx(RxAwaitingFall, 0x10, 679))
    case 3 => Phy(TxPort(Tx(TxSending, 0x04, 3104), [0, END], false), Rx(RxAwaitingFall, 0x20, 3781))
    case _ => Phy(TxPort(Tx(TxSending, 0x08, 6206), [0, END], false), Rx(RxAwaitingFall, 0x40, 6883))
  }

  /** At the last call within the period of the fourth bit the nibble has been received. */
  const NIBBLE_DONE := Phy(TxPort(Tx(TxBitGap, 0x10, 9308), [0, END], false), Rx(RxNibbleEnded, RX_SHIFTER_INIT, 9985))

  lemma FirstPop()
    ensures Each(Before(0), 0, 1) == LoopEnd(Before(1), 1, [])
  {
    OneCall(Before(0), 0, PhyResult(Before(1), []));
  }

  lemma BitOfZero(bit: nat)
    requires 1 <= bit <= 3
    ensures var start := 3102 * bit - 3101;
            Each(Before(bit), start, 3102) == LoopEnd(Before(bit + 1), start + 3102, [])
  {
    NextZero(Before(bit), 3102 * bit - 3101);
  }

  lemma LastBitOfZero()
    ensures Each(Before(4), 9307, 3101) == LoopEnd(NIBBLE_DONE, 12408, [0])
  {
    ZeroSent(Before(4), 9307);
  }

  lemma BitsOfZero()
    ensures Each(Before(0), 0, 12408) == LoopEnd(NIBBLE_DONE, 12408, [0])
  {
    hide *;
    var p := Before(0);
    FirstPop();
    BitOfZero(1);
    Then(p, 0, 1, LoopEnd(Before(1), 1, []), 3102, LoopEnd(Before(2), 3103, []));
    BitOfZero(2);
    Then(p, 0, 3103, LoopEnd(Before(2), 3103, []), 3102, LoopEnd(Before(3), 6205, []));
    BitOfZero(3);
    Then(p, 0, 6205, LoopEnd(Before(3), 6205, []), 3102, LoopEnd(Before(4), 9307, []));
    LastBitOfZero();
    Then(p, 0, 9307, LoopEnd(Before(4), 9307, []), 3101, LoopEnd(NIBBLE_DONE, 12408, [0]));
  }

  lemma ThreeLateCalls()
    ensures LoopRun(NIBBLE_DONE, 12408, [226, 226, 226]).out == [END]
  {
    var s1 := LoopStep(NIBBLE_DONE, 12634);
    var s2 := LoopStep(s1.phy, 12860);
    var s3 := LoopStep(s2.phy, 13086);
    assert s1.out == [] && s2.out == [] && s3.out == [END];
    assert LoopRun(s3.phy, 13086, []).out == [];
    assert [226, 226, 226][1..] == [226, 226] && [226, 226][1..] == [226] && [226][1..] == [];
    assert LoopRun(s2.phy, 12860, [226]).out == [END];
    assert LoopRun(s1.phy, 12634, [226, 226]).out == [END];
  }

  /** A microsecond between calls, and then three calls of 226. */
  function LateCalls(): seq<nat> {
    Ones(12408) + [226, 226, 226]
  }

  lemma LateCallsPaced()
    ensures Paced(LateCalls(), 226)
  {
  }

  lemma StartReady()
    ensures Ready(Before(0)) && Before(0).port.queue == QUEUE
  {
    assert [0, 0, END][1..] == [0, END] && [0, END][1..] == [END] && [END][1..] == [];
    assert InMessage([END]) && InMessage([0, END]);
  }

  /** The receiver closes the message after its first nibble. */
  lemma LateCallsSplitMessage()
    ensures Before(0).port.queue == [0, 0, END] && LoopRun(Before(0), 0, LateCalls()).out == [0, END]
  {
    assert LoopRun(Before(0), 0, Ones(12408)) == Each(Before(0), 0, 12408);
    hide LoopRun, Ones, Each;
    BitsOfZero();
    ThreeLateCalls();
    LoopRunConcat(Before(0), 0, Ones(12408), [226, 226, 226]);
    assert [0] + [END] == [0, END];
  }

  /** So the longest gap for which everything queued is received is exactly 225 microseconds. */
  lemma ExactJitterBound(most: nat)
    ensures RoundTripsAt(most) <==> most <= 225
  {
    if most <= 225 {
      forall p: Phy, now: Micros, gaps: seq<nat> | Ready(p) && Paced(gaps, most)
        ensures var end := LoopRun(p, now, gaps);
                end.out <= p.port.queue && (!TxBusy(end.phy.port) ==> end.out == p.port.queue)
      {
        hide Ready, LoopRun;
        RoundTrip(p, now, gaps);
      }
    } else {
      StartReady();
      LateCallsPaced();
      LateCallsSplitMessage();
      hide LoopRun, Ready, Before, LateCalls;
      var end := LoopRun(Before(0), 0, LateCalls());
      assert Paced(LateCalls(), most);
      assert end.out[1] != Before(0).port.queue[1];
      assert !(end.out <= Before(0).port.queue);
    }
  }
}
