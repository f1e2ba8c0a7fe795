// The PHY heard by itself: the line is low exactly while the transmitter drives it, so each call
// of the receiver sees the level set by the previous call of the transmitter. For every clock
// reading and every schedule with gaps of at most 225 microseconds, what is queued is what is
// received.
module ClosedLoop {
  import opened Sequences
  import opened Clock
  import opened PhySpec
  import opened TransmitterTiming

  const MOST_JITTER := 225

  function LoopStep(p: Phy, now: Micros): PhyResult {
    PhyStep(p, now, !p.port.drive)
  }

  // ---- Queues of whole messages ----

  /** Messages of at least one nibble, each closed by END. */
  predicate Whole(q: seq<byte>) {
    q == [] || (q[0] < 16 && InMessage(q[1..]))
  }

  /** The same, from the inside of the first message. */
  predicate InMessage(q: seq<byte>) {
    q != [] && if q[0] == END then Whole(q[1..]) else q[0] < 16 && InMessage(q[1..])
  }

  lemma {:induction false} WholeConcat(q: seq<byte>, more: seq<byte>)
    requires Whole(more)
    ensures Whole(q) ==> Whole(q + more)
    ensures InMessage(q) ==> InMessage(q + more)
  {
    if q == [] {
      assert q + more == more;
    } else {
      assert (q + more)[1..] == q[1..] + more;
      WholeConcat(q[1..], more);
    }
  }

  // ---- The nibble in flight ----

  /** The nibble being sent and how many of its bits the transmitter has shifted out. */
  datatype Flight = Flight(nibble: byte, sent: nat)

  ghost predicate FlightOk(f: Flight) {
    f.nibble < 16 && f.sent <= 4
  }

  ghost function TxShifter(f: Flight): byte
    requires FlightOk(f)
  {
    var loaded: byte := LoadShifter(f.nibble);
    match f.sent
    case 0 => loaded
    case 1 => loaded << 1
    case 2 => loaded << 2
    case 3 => loaded << 3
    case 4 => loaded << 4
  }

  /** The receiver's shifter when it has seen the first `seen` bits. */
  ghost function RxShifter(nibble: byte, seen: nat): byte
    requires nibble < 16 && seen <= 3
  {
    match seen
    case 0 => RX_SHIFTER_INIT
    case 1 => 0x10 | (nibble >> 3)
    case 2 => 0x20 | (nibble >> 2)
    case 3 => 0x40 | (nibble >> 1)
  }

  /** Whether bit number `index` of the nibble, most significant first, is a one. */
  ghost predicate BitOf(nibble: byte, index: nat)
    requires index < 4
  {
    match index
    case 0 => nibble & 8 != 0
    case 1 => nibble & 4 != 0
    case 2 => nibble & 2 != 0
    case 3 => nibble & 1 != 0
  }

  /** Symbols queued or on the line that the receiver has not pushed yet. */
  ghost function Pending(p: Phy, f: Flight): seq<byte> {
    match p.port.tx.state
    case TxDisabled | TxEnable | TxTurnaround | TxIdle => p.port.queue
    case TxSending | TxSendingOne | TxSendingZero => [f.nibble] + p.port.queue
    case TxBitGap =>
      if f.sent == 4 && p.rx.state == RxNibbleEnded then p.port.queue else [f.nibble] + p.port.queue
    case TxMsgGap | TxMsgWait =>
      if p.rx.state == RxNibbleEnded then [END] + p.port.queue else p.port.queue
  }

  // ---- The invariant ----

  /** The receiver has pushed a nibble and saw the line rise at most `limit` ago. */
  ghost predicate AfterNibble(rx: Rx, now: Micros, limit: nat) {
    rx.state == RxNibbleEnded && rx.shifter == RX_SHIFTER_INIT && Elapsed(now, rx.stamp) <= limit
  }

  /** The receiver has seen `seen` bits and waits for the next fall. */
  ghost predicate BetweenBits(rx: Rx, nibble: byte, seen: nat)
    requires nibble < 16 && seen <= 3
  {
    if seen == 0 then rx.state in {RxIdle, RxNibbleEnded} && rx.shifter == RX_SHIFTER_INIT
    else rx.state == RxAwaitingFall && rx.shifter == RxShifter(nibble, seen)
  }

  /** The receiver saw the line fall between 1 and 225 after the transmitter drove it. */
  ghost predicate InLow(p: Phy, now: Micros, f: Flight)
    requires FlightOk(f) && f.sent >= 1
  {
    && p.rx.state == RxAwaitingRise
    && p.rx.shifter == RxShifter(f.nibble, f.sent - 1)
    && 1 <= Elapsed(now, p.port.tx.stamp) - Elapsed(now, p.rx.stamp) <= MOST_JITTER
  }

  ghost predicate SendingInv(p: Phy, now: Micros, f: Flight) {
    && !p.port.drive && InMessage(p.port.queue)
    && FlightOk(f) && f.sent <= 3
    && p.port.tx.shifter == TxShifter(f)
    && BetweenBits(p.rx, f.nibble, f.sent)
    && (p.rx.state == RxNibbleEnded ==> Elapsed(now, p.rx.stamp) <= 2873)
    && (p.rx.state == RxAwaitingFall ==> Elapsed(now, p.rx.stamp) <= 2873)
  }

  ghost predicate LowInv(p: Phy, now: Micros, f: Flight, one: bool) {
    var age := Elapsed(now, p.port.tx.stamp);
    && p.port.drive && InMessage(p.port.queue)
    && FlightOk(f) && 1 <= f.sent
    && p.port.tx.shifter == TxShifter(f)
    && BitOf(f.nibble, f.sent - 1) == one
    && age <= (if one then ONE_LOW_TIME else ZERO_LOW_TIME)
    && ((age == 0 && BetweenBits(p.rx, f.nibble, f.sent - 1)) || InLow(p, now, f))
  }

  ghost predicate BitGapInv(p: Phy, now: Micros, f: Flight) {
    var age := Elapsed(now, p.port.tx.stamp);
    && !p.port.drive && InMessage(p.port.queue)
    && FlightOk(f) && 1 <= f.sent
    && p.port.tx.shifter == TxShifter(f)
    && age <= BIT_TIME
    && (|| (InLow(p, now, f) &&
            if BitOf(f.nibble, f.sent - 1)
            then ONE_LOW_TIME < age <= ONE_LOW_TIME + MOST_JITTER
            else ZERO_LOW_TIME < age <= ZERO_LOW_TIME + MOST_JITTER)
        || (&& age - Elapsed(now, p.rx.stamp) >= ZERO_LOW_TIME + 2
            && if f.sent == 4 then AfterNibble(p.rx, now, BIT_TIME)
               else BetweenBits(p.rx, f.nibble, f.sent)))
  }

  ghost predicate LoopInv(p: Phy, now: Micros, f: Flight) {
    match p.port.tx.state
    case TxDisabled | TxEnable | TxTurnaround =>
      !p.port.drive && Whole(p.port.queue) && AtRest(p.rx)
    case TxIdle =>
      !p.port.drive &&
      ((Whole(p.port.queue) && AtRest(p.rx)) || (InMessage(p.port.queue) && AfterNibble(p.rx, now, 2648)))
    case TxSending => SendingInv(p, now, f)
    case TxSendingOne => LowInv(p, now, f, true)
    case TxSendingZero => LowInv(p, now, f, false)
    case TxBitGap => BitGapInv(p, now, f)
    case TxMsgGap =>
      !p.port.drive && Whole(p.port.queue) && (AtRest(p.rx) || AfterNibble(p.rx, now, BIT_TIME))
    case TxMsgWait =>
      && !p.port.drive && Whole(p.port.queue)
      && Elapsed(now, p.port.tx.stamp) <= MSG2MSG_TIME
      && (AtRest(p.rx) ||
          (AfterNibble(p.rx, now, BIT_TIME) && Elapsed(now, p.port.tx.stamp) <= Elapsed(now, p.rx.stamp)))
  }

  /** One step keeps the invariant, and what it pushes is taken off the front of what is pending. */
  ghost predicate Preserved(p: Phy, now: Micros, gap: nat, f: Flight, f': Flight) {
    var s := LoopStep(p, Advance(now, gap));
    && LoopInv(s.phy, Advance(now, gap), f')
    && s.out + Pending(s.phy, f') == Pending(p, f)
    && |s.out| <= 1
  }

  lemma StepQuiet(p: Phy, now: Micros, gap: nat, f: Flight)
    requires LoopInv(p, now, f) && 1 <= gap <= MOST_JITTER
    requires p.port.tx.state in {TxDisabled, TxEnable, TxTurnaround}
    ensures Preserved(p, now, gap, f, f)
  {
  }

  lemma StepIdle(p: Phy, now: Micros, gap: nat, f: Flight) returns (f': Flight)
    requires LoopInv(p, now, f) && 1 <= gap <= MOST_JITTER
    requires p.port.tx.state == TxIdle
    ensures Preserved(p, now, gap, f, f')
  {
    f' := if p.port.queue == [] then f else Flight(p.port.queue[0], 0);
    if p.rx.state == RxNibbleEnded {
      ElapsedAfter(now, p.rx.stamp, gap);
    }
  }

  lemma StepSending(p: Phy, now: Micros, gap: nat, f: Flight) returns (f': Flight)
    requires LoopInv(p, now, f) && 1 <= gap <= MOST_JITTER
    requires p.port.tx.state == TxSending
    ensures Preserved(p, now, gap, f, f')
  {
    hide TxShifter, RxShifter, BitOf, RxStep, TxStep;
    f' := Flight(f.nibble, f.sent + 1);
    if p.rx.state != RxIdle {
      ElapsedAfter(now, p.rx.stamp, gap);
    }
    RxWaits(p.rx, Advance(now, gap));
    SendsBit(p.port, Advance(now, gap), f);
    assert Elapsed(Advance(now, gap), Advance(now, gap)) == 0;
  }

  lemma SendsBit(p: TxPort, at: Micros, f: Flight)
    requires p.tx.state == TxSending && FlightOk(f) && f.sent <= 3 && p.tx.shifter == TxShifter(f)
    ensures TxStep(p, at) ==
            TxPort(Tx(if BitOf(f.nibble, f.sent) then TxSendingOne else TxSendingZero,
                      TxShifter(Flight(f.nibble, f.sent + 1)), at), p.queue, true)
  {
    ShiftOut(f);
  }

  /** A high within the gap limit changes nothing. */
  lemma RxWaits(rx: Rx, at: Micros)
    requires rx.state in {RxIdle, RxNibbleEnded, RxAwaitingFall}
    requires rx.state != RxIdle ==> Elapsed(at, rx.stamp) <= BIT_TIME
    ensures RxStep(rx, at, true) == RxResult(rx, [])
  {
  }

  lemma ShiftOut(f: Flight)
    requires FlightOk(f) && f.sent <= 3
    ensures (TxShifter(f) & 0x80 != 0) == BitOf(f.nibble, f.sent)
    ensures TxShifter(f) << 1 == TxShifter(Flight(f.nibble, f.sent + 1))
    ensures TxShifter(f) & 0x0F != 0
  {
  }

  lemma NothingSeen(nibble: byte)
    requires nibble < 16
    ensures RxShifter(nibble, 0) == RX_SHIFTER_INIT
  {
  }

  lemma StepLow(p: Phy, now: Micros, gap: nat, f: Flight)
    requires LoopInv(p, now, f) && 1 <= gap <= MOST_JITTER
    requires p.port.tx.state in {TxSendingOne, TxSendingZero}
    ensures Preserved(p, now, gap, f, f)
  {
    hide SendingInv, TxShifter, RxShifter, BitOf;
    assert RxShifter(f.nibble, 0) == RX_SHIFTER_INIT by {
      NothingSeen(f.nibble);
    }
    ElapsedAfter(now, p.port.tx.stamp, gap);
    if p.rx.state == RxAwaitingRise {
      ElapsedAfter(now, p.rx.stamp, gap);
    }
  }

  lemma ShiftInBit(nibble: byte, seen: nat, low: Micros)
    requires nibble < 16 && seen <= 3
    requires (low > ONE_THRESHOLD) == BitOf(nibble, seen)
    ensures var shifter := ShiftIn(RxShifter(nibble, seen), low);
            if seen == 3 then shifter & 0x80 != 0 && shifter & 0x0F == nibble
            else shifter & 0x80 == 0 && shifter == RxShifter(nibble, seen + 1)
  {
  }

  /** The rise ends the bit: the receiver has one more, or the whole nibble. */
  lemma RiseSeen(rx: Rx, at: Micros, nibble: byte, seen: nat)
    requires rx.state == RxAwaitingRise && nibble < 16 && seen <= 3
    requires rx.shifter == RxShifter(nibble, seen)
    requires (Elapsed(at, rx.stamp) > ONE_THRESHOLD) == BitOf(nibble, seen)
    ensures RxStep(rx, at, true) ==
            if seen == 3 then RxResult(Rx(RxNibbleEnded, RX_SHIFTER_INIT, at), [nibble])
            else RxResult(Rx(RxAwaitingFall, RxShifter(nibble, seen + 1), at), [])
  {
    ShiftInBit(nibble, seen, Elapsed(at, rx.stamp));
  }

  lemma StepBitGapRise(p: Phy, now: Micros, gap: nat, f: Flight)
    requires LoopInv(p, now, f) && 1 <= gap <= MOST_JITTER
    requires p.port.tx.state == TxBitGap && p.rx.state == RxAwaitingRise
    ensures Preserved(p, now, gap, f, f)
  {
    hide TxShifter, RxShifter, BitOf;
    var at := Advance(now, gap);
    ElapsedAfter(now, p.port.tx.stamp, gap);
    ElapsedAfter(now, p.rx.stamp, gap);
    RiseSeen(p.rx, at, f.nibble, f.sent - 1);
    assert TxStep(p.port, at) == p.port;
    assert Elapsed(at, at) == 0;
  }

  lemma StepBitGapWait(p: Phy, now: Micros, gap: nat, f: Flight)
    requires LoopInv(p, now, f) && 1 <= gap <= MOST_JITTER
    requires p.port.tx.state == TxBitGap && p.rx.state != RxAwaitingRise
    ensures Preserved(p, now, gap, f, f)
  {
    hide TxShifter, RxShifter, BitOf;
    ElapsedAfter(now, p.port.tx.stamp, gap);
    ElapsedAfter(now, p.rx.stamp, gap);
    if f.sent <= 3 {
      ShiftOut(f);
    } else {
      AllShifted(f);
    }
  }

  lemma AllShifted(f: Flight)
    requires FlightOk(f) && f.sent == 4
    ensures TxShifter(f) & 0x0F == 0
  {
  }

  /** A receiver after a nibble waits for the gap limit, then pushes END. */
  lemma QuietLine(rx: Rx, at: Micros)
    requires rx.state in {RxIdle, RxNibbleEnded} && rx.shifter == RX_SHIFTER_INIT
    ensures RxStep(rx, at, true) ==
            if rx.state == RxNibbleEnded && Elapsed(at, rx.stamp) > 3100
            then RxResult(rx.(state := RxIdle), [END]) else RxResult(rx, [])
  {
  }

  lemma StepMsgGap(p: Phy, now: Micros, gap: nat, f: Flight)
    requires LoopInv(p, now, f) && 1 <= gap <= MOST_JITTER
    requires p.port.tx.state == TxMsgGap
    ensures Preserved(p, now, gap, f, f)
  {
    hide SendingInv, LowInv, BitGapInv, TxShifter, RxShifter, BitOf, RxStep;
    QuietLine(p.rx, Advance(now, gap));
    if p.rx.state == RxNibbleEnded {
      ElapsedAfter(now, p.rx.stamp, gap);
    }
    assert Elapsed(Advance(now, gap), Advance(now, gap)) == 0;
  }

  /** The receiver's END comes 3100 after the last rise, the transmitter's next low 6200 after that. */
  lemma StepMsgWait(p: Phy, now: Micros, gap: nat, f: Flight)
    requires LoopInv(p, now, f) && 1 <= gap <= MOST_JITTER
    requires p.port.tx.state == TxMsgWait
    ensures Preserved(p, now, gap, f, f)
  {
    hide SendingInv, LowInv, BitGapInv, TxShifter, RxShifter, BitOf, RxStep;
    QuietLine(p.rx, Advance(now, gap));
    ElapsedAfter(now, p.port.tx.stamp, gap);
    if p.rx.state == RxNibbleEnded {
      ElapsedAfter(now, p.rx.stamp, gap);
    }
  }

  lemma StepKeeps(p: Phy, now: Micros, gap: nat, f: Flight) returns (f': Flight)
    requires LoopInv(p, now, f) && 1 <= gap <= MOST_JITTER
    ensures Preserved(p, now, gap, f, f')
  {
    f' := f;
    match p.port.tx.state
    case TxDisabled | TxEnable | TxTurnaround => StepQuiet(p, now, gap, f);
    case TxIdle => f' := StepIdle(p, now, gap, f);
    case TxSending => f' := StepSending(p, now, gap, f);
    case TxSendingOne | TxSendingZero => StepLow(p, now, gap, f);
    case TxBitGap =>
      if p.rx.state == RxAwaitingRise {
        StepBitGapRise(p, now, gap, f);
      } else {
        StepBitGapWait(p, now, gap, f);
      }
    case TxMsgGap => StepMsgGap(p, now, gap, f);
    case TxMsgWait => StepMsgWait(p, now, gap, f);
  }

  // ---- Runs ----

  datatype LoopEnd = LoopEnd(phy: Phy, now: Micros, out: seq<byte>)

  /** The looped PHY called once after each gap. */
  function LoopRun(p: Phy, now: Micros, gaps: seq<nat>): LoopEnd
    decreases |gaps|
  {
    if gaps == [] then LoopEnd(p, now, []) else
    var next := Advance(now, gaps[0]);
    var first := LoopStep(p, next);
    var rest := LoopRun(first.phy, next, gaps[1..]);
    LoopEnd(rest.phy, rest.now, first.out + rest.out)
  }

  lemma {:induction false} RunKeeps(p: Phy, now: Micros, gaps: seq<nat>, f: Flight) returns (f': Flight)
    requires LoopInv(p, now, f) && Paced(gaps, MOST_JITTER)
    ensures var end := LoopRun(p, now, gaps);
            LoopInv(end.phy, end.now, f') && end.out + Pending(end.phy, f') == Pending(p, f)
    decreases |gaps|
  {
    if gaps == [] {
      f' := f;
    } else {
      var next := Advance(now, gaps[0]);
      var first := LoopStep(p, next);
      var mid := StepKeeps(p, now, gaps[0], f);
      f' := RunKeeps(first.phy, next, gaps[1..], mid);
      var rest := LoopRun(first.phy, next, gaps[1..]);
      Regroup(first.out, rest.out, Pending(rest.phy, f'));
    }
  }

  lemma {:induction false} RunPort(p: Phy, now: Micros, gaps: seq<nat>)
    ensures LoopRun(p, now, gaps).phy.port == TxRun(p.port, now, gaps)
    decreases |gaps|
  {
    if gaps != [] {
      var next := Advance(now, gaps[0]);
      RunPort(LoopStep(p, next).phy, next, gaps[1..]);
    }
  }

  /** Enabled, nothing in hand, whole messages queued, and the receiver at rest. */
  ghost predicate Ready(p: Phy) {
    && p.port.tx.state in {TxEnable, TxIdle}
    && !p.port.drive && Whole(p.port.queue) && AtRest(p.rx)
  }

  /**
   * The closed loop. At every moment the receiver has pushed a prefix of what was queued; while the
   * line is low for a symbol, everything before that symbol, ENDs included, has been pushed; and
   * when the transmitter is no longer busy everything has, each symbol once and in order.
   */
  lemma RoundTrip(p: Phy, now: Micros, gaps: seq<nat>)
    requires Ready(p) && Paced(gaps, MOST_JITTER)
    ensures var end := LoopRun(p, now, gaps);
            && end.out <= p.port.queue
            && (end.phy.port.drive ==> exists n :: end.out + [n] + end.phy.port.queue == p.port.queue)
            && (!TxBusy(end.phy.port) ==> end.out == p.port.queue)
  {
    var end := LoopRun(p, now, gaps);
    var f := RunKeeps(p, now, gaps, Flight(0, 0));
    if end.phy.port.drive {
      assert end.out + [f.nibble] + end.phy.port.queue == end.out + ([f.nibble] + end.phy.port.queue);
    }
    RunPort(p, now, gaps);
    StaysEnabled(p.port, now, gaps);
  }

  lemma {:induction false} StaysEnabled(p: TxPort, now: Micros, gaps: seq<nat>)
    requires p.tx.state != TxDisabled
    ensures TxRun(p, now, gaps).tx.state != TxDisabled
    decreases |gaps|
  {
    if gaps != [] {
      var next := Advance(now, gaps[0]);
      StaysEnabled(TxStep(p, next), next, gaps[1..]);
    }
  }

  /** And that moment comes: 12400 + 9*225 per nibble, 6200 + 3*225 per END, and the turnaround. */
  lemma DeliversInTime(p: Phy, now: Micros, gaps: seq<nat>)
    requires Ready(p) && Paced(gaps, MOST_JITTER)
    requires Duration(gaps) >= Work(p.port, now, MOST_JITTER)
    ensures LoopRun(p, now, gaps).out == p.port.queue
    ensures !TxBusy(LoopRun(p, now, gaps).phy.port)
  {
    RoundTrip(p, now, gaps);
    RunPort(p, now, gaps);
    DrainsWithin(p.port, now, gaps, MOST_JITTER);
  }
}
