// How long the transmitter takes: exact lower and upper bounds for every schedule, and when it
// drives the line.
module TransmitterTiming {
  import opened Clock
  import opened PhySpec

  /** The transmitter called once after each gap. */
  function TxRun(p: TxPort, now: Micros, gaps: seq<nat>): TxPort
    decreases |gaps|
  {
    if gaps == [] then p else
    var next := Advance(now, gaps[0]);
    TxRun(TxStep(p, next), next, gaps[1..])
  }

  function AfterAll(now: Micros, gaps: seq<nat>): Micros
    decreases |gaps|
  {
    if gaps == [] then now else AfterAll(Advance(now, gaps[0]), gaps[1..])
  }

  // ---- The line ----

  /** The line is driven exactly while a bit's low is being sent. */
  predicate DriveOk(p: TxPort) {
    p.drive <==> p.tx.state in {TxSendingOne, TxSendingZero}
  }

  lemma {:induction false} DrivenOnlyInLows(p: TxPort, now: Micros, gaps: seq<nat>)
    requires DriveOk(p)
    ensures DriveOk(TxRun(p, now, gaps))
    decreases |gaps|
  {
    if gaps != [] {
      var next := Advance(now, gaps[0]);
      DrivenOnlyInLows(TxStep(p, next), next, gaps[1..]);
    }
  }

  /** Only the link enables and disables. */
  lemma DisabledStays(p: TxPort, at: Micros)
    ensures p.tx.state == TxDisabled <==> TxStep(p, at).tx.state == TxDisabled
    ensures p.tx.state == TxDisabled ==> TxStep(p, at) == p
  {
  }

  /** How long a bit's low lasts, in microseconds. */
  function LowOf(state: TxState): nat {
    if state.TxSendingOne? then 1890 else 675
  }

  lemma LowStep(p: TxPort, now: Micros, gap: nat)
    requires p.tx.state in {TxSendingOne, TxSendingZero}
    requires Elapsed(now, p.tx.stamp) + gap <= 3100
    ensures Elapsed(Advance(now, gap), p.tx.stamp) == Elapsed(now, p.tx.stamp) + gap
    ensures TxStep(p, Advance(now, gap)) ==
            if Elapsed(now, p.tx.stamp) + gap <= LowOf(p.tx.state) then p.(drive := true)
            else TxPort(p.tx.(state := TxBitGap), p.queue, false)
  {
    ElapsedAfter(now, p.tx.stamp, gap);
  }

  lemma {:induction false} GapReleased(p: TxPort, now: Micros, gaps: seq<nat>)
    requires p.tx.state == TxBitGap && !p.drive && Elapsed(now, p.tx.stamp) + Duration(gaps) <= 3100
    ensures TxRun(p, now, gaps) == p
    decreases |gaps|
  {
    if gaps != [] {
      ElapsedAfter(now, p.tx.stamp, gaps[0]);
      GapReleased(p, Advance(now, gaps[0]), gaps[1..]);
    }
  }

  /**
   * For every schedule within a bit's 3100 microseconds the line is driven as long as the bit's low
   * lasts and released after it: 1890 for a one, 675 for a zero. No symbol is taken meanwhile.
   */
  lemma {:induction false} LowLasts(p: TxPort, now: Micros, gaps: seq<nat>)
    requires p.tx.state in {TxSendingOne, TxSendingZero} && p.drive && Elapsed(now, p.tx.stamp) <= LowOf(p.tx.state)
    requires Elapsed(now, p.tx.stamp) + Duration(gaps) <= 3100
    ensures TxRun(p, now, gaps) ==
            if Elapsed(now, p.tx.stamp) + Duration(gaps) <= LowOf(p.tx.state) then p
            else TxPort(p.tx.(state := TxBitGap), p.queue, false)
    decreases |gaps|
  {
    if gaps != [] {
      var next := Advance(now, gaps[0]);
      LowStep(p, now, gaps[0]);
      hide TxStep, Elapsed;
      if Elapsed(next, p.tx.stamp) <= LowOf(p.tx.state) {
        LowLasts(p, next, gaps[1..]);
      } else {
        GapReleased(TxPort(p.tx.(state := TxBitGap), p.queue, false), next, gaps[1..]);
      }
    }
  }

  // ---- Work left ----

  /** Bits of the current nibble still to be started: four less the zeroes shifted in below the marker. */
  function BitsLeft(shifter: byte): nat {
    if shifter & 1 != 0 then 4
    else if shifter & 2 != 0 then 3
    else if shifter & 4 != 0 then 2
    else if shifter & 8 != 0 then 1
    else 0
  }

  function BitsCost(bits: nat, gap: nat): nat {
    if bits == 0 then 0 else 3100 + 2 * gap + BitsCost(bits - 1, gap)
  }

  /** From queueing to readiness for the next symbol, when calls are `gap` apart. */
  function Cost(symbol: byte, gap: nat): nat {
    if symbol == END then 6200 + 3 * gap else 12400 + 9 * gap
  }

  function QueueCost(q: seq<byte>, gap: nat): nat {
    if q == [] then 0 else Cost(q[0], gap) + QueueCost(q[1..], gap)
  }

  /** What the symbol in hand still costs. */
  function WorkLeft(tx: Tx, now: Micros, gap: nat): int {
    var age := Elapsed(now, tx.stamp);
    match tx.state
    case TxDisabled | TxIdle => 0
    case TxEnable => 3100 + 2 * gap
    case TxTurnaround => 3100 + gap - age
    case TxSending => BitsCost(BitsLeft(tx.shifter), gap)
    case TxSendingOne | TxSendingZero | TxBitGap =>
      3100 + gap - age + BitsCost(BitsLeft(tx.shifter), gap)
    case TxMsgGap => 6200 + 2 * gap
    case TxMsgWait => 6200 + gap - age
  }

  /** Longer gaps could overshoot the bit period inside the low of a one. */
  const LONGEST_GAP := 1210

  /** Every running timer is still within its limit, and a nibble in hand has bits left. */
  predicate TimersOk(tx: Tx, now: Micros) {
    var age := Elapsed(now, tx.stamp);
    match tx.state
    case TxTurnaround | TxBitGap => age <= 3100
    case TxSending => HasBits(tx)
    case TxSendingOne => age <= 1890
    case TxSendingZero => age <= 675
    case TxMsgWait => age <= 6200
    case _ => true
  }

  /** Shifting out a bit leaves one bit fewer. */
  lemma ShiftedBits(shifter: byte, gap: nat)
    ensures (BitsLeft(shifter) > 0) == (shifter & 0x0F != 0)
    ensures shifter & 0x0F != 0 ==> BitsLeft(shifter << 1) + 1 == BitsLeft(shifter)
    ensures shifter & 0x0F == 0 ==> BitsLeft(shifter << 1) == 0
    ensures shifter & 0x0F != 0 ==>
              BitsCost(BitsLeft(shifter), gap) == 3100 + 2 * gap + BitsCost(BitsLeft(shifter << 1), gap)
  {
  }

  lemma LoadedBits(nibble: byte, gap: nat)
    ensures BitsLeft(LoadShifter(nibble)) == 4 && LoadShifter(nibble) & 0x0F != 0
    ensures BitsCost(BitsLeft(LoadShifter(nibble)), gap) == 12400 + 8 * gap
  {
    assert LoadShifter(nibble) & 1 != 0;
    assert BitsCost(1, gap) == 3100 + 2 * gap;
    assert BitsCost(2, gap) == 6200 + 4 * gap;
  }

  /** States whose behaviour depends on the time stamp. */
  predicate TimedState(state: TxState) {
    state.TxTurnaround? || state.TxSendingOne? || state.TxSendingZero? || state.TxBitGap? || state.TxMsgWait?
  }

  /** A nibble in hand has bits left. */
  predicate HasBits(tx: Tx) {
    tx.state == TxSending ==> tx.shifter & 0x0F != 0
  }

  lemma KeepsBits(p: TxPort, at: Micros)
    requires HasBits(p.tx)
    ensures HasBits(TxStep(p, at).tx)
  {
    if p.tx.state == TxIdle && p.queue != [] {
      LoadedBits(p.queue[0], 0);
    }
  }

  lemma StepTimers(p: TxPort, now: Micros, gap: nat, most: nat)
    requires TimersOk(p.tx, now) && gap <= most <= LONGEST_GAP
    ensures TimersOk(TxStep(p, Advance(now, gap)).tx, Advance(now, gap))
  {
    KeepsBits(p, Advance(now, gap));
    if TimedState(p.tx.state) {
      ElapsedAfter(now, p.tx.stamp, gap);
    }
  }

  /** Work left in hand and in the queue. */
  function Work(p: TxPort, now: Micros, gap: nat): int {
    WorkLeft(p.tx, now, gap) + QueueCost(p.queue, gap)
  }

  /** Outside the timed states every call takes off exactly the nominal gap. */
  lemma SendingDrop(p: TxPort, now: Micros, next: Micros, gap: nat)
    requires p.tx.state == TxSending && p.tx.shifter & 0x0F != 0
    ensures Work(TxStep(p, next), next, gap) == Work(p, now, gap) - gap
  {
    ShiftedBits(p.tx.shifter, gap);
  }

  lemma PopDrop(p: TxPort, now: Micros, next: Micros, gap: nat)
    requires p.tx.state == TxIdle && p.queue != []
    ensures Work(TxStep(p, next), next, gap) == Work(p, now, gap) - gap
  {
    LoadedBits(p.queue[0], gap);
  }

  lemma OtherDrop(p: TxPort, now: Micros, next: Micros, gap: nat)
    requires p.tx.state in {TxEnable, TxMsgGap}
    ensures Work(TxStep(p, next), next, gap) == Work(p, now, gap) - gap
  {
  }

  /** In a timed state the clock takes off what has passed, and leaving it what was left of the limit. */
  lemma TimedDrop(p: TxPort, now: Micros, next: Micros, gap: nat)
    requires TimedState(p.tx.state)
    ensures var age, age' := Elapsed(now, p.tx.stamp), Elapsed(next, p.tx.stamp);
            var limit := if p.tx.state == TxMsgWait then MSG2MSG_TIME else BIT_TIME;
            Work(TxStep(p, next), next, gap) == Work(p, now, gap) -
            if p.tx.state in {TxSendingOne, TxSendingZero} || age' <= limit then age' - age else limit + gap - age
  {
    if p.tx.state == TxBitGap {
      ShiftedBits(p.tx.shifter, gap);
    }
  }

  /** While busy, each call takes its gap off the work left, or more. */
  lemma StepUpper(p: TxPort, now: Micros, gap: nat, most: nat)
    requires TimersOk(p.tx, now) && gap <= most <= LONGEST_GAP
    requires TxBusy(p)
    ensures Work(TxStep(p, Advance(now, gap)), Advance(now, gap), most) + gap <= Work(p, now, most)
  {
    var next := Advance(now, gap);
    if TimedState(p.tx.state) {
      ElapsedAfter(now, p.tx.stamp, gap);
      TimedDrop(p, now, next, most);
    } else if p.tx.state == TxSending {
      SendingDrop(p, now, next, most);
    } else if p.tx.state == TxIdle {
      PopDrop(p, now, next, most);
    } else {
      OtherDrop(p, now, next, most);
    }
  }

  lemma BusyHasWork(p: TxPort, now: Micros, most: nat)
    requires TimersOk(p.tx, now) && TxBusy(p) && 1 <= most
    ensures 0 < Work(p, now, most)
  {
    ShiftedBits(p.tx.shifter, most);
  }

  /**
   * Whatever is queued is sent. As long as the transmitter is busy the time spent and the work
   * left stay within the work there was: each symbol takes at most its cost, and the run drains.
   */
  lemma {:induction false} DrainsWithin(p: TxPort, now: Micros, gaps: seq<nat>, most: nat)
    requires TimersOk(p.tx, now) && Paced(gaps, most) && 1 <= most <= LONGEST_GAP
    requires p.tx.state != TxDisabled
    ensures var end := TxRun(p, now, gaps);
            && end.tx.state != TxDisabled
            && (TxBusy(end) ==>
                  Duration(gaps) < Duration(gaps) + Work(end, AfterAll(now, gaps), most) <= Work(p, now, most))
    decreases |gaps|
  {
    if gaps == [] {
      if TxBusy(p) {
        BusyHasWork(p, now, most);
      }
    } else {
      var next := Advance(now, gaps[0]);
      StepTimers(p, now, gaps[0], most);
      DrainsWithin(TxStep(p, next), next, gaps[1..], most);
      if TxBusy(p) {
        StepUpper(p, now, gaps[0], most);
      }
    }
  }

  // ---- The least it can take ----

  /** No call takes more than its gap off the work left, counted for gaps of one. */
  lemma StepLower(p: TxPort, now: Micros, gap: nat)
    requires HasBits(p.tx) && 1 <= gap
    ensures Work(p, now, 1) <= gap + Work(TxStep(p, Advance(now, gap)), Advance(now, gap), 1)
  {
    var next := Advance(now, gap);
    if TimedState(p.tx.state) {
      ElapsedAtMost(now, p.tx.stamp, gap);
      TimedDrop(p, now, next, 1);
    } else if p.tx.state == TxSending {
      SendingDrop(p, now, next, 1);
    } else if p.tx.state == TxIdle && p.queue != [] {
      PopDrop(p, now, next, 1);
    } else if p.tx.state in {TxEnable, TxMsgGap} {
      OtherDrop(p, now, next, 1);
    }
  }

  /** Over any run: 12409 per nibble and 6203 per END taken off the queue, less what the last still costs. */
  lemma {:induction false} TakesAtLeast(p: TxPort, now: Micros, gaps: seq<nat>)
    requires HasBits(p.tx)
    requires forall i | 0 <= i < |gaps| :: 1 <= gaps[i]
    ensures Work(p, now, 1) <= Duration(gaps) + Work(TxRun(p, now, gaps), AfterAll(now, gaps), 1)
    decreases |gaps|
  {
    if gaps != [] {
      var next := Advance(now, gaps[0]);
      StepLower(p, now, gaps[0]);
      KeepsBits(p, next);
      TakesAtLeast(TxStep(p, next), next, gaps[1..]);
    }
  }

  // ---- Turnaround ----

  lemma {:induction false} TurnaroundHolds(p: TxPort, now: Micros, gaps: seq<nat>)
    requires p.tx.state == TxTurnaround
    requires Elapsed(now, p.tx.stamp) + Duration(gaps) <= TURNAROUND_TIME
    ensures TxRun(p, now, gaps) == p
    decreases |gaps|
  {
    if gaps != [] {
      ElapsedAfter(now, p.tx.stamp, gaps[0]);
      TurnaroundHolds(p, Advance(now, gaps[0]), gaps[1..]);
    }
  }

  /** After the call that handles the enable, the line stays released for more than 3100. */
  lemma FirstLowAfterTurnaround(p: TxPort, now: Micros, gaps: seq<nat>)
    requires p.tx.state == TxEnable && !p.drive && gaps != []
    requires TxRun(p, now, gaps).drive || TxRun(p, now, gaps).queue != p.queue
    ensures Duration(gaps) - gaps[0] > 3100
  {
    if Duration(gaps[1..]) <= TURNAROUND_TIME {
      var next := Advance(now, gaps[0]);
      TurnaroundHolds(TxStep(p, next), next, gaps[1..]);
    }
  }

  // ---- Lows per nibble ----

  /** How many lows the run starts. */
  function LowsStarted(p: TxPort, now: Micros, gaps: seq<nat>): nat
    decreases |gaps|
  {
    if gaps == [] then 0 else
    var next := Advance(now, gaps[0]);
    (if p.tx.state == TxSending then 1 else 0) + LowsStarted(TxStep(p, next), next, gaps[1..])
  }

  function LowsDue(tx: Tx): nat {
    if tx.state in {TxSending, TxSendingOne, TxSendingZero, TxBitGap} then BitsLeft(tx.shifter) else 0
  }

  function QueueLows(q: seq<byte>): nat {
    if q == [] then 0 else (if q[0] == END then 0 else 4) + QueueLows(q[1..])
  }

  lemma StepLows(p: TxPort, at: Micros)
    requires HasBits(p.tx)
    ensures var p' := TxStep(p, at);
            (if p.tx.state == TxSending then 1 else 0) + LowsDue(p'.tx) + QueueLows(p'.queue)
            == LowsDue(p.tx) + QueueLows(p.queue)
  {
    if p.tx.state == TxIdle && p.queue != [] {
      LoadedBits(p.queue[0], 1);
    } else if p.tx.state in {TxSending, TxBitGap} {
      ShiftedBits(p.tx.shifter, 1);
    }
  }

  /** Exactly four lows are started for each nibble taken from the queue, none for an END. */
  lemma {:induction false} FourLowsPerNibble(p: TxPort, now: Micros, gaps: seq<nat>)
    requires HasBits(p.tx)
    ensures var end := TxRun(p, now, gaps);
            LowsStarted(p, now, gaps) + LowsDue(end.tx) + QueueLows(end.queue) == LowsDue(p.tx) + QueueLows(p.queue)
    decreases |gaps|
  {
    if gaps != [] {
      var next := Advance(now, gaps[0]);
      StepLows(p, next);
      KeepsBits(p, next);
      FourLowsPerNibble(TxStep(p, next), next, gaps[1..]);
    }
  }
}
