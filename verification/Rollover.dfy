// The microsecond counter wraps every 71 minutes. Nothing the PHY does depends on where it is.
module Rollover {
  import opened Clock
  import opened PhySpec
  import opened TransmitterTiming

  /** States of the receiver whose behaviour depends on the time stamp. */
  predicate RxTimed(state: RxState) {
    state.RxAwaitingRise? || state.RxAwaitingFall? || state.RxNibbleEnded?
  }

  ghost predicate ShiftedRx(a: Rx, b: Rx, shift: nat) {
    && b.state == a.state && b.shifter == a.shifter
    && (RxTimed(a.state) ==> b.stamp == Advance(a.stamp, shift))
  }

  ghost predicate ShiftedTx(a: TxPort, b: TxPort, shift: nat) {
    && b.tx.state == a.tx.state && b.tx.shifter == a.tx.shifter && b.queue == a.queue && b.drive == a.drive
    && (TimedState(a.tx.state) ==> b.tx.stamp == Advance(a.tx.stamp, shift))
  }

  /** The same PHY with the clock `shift` later; a stamp that will not be read may be anything. */
  ghost predicate Shifted(p: Phy, q: Phy, shift: nat) {
    ShiftedRx(p.rx, q.rx, shift) && ShiftedTx(p.port, q.port, shift)
  }

  lemma ShiftedEdge(a: Rx, b: Rx, now: Micros, pinHi: bool, shift: nat)
    requires ShiftedRx(a, b, shift)
    ensures var s, t := RxEdge(a, now, pinHi), RxEdge(b, Advance(now, shift), pinHi);
            t.out == s.out && ShiftedRx(s.rx, t.rx, shift)
  {
    ElapsedShift(now, a.stamp, shift);
    hide Elapsed, Advance, ShiftIn, TopBit, NibbleOf;
  }

  lemma ShiftedTimeout(a: Rx, b: Rx, now: Micros, shift: nat)
    requires ShiftedRx(a, b, shift)
    ensures var s, t := RxTimeout(a, now), RxTimeout(b, Advance(now, shift));
            t.out == s.out && ShiftedRx(s.rx, t.rx, shift)
  {
    ElapsedShift(now, a.stamp, shift);
    hide Elapsed, Advance;
  }

  lemma ShiftedRxStep(a: Rx, b: Rx, now: Micros, pinHi: bool, shift: nat)
    requires ShiftedRx(a, b, shift)
    ensures var s, t := RxStep(a, now, pinHi), RxStep(b, Advance(now, shift), pinHi);
            t.out == s.out && ShiftedRx(s.rx, t.rx, shift)
  {
    hide RxEdge, RxTimeout, ShiftedRx, Advance;
    ShiftedEdge(a, b, now, pinHi, shift);
    ShiftedTimeout(RxEdge(a, now, pinHi).rx, RxEdge(b, Advance(now, shift), pinHi).rx, now, shift);
  }

  lemma ShiftedTxStep(a: TxPort, b: TxPort, now: Micros, shift: nat)
    requires ShiftedTx(a, b, shift)
    ensures ShiftedTx(TxStep(a, now), TxStep(b, Advance(now, shift)), shift)
  {
    ElapsedShift(now, a.tx.stamp, shift);
    hide Elapsed, Advance, LoadShifter, TopBit, MoreBits;
    match a.tx.state
    case TxSending =>
    case TxIdle =>
    case _ =>
  }

  // ---- Runs on an arbitrary pin ----

  datatype Tick = Tick(gap: nat, pinHi: bool)

  /** What one update shows: the symbols pushed, the level driven and both states. */
  datatype Shown = Shown(out: seq<byte>, drive: bool, queued: nat, rx: RxState, tx: TxState)

  function Trace(p: Phy, now: Micros, ticks: seq<Tick>): seq<Shown>
    decreases |ticks|
  {
    if ticks == [] then [] else
    var next := Advance(now, ticks[0].gap);
    var s := PhyStep(p, next, ticks[0].pinHi);
    [Shown(s.out, s.phy.port.drive, |s.phy.port.queue|, s.phy.rx.state, s.phy.port.tx.state)]
    + Trace(s.phy, next, ticks[1..])
  }

  /** Starting the counter anywhere else changes nothing that can be seen, in either direction. */
  lemma {:induction false} ClockOriginIsInvisible(p: Phy, q: Phy, now: Micros, ticks: seq<Tick>, shift: nat)
    requires Shifted(p, q, shift)
    ensures Trace(q, Advance(now, shift), ticks) == Trace(p, now, ticks)
    decreases |ticks|
  {
    if ticks != [] {
      var next := Advance(now, ticks[0].gap);
      assert Advance(Advance(now, shift), ticks[0].gap) == Advance(next, shift);
      ShiftedRxStep(p.rx, q.rx, next, ticks[0].pinHi, shift);
      ShiftedTxStep(p.port, q.port, next, shift);
      ClockOriginIsInvisible(PhyStep(p, next, ticks[0].pinHi).phy, PhyStep(q, Advance(next, shift), ticks[0].pinHi).phy,
                             next, ticks[1..], shift);
    }
  }

  /** In particular a PHY just initialised, whose stamps are zero whatever the counter reads. */
  lemma AnyClockFromInit(now: Micros, ticks: seq<Tick>, shift: nat, queue: seq<byte>)
    ensures var p := Phy(TX_START.(queue := queue, tx := TX_START.tx.(state := TxEnable)), RX_START);
            Trace(p, Advance(now, shift), ticks) == Trace(p, now, ticks)
  {
    var p := Phy(TX_START.(queue := queue, tx := TX_START.tx.(state := TxEnable)), RX_START);
    ClockOriginIsInvisible(p, p, now, ticks, shift);
  }
}
