// The two halves of the PHY as functions on values: one call of the receive update, one call of
// the transmit update. The classes in PhyDevice.dfy are proved to compute exactly these.
module PhySpec {
  import opened Clock

  type byte = bv8

  const LOW_TOO_LONG: byte := 16
  const TIMEOUT: byte := 17
  const END: byte := 18

  const BIT_TIME := 3100
  const ZERO_LOW_TIME := 675
  const ONE_LOW_TIME := 1890
  const ONE_THRESHOLD := (ZERO_LOW_TIME + ONE_LOW_TIME) / 2
  const LOW_TOO_LONG_TIME := (BIT_TIME + ONE_LOW_TIME) / 2
  const NIBBLE_END_GAP_TIME := BIT_TIME
  const INTERBIT_TIMEOUT_TIME := BIT_TIME
  const TURNAROUND_TIME := BIT_TIME
  const MSG2MSG_TIME := 2 * BIT_TIME

  const RX_SHIFTER_INIT: byte := 0x08
  const TX_SHIFTER_INIT: byte := 0x01

  // ---- Receiver ----

  datatype RxState = RxDisabled | RxIdle | RxAwaitingRise | RxAwaitingFall | RxNibbleEnded | RxFailedLow

  datatype Rx = Rx(state: RxState, shifter: byte, stamp: Micros)

  /** A receiver state and the symbols one call pushed. */
  datatype RxResult = RxResult(rx: Rx, out: seq<byte>)

  const RX_START := Rx(RxIdle, RX_SHIFTER_INIT, 0)

  function ShiftIn(shifter: byte, low: Micros): byte {
    if low > ONE_THRESHOLD then (shifter << 1) | 0x01 else shifter << 1
  }

  /** In the receiver, that the marker has reached the top; in the transmitter, the bit to send. */
  predicate TopBit(shifter: byte) {
    shifter & 0x80 != 0
  }

  function NibbleOf(shifter: byte): byte {
    shifter & 0x0F
  }

  function RxEdge(rx: Rx, now: Micros, pinHi: bool): RxResult {
    match rx.state
    case RxDisabled => RxResult(rx, [])
    case RxIdle | RxNibbleEnded | RxAwaitingFall =>
      if pinHi then RxResult(rx, []) else RxResult(rx.(state := RxAwaitingRise, stamp := now), [])
    case RxAwaitingRise =>
      if !pinHi then RxResult(rx, []) else
      var shifter := ShiftIn(rx.shifter, Elapsed(now, rx.stamp));
      if TopBit(shifter)
      then RxResult(Rx(RxNibbleEnded, RX_SHIFTER_INIT, now), [NibbleOf(shifter)])
      else RxResult(Rx(RxAwaitingFall, shifter, now), [])
    case RxFailedLow =>
      if pinHi then RxResult(rx.(state := RxIdle), []) else RxResult(rx, [])
  }

  function RxTimeout(rx: Rx, now: Micros): RxResult {
    match rx.state
    case RxDisabled | RxIdle | RxFailedLow => RxResult(rx, [])
    case RxAwaitingFall =>
      if Elapsed(now, rx.stamp) > INTERBIT_TIMEOUT_TIME
      then RxResult(Rx(RxIdle, RX_SHIFTER_INIT, rx.stamp), [NibbleOf(rx.shifter), TIMEOUT, END])
      else RxResult(rx, [])
    case RxAwaitingRise =>
      if Elapsed(now, rx.stamp) > LOW_TOO_LONG_TIME
      then RxResult(Rx(RxFailedLow, RX_SHIFTER_INIT, rx.stamp), [NibbleOf(rx.shifter), LOW_TOO_LONG, END])
      else RxResult(rx, [])
    case RxNibbleEnded =>
      if Elapsed(now, rx.stamp) > NIBBLE_END_GAP_TIME
      then RxResult(Rx(RxIdle, RX_SHIFTER_INIT, rx.stamp), [END])
      else RxResult(rx, [])
  }

  /** One receive update: edges first, timeouts second, in the same call. */
  function RxStep(rx: Rx, now: Micros, pinHi: bool): RxResult {
    var edge := RxEdge(rx, now, pinHi);
    var timeout := RxTimeout(edge.rx, now);
    RxResult(timeout.rx, edge.out + timeout.out)
  }

  /** The receiver is at rest between messages. */
  predicate AtRest(rx: Rx) {
    rx.state == RxIdle && rx.shifter == RX_SHIFTER_INIT
  }

  predicate RxBusy(rx: Rx) {
    rx.state != RxDisabled && rx.state != RxIdle
  }

  // ---- Transmitter ----

  datatype TxState =
    | TxDisabled | TxEnable | TxTurnaround | TxIdle | TxSending | TxSendingOne | TxSendingZero
    | TxBitGap | TxMsgGap | TxMsgWait

  datatype Tx = Tx(state: TxState, shifter: byte, stamp: Micros)

  /** The transmitter with the queue it drains and the level it drives. */
  datatype TxPort = TxPort(tx: Tx, queue: seq<byte>, drive: bool)

  const TX_START := TxPort(Tx(TxDisabled, TX_SHIFTER_INIT, 0), [], false)

  function LoadShifter(nibble: byte): byte {
    TX_SHIFTER_INIT | ((nibble & 0x0F) << 4)
  }

  /** The marker has not left the lower half yet. */
  predicate MoreBits(shifter: byte) {
    shifter & 0x0F != 0
  }

  /** One transmit update. */
  function TxStep(p: TxPort, now: Micros): TxPort {
    var tx := p.tx;
    var age := Elapsed(now, tx.stamp);
    match tx.state
    case TxDisabled => p
    case TxEnable => p.(tx := tx.(state := TxTurnaround, stamp := now))
    case TxTurnaround => if age > TURNAROUND_TIME then p.(tx := tx.(state := TxIdle)) else p
    case TxIdle =>
      if p.queue == [] then p.(drive := false)
      else if p.queue[0] == END then TxPort(tx.(state := TxMsgGap), p.queue[1..], false)
      else TxPort(tx.(state := TxSending, shifter := LoadShifter(p.queue[0])), p.queue[1..], false)
    case TxSending =>
      TxPort(Tx(if TopBit(tx.shifter) then TxSendingOne else TxSendingZero, tx.shifter << 1, now), p.queue, true)
    case TxSendingOne =>
      if age > ONE_LOW_TIME then TxPort(tx.(state := TxBitGap), p.queue, false) else p.(drive := true)
    case TxSendingZero =>
      if age > ZERO_LOW_TIME then TxPort(tx.(state := TxBitGap), p.queue, false) else p.(drive := true)
    case TxBitGap =>
      if age > BIT_TIME
      then TxPort(tx.(state := if MoreBits(tx.shifter) then TxSending else TxIdle), p.queue, false)
      else p.(drive := false)
    case TxMsgGap => p.(tx := tx.(state := TxMsgWait, stamp := now))
    case TxMsgWait => if age > MSG2MSG_TIME then p.(tx := tx.(state := TxIdle)) else p
  }

  predicate TxBusy(p: TxPort) {
    p.tx.state != TxDisabled && (p.tx.state != TxIdle || p.queue != [])
  }

  // ---- Both halves ----

  datatype Phy = Phy(port: TxPort, rx: Rx)

  datatype PhyResult = PhyResult(phy: Phy, out: seq<byte>)

  /** One PHY update: the receiver runs before the transmitter. */
  function PhyStep(p: Phy, now: Micros, pinHi: bool): PhyResult {
    var r := RxStep(p.rx, now, pinHi);
    PhyResult(Phy(TxStep(p.port, now), r.rx), r.out)
  }
}
