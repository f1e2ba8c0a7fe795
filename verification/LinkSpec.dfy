// The link layer on values: serialising a packed message, parsing a frame, and one call of the
// receive and update functions.
module LinkSpec {
  import opened PhySpec
  import opened FifoQueue

  // ---- Serialising ----

  /** More than 16 digits would shift by 64 or more. */
  type DigitCount = n: nat | n <= 16

  /** Hex digits packed into 64 bits, and how many of them are sent. */
  datatype TxMsg = TxMsg(pack: bv64, num: DigitCount)

  /** 4 * k as a 64-bit shift amount. */
  function ShiftBy(k: nat): bv64
    requires k < 16
  {
    match k
    case 0 => 0  case 1 => 4  case 2 => 8  case 3 => 12
    case 4 => 16  case 5 => 20  case 6 => 24  case 7 => 28
    case 8 => 32  case 9 => 36  case 10 => 40  case 11 => 44
    case 12 => 48  case 13 => 52  case 14 => 56  case 15 => 60
  }

  function Digit(pack: bv64, k: nat): byte
    requires k < 16
  {
    ((pack >> ShiftBy(k)) & 0x0F) as byte
  }

  /** Most significant digit first. */
  function Digits(m: TxMsg): seq<byte> {
    seq(m.num, i requires 0 <= i < m.num => Digit(m.pack, m.num - i - 1))
  }

  function XorAll(s: seq<byte>): byte {
    if s == [] then 0 else XorAll(s[..|s| - 1]) ^ s[|s| - 1]
  }

  function CheckSum(s: seq<byte>): byte {
    (XorAll(s) + 1) % 16
  }

  /** The digits and their checksum: what a receiver parses. */
  function Frame(m: TxMsg): seq<byte> {
    Digits(m) + [CheckSum(Digits(m))]
  }

  function Serialise(m: TxMsg): seq<byte> {
    Frame(m) + [END]
  }

  // ---- Building ----

  function ToBcd(arg: byte): byte {
    ((arg / 10) << 4) | (arg % 10)
  }

  type Seconds = n: int | 0 <= n < 0x1_0000_0000

  function Join(hi: byte, lo: byte): bv16 {
    ((hi as bv16) << 8) | (lo as bv16)
  }

  /** Minutes are cut to eight bits on the way into ToBcd. */
  function MinuteByte(seconds: Seconds): byte {
    (seconds / 60 % 256) as byte
  }

  function SecondByte(seconds: Seconds): byte {
    (seconds % 60) as byte
  }

  function ToMinSec(seconds: Seconds): bv16 {
    Join(ToBcd(MinuteByte(seconds)), ToBcd(SecondByte(seconds)))
  }

  /** A 32-bit int widened to 64 bits: the sign bit is copied up. */
  function Widen(x: bv32): bv64 {
    if x & 0x8000_0000 != 0 then 0xFFFF_FFFF_0000_0000 | (x as bv64) else x as bv64
  }

  const PING_MSG := TxMsg(0x98, 2)
  const ACK_WAIT_MSG := TxMsg(0x9F00000, 7)
  const CD_POWER_ON_MSG := TxMsg(0x9A0000000000, 12)
  const UNKNOWN_STATUS_MSG := TxMsg(0x9D00000000, 10)
  const STOPPED_MSG := TxMsg(0x992000000000009, 15)

  /** The `playState` digits around packed track, index and time. */
  function PlayingPack(t: byte, i: byte, ms: bv16): bv64 {
    0x994000000000001 | ((t as bv64) << 40) | ((i as bv64) << 32) | Widen((ms as bv32) << 16)
  }

  function ChangingPack(d: byte, t: byte): bv64 {
    0x9B900000001 | Widen((d as bv32) << 28) | Widen((t as bv32) << 20)
  }

  function DiskInfoPack(d: byte, n: byte, ms: bv16): bv64 {
    0x9C001007502F | ((d as bv64) << 36) | Widen((n as bv32) << 20) | Widen((ms as bv32) << 4)
  }

  function PlayingMsg(track: byte, index: byte, seconds: Seconds): TxMsg {
    TxMsg(PlayingPack(ToBcd(track + 1), ToBcd(index), ToMinSec(seconds)), 15)
  }

  function ChangingMsg(disk: byte, track: byte): TxMsg {
    TxMsg(ChangingPack(disk, ToBcd(track + 1)), 11)
  }

  function DiskInfoMsg(disk: byte, numTracks: byte, seconds: Seconds): TxMsg {
    TxMsg(DiskInfoPack(disk, ToBcd(numTracks), ToMinSec(seconds)), 12)
  }

  // ---- Parsing ----

  const ERR_SIGNAL := 1
  const ERR_LENGTH := 2
  const ERR_CHECKSUM := 3
  const ERR_DIRECTION := 4
  const ERR_UNKNOWN_TYPE := 5

  const NIBBLE_ARRAY_SIZE := 32

  datatype Body =
    | NoBody
    | Ping
    | SetPlayState(resume: bool, stop: bool, scanStop: bool, fastReverse: bool, fastForward: bool,
                   pause: bool, play: bool)
    | HeadPowerOn
    | SetDiskTrack(disk: byte, track: byte, pause: bool, play: bool, random: bool)
    | SetMode(repeatAll: bool, repeatOne: bool, introScan: bool, random: bool)
    | Pong
    | AckWait
    | CdPowerOn
    | Changing(disk: byte, track: byte, eject: bool, noshuttle: bool, busy: bool,
               repeatAll: bool, repeatOne: bool, random: bool, done: bool)
    | PlayState(track: byte, index: byte, minute: byte, second: byte, repeatAll: bool, repeatOne: bool,
                introScan: bool, random: bool, stopped: bool, paused: bool, play: bool)
    | DiskInfo(disk: byte, tracks: byte, minutes: byte, seconds: byte, flags: byte)
    | UnknownStatus

  /** Fields the source leaves unset after an error are `false` and `NoBody` here. */
  datatype RxMsg = RxMsg(errId: nat, raw: seq<byte>, h2c: bool, body: Body)

  function Rejected(errId: nat, raw: seq<byte>): RxMsg {
    RxMsg(errId, raw, false, NoBody)
  }

  /** The letters T, L and X, which the parser takes for bad signalling. */
  predicate IsSignal(b: byte) {
    b == 0x54 || b == 0x4C || b == 0x58
  }

  function NibblePair(hi: byte, lo: byte): byte {
    hi * 10 + lo
  }

  function ParseSetPlayState(s: seq<byte>): Body
    requires |s| >= 2
  {
    SetPlayState(s[0] & 8 != 0, s[0] & 4 != 0, s[0] & 1 != 0,
                 s[1] & 8 != 0, s[1] & 4 != 0, s[1] & 2 != 0, s[1] & 1 != 0)
  }

  function ParseSetDiskTrack(s: seq<byte>): Body
    requires |s| >= 5
  {
    SetDiskTrack(s[0], NibblePair(s[1], s[2]), s[3] & 2 != 0, s[3] & 1 != 0, s[4] & 4 != 0)
  }

  function ParseSetMode(s: seq<byte>): Body
    requires |s| >= 2
  {
    SetMode(s[0] & 8 != 0, s[0] & 4 != 0, s[1] & 16 != 0, s[1] & 2 != 0)
  }

  function ParseChanging(s: seq<byte>): Body
    requires |s| >= 9
  {
    Changing(s[1], NibblePair(s[2], s[3]), s[4] & 8 != 0, s[4] & 2 != 0, s[4] & 1 != 0,
             s[5] & 8 != 0, s[5] & 4 != 0, s[6] & 2 != 0, s[8] & 1 != 0)
  }

  function ParsePlayState(s: seq<byte>): Body
    requires |s| >= 13
  {
    PlayState(NibblePair(s[1], s[2]), NibblePair(s[3], s[4]), NibblePair(s[5], s[6]), NibblePair(s[7], s[8]),
              s[9] & 8 != 0, s[9] & 4 != 0, s[10] & 8 != 0, s[10] & 2 != 0,
              s[12] & 8 != 0, s[12] & 2 != 0, s[12] & 1 != 0)
  }

  function ParseDiskInfo(s: seq<byte>): Body
    requires |s| >= 10
  {
    DiskInfo(s[0], NibblePair(s[3], s[4]), NibblePair(s[5], s[6]), NibblePair(s[7], s[8]), s[9])
  }

  function HeadToCd(raw: seq<byte>): RxMsg
    requires |raw| >= 3
  {
    if raw[1] == 0x8 then
      if |raw| == 3 then RxMsg(0, raw, true, Ping) else Rejected(ERR_LENGTH, raw)
    else if raw[1] == 0x1 && raw[2] == 0x1 then
      if |raw| == 6 then RxMsg(0, raw, true, ParseSetPlayState(raw[3..])) else Rejected(ERR_LENGTH, raw)
    else if raw[1] == 0x1 && raw[2] == 0x3 then
      if |raw| == 9 then RxMsg(0, raw, true, ParseSetDiskTrack(raw[3..])) else Rejected(ERR_LENGTH, raw)
    else if raw[1] == 0x1 && raw[2] == 0x4 then
      if |raw| == 9 then RxMsg(0, raw, true, ParseSetMode(raw[3..])) else Rejected(ERR_LENGTH, raw)
    else if raw[1] == 0x9 then
      if |raw| == 3 then RxMsg(0, raw, true, HeadPowerOn) else Rejected(ERR_LENGTH, raw)
    else Rejected(ERR_UNKNOWN_TYPE, raw)
  }

  function CdToHead(raw: seq<byte>): RxMsg
    requires |raw| >= 3
  {
    match raw[1]
    case 0x8 => if |raw| == 3 then RxMsg(0, raw, false, Pong) else Rejected(ERR_LENGTH, raw)
    case 0x9 => if |raw| == 16 then RxMsg(0, raw, false, ParsePlayState(raw[2..])) else Rejected(ERR_LENGTH, raw)
    case 0xA => if |raw| == 13 then RxMsg(0, raw, false, CdPowerOn) else Rejected(ERR_LENGTH, raw)
    case 0xB => if |raw| == 12 then RxMsg(0, raw, false, ParseChanging(raw[2..])) else Rejected(ERR_LENGTH, raw)
    case 0xC => if |raw| == 13 then RxMsg(0, raw, false, ParseDiskInfo(raw[2..])) else Rejected(ERR_LENGTH, raw)
    case 0xD => if |raw| == 11 then RxMsg(0, raw, false, UnknownStatus) else Rejected(ERR_LENGTH, raw)
    case 0xF => if |raw| == 8 then RxMsg(0, raw, false, AckWait) else Rejected(ERR_LENGTH, raw)
    case _ => Rejected(ERR_UNKNOWN_TYPE, raw)
  }

  predicate CheckSumOk(raw: seq<byte>)
    requires raw != []
  {
    raw[|raw| - 1] == CheckSum(raw[..|raw| - 1])
  }

  function Cut(s: seq<byte>): seq<byte> {
    if |s| > NIBBLE_ARRAY_SIZE then s[..NIBBLE_ARRAY_SIZE] else s
  }

  /** Errors found while copying: a signal letter outranks excess length, shortness outranks both. */
  function CopyError(s: seq<byte>): nat {
    if |s| <= 2 then ERR_LENGTH
    else if exists b :: b in Cut(s) && IsSignal(b) then ERR_SIGNAL
    else if |s| > NIBBLE_ARRAY_SIZE then ERR_LENGTH
    else 0
  }

  function Parse(s: seq<byte>): RxMsg {
    if CopyError(s) != 0 then Rejected(CopyError(s), Cut(s))
    else if !CheckSumOk(s) then Rejected(ERR_CHECKSUM, s)
    else if s[0] == 1 then HeadToCd(s)
    else if s[0] == 9 then CdToHead(s)
    else Rejected(ERR_DIRECTION, s)
  }

  // ---- The link state ----

  /** Queues of parsed and of pending messages, the frame being received, and the direction. */
  datatype Link = Link(rxMsgs: seq<RxMsg>, txMsgs: seq<TxMsg>, frame: seq<byte>, rxMode: bool)

  const RX_MSG_MAX := 4
  const TX_MSG_MAX := 16

  const LINK_START := Link([], [], [], true)

  /** A symbol from the PHY; END closes the frame. The source has room for 31 symbols and END. */
  function LinkRx(l: Link, symbol: byte): Link
    requires |l.frame| < NIBBLE_ARRAY_SIZE
  {
    if symbol == END
    then l.(rxMsgs := Pushed(l.rxMsgs, [Parse(l.frame)], RX_MSG_MAX), frame := [])
    else l.(frame := l.frame + [symbol])
  }

  /** The link after an update, what it pushed towards the PHY, and whether the direction changed. */
  datatype LinkResult = LinkResult(link: Link, out: seq<byte>, turned: bool)

  function LinkStep(l: Link, rxBusy: bool, txBusy: bool): LinkResult {
    if l.rxMode then
      if !rxBusy && l.txMsgs != [] then LinkResult(l.(rxMode := false), [], true) else LinkResult(l, [], false)
    else if !txBusy && l.txMsgs == [] then LinkResult(l.(rxMode := true), [], true)
    else if l.txMsgs != [] then LinkResult(l.(txMsgs := l.txMsgs[1..]), Serialise(l.txMsgs[0]), false)
    else LinkResult(l, [], false)
  }
}
