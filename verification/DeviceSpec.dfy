// One turn of the main loop as a function: PHY update, one received symbol to the link, link
// update with the direction change it asks for, and the application's turn. What the rest of the
// application sends in the turn is an input.
module DeviceSpec {
  import opened Clock
  import opened PhySpec
  import opened FifoQueue
  import opened LinkSpec
  import opened AppSpec

  const BYTE_MAX := 256

  datatype Device = Device(phy: Phy, rxFifo: seq<byte>, link: Link, app: App)

  const DEVICE_START := Device(Phy(TX_START, RX_START), [], LINK_START, APP_START)

  function PhyTurn(d: Device, now: Micros, pinHi: bool): Device {
    var r := PhyStep(d.phy, now, pinHi);
    d.(phy := r.phy, rxFifo := Pushed(d.rxFifo, r.out, BYTE_MAX))
  }

  predicate FrameRoom(l: Link) {
    |l.frame| < NIBBLE_ARRAY_SIZE
  }

  function PopTurn(d: Device): Device
    requires FrameRoom(d.link)
  {
    if d.rxFifo == [] then d else d.(rxFifo := d.rxFifo[1..], link := LinkRx(d.link, d.rxFifo[0]))
  }

  function LinkTurn(d: Device): Device {
    var r := LinkStep(d.link, RxBusy(d.phy.rx), TxBusy(d.phy.port));
    var state := if !r.turned then d.phy.port.tx.state else if r.link.rxMode then TxDisabled else TxEnable;
    var port := d.phy.port.(tx := d.phy.port.tx.(state := state), queue := Pushed(d.phy.port.queue, r.out, BYTE_MAX));
    d.(phy := d.phy.(port := port), link := r.link)
  }

  /** A parsed message, if any, is decoded; then a command, if any, is carried out. */
  function DecodeTurn(d: Device): Device
    requires AppOk(d.app)
  {
    if d.link.rxMsgs == [] then d
    else d.(link := d.link.(rxMsgs := d.link.rxMsgs[1..]), app := Decode(d.app, d.link.rxMsgs[0]))
  }

  /** `sends` is what the application's state machine pushes besides the replies. */
  function CommandTurn(d: Device, sends: seq<TxMsg>): Device {
    var replies := if d.app.cmds == [] then [] else Replies(d.app.cmds[0]);
    var app := if d.app.cmds == [] then d.app else d.app.(cmds := d.app.cmds[1..]);
    d.(app := app, link := d.link.(txMsgs := Pushed(d.link.txMsgs, replies + sends, TX_MSG_MAX)))
  }

  function AppTurn(d: Device, sends: seq<TxMsg>): Device
    requires AppOk(d.app)
  {
    CommandTurn(DecodeTurn(d), sends)
  }

  /** Everything up to the application's turn. */
  function BusTurn(d: Device, now: Micros, pinHi: bool): Device
    requires FrameRoom(d.link)
  {
    LinkTurn(PopTurn(PhyTurn(d, now, pinHi)))
  }

  function FirstOf<T>(s: seq<T>): seq<T> {
    if s == [] then [] else [s[0]]
  }

  /** The message the application takes in the turn, if any. */
  function HeardIn(d: Device, now: Micros, pinHi: bool): seq<RxMsg>
    requires FrameRoom(d.link)
  {
    FirstOf(BusTurn(d, now, pinHi).link.rxMsgs)
  }

  /** The command it carries out, if any. */
  function CarriedOutIn(d: Device, now: Micros, pinHi: bool): seq<Cmd>
    requires FrameRoom(d.link) && AppOk(d.app)
  {
    FirstOf(DecodeTurn(BusTurn(d, now, pinHi)).app.cmds)
  }

  function Turn(d: Device, now: Micros, pinHi: bool, sends: seq<TxMsg>): Device
    requires FrameRoom(d.link) && AppOk(d.app)
  {
    AppTurn(BusTurn(d, now, pinHi), sends)
  }
}
