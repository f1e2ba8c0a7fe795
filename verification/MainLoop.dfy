// The main loop over the mutable layers, proved to take exactly the turns of DeviceSpec.
module MainLoop {
  import opened Clock
  import opened PhySpec
  import opened FifoQueue
  import opened LinkSpec
  import opened AppSpec
  import opened DeviceSpec
  import opened PhyDevice
  import opened LinkDevice
  import opened AppDevice

  ghost predicate Apart(a: object, b: object) {
    a != b
  }

  class Loop {
    const rx: Receiver
    const tx: Transmitter
    const link: LinkLayer
    const app: AppLayer
    var driveMbusPinLo: bool

    /** The objects the loop owns. The link's output queue is the transmitter's own queue. */
    ghost predicate Separate()
      reads this
    {
      && link.phyTxNibbleFifo == tx.byteFifo && rx.byteFifo != tx.byteFifo
      && Apart(rx.byteFifo, link.rxMsgFifo) && Apart(rx.byteFifo, link.txMsgFifo)
      && Apart(rx.byteFifo, app.simpleMbusMsgFifo) && Apart(tx.byteFifo, app.simpleMbusMsgFifo)
      && Apart(link.rxMsgFifo, app.simpleMbusMsgFifo) && Apart(link.txMsgFifo, app.simpleMbusMsgFifo)
      && rx.byteFifo.buffer != tx.byteFifo.buffer && rx.byteFifo.buffer != link.nibbles
      && Apart(rx.byteFifo.buffer, link.rxMsgFifo.buffer) && Apart(rx.byteFifo.buffer, link.txMsgFifo.buffer)
      && Apart(rx.byteFifo.buffer, app.simpleMbusMsgFifo.buffer)
      && Apart(tx.byteFifo.buffer, app.simpleMbusMsgFifo.buffer)
      && Apart(link.rxMsgFifo.buffer, app.simpleMbusMsgFifo.buffer)
      && Apart(link.txMsgFifo.buffer, app.simpleMbusMsgFifo.buffer)
      && Apart(link.nibbles, app.simpleMbusMsgFifo.buffer)
    }

    ghost function Owned(): set<object>
      reads this
    {
      {this, rx, tx, link, app, rx.byteFifo, tx.byteFifo, link.rxMsgFifo, link.txMsgFifo, app.simpleMbusMsgFifo,
       rx.byteFifo.buffer, tx.byteFifo.buffer, link.rxMsgFifo.buffer, link.txMsgFifo.buffer,
       app.simpleMbusMsgFifo.buffer, link.nibbles}
    }

    ghost predicate Valid()
      reads this, Owned(), link.phyTxNibbleFifo, link.phyTxNibbleFifo.buffer
    {
      && Separate()
      && rx.Valid() && rx.byteFifo.buffer.Length == BYTE_MAX
      && tx.Valid() && tx.byteFifo.buffer.Length == BYTE_MAX
      && link.Valid() && app.Valid()
    }

    ghost function Value(): Device
      requires link.numNibbles <= link.nibbles.Length
      reads this, link, Owned()
    {
      Device(Phy(tx.Port(driveMbusPinLo), rx.Value()), rx.byteFifo.contents, link.Value(), app.Value())
    }

    /** The layers share one queue: the link feeds the transmitter's. */
    constructor (rx: Receiver, tx: Transmitter, link: LinkLayer, app: AppLayer)
      ensures this.rx == rx && this.tx == tx && this.link == link && this.app == app && !driveMbusPinLo
    {
      this.rx, this.tx, this.link, this.app := rx, tx, link, app;
      driveMbusPinLo := false;
    }

    method PhyUpdate(now: Micros, pinHi: bool)
      requires Valid()
      modifies this`driveMbusPinLo, rx, rx.byteFifo, rx.byteFifo.buffer, tx, tx.byteFifo
      ensures Valid() && Value() == PhyTurn(old(Value()), now, pinHi)
    {
      hide RxStep, TxStep, Pushed, Fifo.Valid;
      rx.Update(now, pinHi);
      driveMbusPinLo := tx.Update(now, driveMbusPinLo);
    }

    method PopSymbol()
      requires Valid() && link.numNibbles < NIBBLE_ARRAY_SIZE
      modifies rx.byteFifo, link`numNibbles, link.nibbles, link.rxMsgFifo, link.rxMsgFifo.buffer
      ensures Valid() && Value() == PopTurn(old(Value()))
    {
      hide LinkRx, Fifo.Valid;
      if !rx.byteFifo.IsEmpty() {
        var rxNibble := rx.byteFifo.Pop();
        link.PushNibble(rxNibble);
      }
    }

    method LinkUpdate()
      requires Valid()
      modifies link`rxNotTxMode, link.txMsgFifo, tx`state, tx.byteFifo, tx.byteFifo.buffer
      ensures Valid() && Value() == LinkTurn(old(Value()))
    {
      hide LinkStep, Pushed, Fifo.Valid;
      var rxBusy, txBusy := rx.IsBusy(), tx.IsBusy();
      assert txBusy == TxBusy(tx.Port(driveMbusPinLo));
      var turned := link.Update(rxBusy, txBusy);
      if turned {
        if link.rxNotTxMode {
          tx.Disable();
        } else {
          tx.Enable();
        }
      }
    }

    method DecodeMessage() returns (heard: seq<RxMsg>)
      requires Valid()
      modifies link.rxMsgFifo, app`track, app.simpleMbusMsgFifo, app.simpleMbusMsgFifo.buffer
      ensures Valid() && Value() == DecodeTurn(old(Value()))
      ensures heard == FirstOf(old(Value()).link.rxMsgs)
    {
      hide Decode, Fifo.Valid;
      heard := [];
      if !link.rxMsgFifo.IsEmpty() {
        var rxMsg := link.RxPop();
        heard := [rxMsg];
        app.DecodePush(rxMsg);
      }
    }

    /** A command, if any, is answered; then the state machine sends what it has to. */
    method CarryOut(sends: seq<TxMsg>) returns (carriedOut: seq<Cmd>)
      requires Valid()
      modifies app.simpleMbusMsgFifo, link.txMsgFifo, link.txMsgFifo.buffer
      ensures Valid() && Value() == CommandTurn(old(Value()), sends)
      ensures carriedOut == FirstOf(old(Value()).app.cmds)
    {
      hide Pushed, Fifo.Valid;
      ghost var before := link.txMsgFifo.contents;
      PushedNone(before, TX_MSG_MAX);
      ghost var replies: seq<TxMsg> := [];
      carriedOut := [];
      if !app.simpleMbusMsgFifo.IsEmpty() {
        var cmd := app.simpleMbusMsgFifo.Pop();
        carriedOut := [cmd];
        replies := Replies(cmd);
        if cmd == PING {
          link.TxPing();
        } else if cmd == HEAD_POWER_ON {
          link.TxCdPowerOn();
        }
      }
      link.TxPush(sends);
      PushedConcat(before, replies, sends, TX_MSG_MAX);
    }

    /**
     * One iteration of the loop. The clock, the pin and the rest of the application are inputs; the
     * message taken and the command handed to the application's state machine are outputs.
     */
    method Iterate(now: Micros, pinHi: bool, sends: seq<TxMsg>) returns (heard: seq<RxMsg>, carriedOut: seq<Cmd>)
      requires Valid() && link.numNibbles < NIBBLE_ARRAY_SIZE
      modifies Owned()
      ensures Valid() && Value() == Turn(old(Value()), now, pinHi, sends)
      ensures heard == HeardIn(old(Value()), now, pinHi) && carriedOut == CarriedOutIn(old(Value()), now, pinHi)
    {
      hide PhyTurn, PopTurn, LinkTurn, DecodeTurn, CommandTurn;
      PhyUpdate(now, pinHi);
      PopSymbol();
      LinkUpdate();
      heard := DecodeMessage();
      carriedOut := CarryOut(sends);
    }
  }

  /** The setup before the loop: everything initialised, the receiver enabled. */
  method Setup() returns (loop: Loop)
    ensures loop.Valid() && loop.Value() == DEVICE_START
  {
    hide Fifo.Valid;
    var rx, tx := SetupPhy();
    var link := SetupLink(tx.byteFifo);
    var cmdMemory := new Cmd[CMD_MAX];
    var app := new AppLayer(cmdMemory);
    loop := new Loop(rx, tx, link, app);
  }

  method SetupLink(out: Fifo<byte>) returns (link: LinkLayer)
    requires out.Valid()
    ensures link.Valid() && link.Value() == LINK_START && link.phyTxNibbleFifo == out
    ensures fresh(link) && fresh(link.rxMsgFifo) && fresh(link.txMsgFifo) && fresh(link.nibbles)
    ensures fresh(link.rxMsgFifo.buffer) && fresh(link.txMsgFifo.buffer)
  {
    hide Fifo.Valid;
    var rxMsgMemory := new RxMsg[RX_MSG_MAX];
    var txMsgMemory := new TxMsg[TX_MSG_MAX];
    link := new LinkLayer(rxMsgMemory, txMsgMemory, out);
  }

  method SetupPhy() returns (rx: Receiver, tx: Transmitter)
    ensures rx.Valid() && rx.byteFifo.buffer.Length == BYTE_MAX && rx.Value() == RX_START && rx.byteFifo.contents == []
    ensures tx.Valid() && tx.byteFifo.buffer.Length == BYTE_MAX && tx.Port(false) == TX_START
    ensures fresh({rx, tx, rx.byteFifo, tx.byteFifo, rx.byteFifo.buffer, tx.byteFifo.buffer})
    ensures rx.byteFifo != tx.byteFifo && rx.byteFifo.buffer != tx.byteFifo.buffer
  {
    var rxMemory, txMemory := new byte[BYTE_MAX], new byte[BYTE_MAX];
    rx := new Receiver(rxMemory);
    rx.Enable();
    tx := new Transmitter(txMemory);
  }
}
