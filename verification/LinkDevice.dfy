// The link layer as the source keeps it: two message queues, a frame buffer filled in place, a
// direction flag and the queue of the transmitter it feeds.
module LinkDevice {
  import opened PhySpec
  import opened FifoQueue
  import opened LinkSpec

  method DoCheckSum(raw: seq<byte>) returns (ok: bool)
    requires raw != []
    ensures ok <==> raw[|raw| - 1] == CheckSum(raw[..|raw| - 1])
  {
    var expected: byte := 0;
    for index := 0 to |raw| - 1
      invariant expected == XorAll(raw[..index])
    {
      assert raw[..index + 1][..index] == raw[..index];
      expected := expected ^ raw[index];
    }
    expected := (expected + 1) % 16;
    ok := raw[|raw| - 1] == expected;
  }

  /** Copies the symbols while looking for signal letters, then checks and classifies the copy. */
  method ParseMsg(nibbleSequence: array<byte>, numNibbles: nat) returns (msg: RxMsg)
    requires numNibbles <= nibbleSequence.Length
    ensures msg == Parse(nibbleSequence[..numNibbles])
  {
    ghost var s := nibbleSequence[..numNibbles];
    var errId, count := 0, numNibbles;
    if numNibbles > NIBBLE_ARRAY_SIZE {
      count, errId := NIBBLE_ARRAY_SIZE, ERR_LENGTH;
    }
    var raw: seq<byte> := [];
    for index := 0 to count
      invariant raw == Cut(s)[..index]
      invariant errId == if exists b :: b in Cut(s)[..index] && IsSignal(b) then ERR_SIGNAL
                         else if |s| > NIBBLE_ARRAY_SIZE then ERR_LENGTH else 0
    {
      var b := nibbleSequence[index];
      assert Cut(s)[..index + 1] == Cut(s)[..index] + [b];
      raw := raw + [b];
      if IsSignal(b) {
        errId := ERR_SIGNAL;
      }
    }
    assert raw == Cut(s);
    if !(count > 2) {
      errId := ERR_LENGTH;
    }
    if errId != 0 {
      return Rejected(errId, raw);
    }
    var ok := DoCheckSum(raw);
    if !ok {
      return Rejected(ERR_CHECKSUM, raw);
    }
    if raw[0] == 1 {
      return HeadToCd(raw);
    } else if raw[0] == 9 {
      return CdToHead(raw);
    }
    return Rejected(ERR_DIRECTION, raw);
  }

  method SendDigits(phyTxNibbleFifo: Fifo<byte>, txMsg: TxMsg)
    requires phyTxNibbleFifo.Valid()
    modifies phyTxNibbleFifo, phyTxNibbleFifo.buffer
    ensures phyTxNibbleFifo.Valid()
    ensures phyTxNibbleFifo.contents ==
            Pushed(old(phyTxNibbleFifo.contents), Serialise(txMsg), phyTxNibbleFifo.buffer.Length)
  {
    hide Pushed, Digit, Fifo.Valid;
    ghost var before, capacity := phyTxNibbleFifo.contents, phyTxNibbleFifo.buffer.Length;
    ghost var digits := Digits(txMsg);
    var checkSum: byte := 0;
    PushedNone(before, capacity);
    for idx := 0 to txMsg.num
      invariant phyTxNibbleFifo.Valid()
      invariant phyTxNibbleFifo.contents == Pushed(before, digits[..idx], capacity)
      invariant checkSum == XorAll(digits[..idx])
    {
      var nibble := Digit(txMsg.pack, txMsg.num - idx - 1);
      checkSum := checkSum ^ nibble;
      phyTxNibbleFifo.Push(nibble);
      assert digits[..idx + 1] == digits[..idx] + [nibble];
      PushedConcat(before, digits[..idx], [nibble], capacity);
    }
    assert digits[..txMsg.num] == digits;
    checkSum := (checkSum + 1) % 16;
    phyTxNibbleFifo.Push(checkSum);
    PushedConcat(before, digits, [checkSum], capacity);
    phyTxNibbleFifo.Push(END);
    PushedConcat(before, digits + [checkSum], [END], capacity);
  }

  lemma OrGrouped(pack: bv64, t: byte, i: byte, ms: bv64)
    ensures pack | (((t as bv64) << 40) | ((i as bv64) << 32) | ms) ==
            pack | ((t as bv64) << 40) | ((i as bv64) << 32) | ms
  {
  }

  class LinkLayer {
    const rxMsgFifo: Fifo<RxMsg>
    const txMsgFifo: Fifo<TxMsg>
    const nibbles: array<byte>
    var numNibbles: nat
    var rxNotTxMode: bool
    const phyTxNibbleFifo: Fifo<byte>

    ghost predicate Valid()
      reads this, rxMsgFifo, rxMsgFifo.buffer, txMsgFifo, txMsgFifo.buffer, phyTxNibbleFifo, phyTxNibbleFifo.buffer
    {
      && rxMsgFifo.Valid() && rxMsgFifo.buffer.Length == RX_MSG_MAX
      && txMsgFifo.Valid() && txMsgFifo.buffer.Length == TX_MSG_MAX
      && phyTxNibbleFifo.Valid()
      && nibbles.Length == NIBBLE_ARRAY_SIZE && numNibbles <= NIBBLE_ARRAY_SIZE
      && nibbles != phyTxNibbleFifo.buffer
      && (rxMsgFifo as object) != txMsgFifo && (rxMsgFifo as object) != phyTxNibbleFifo
      && (txMsgFifo as object) != phyTxNibbleFifo
      && (rxMsgFifo.buffer as object) != txMsgFifo.buffer && (rxMsgFifo.buffer as object) != phyTxNibbleFifo.buffer
      && (txMsgFifo.buffer as object) != phyTxNibbleFifo.buffer
      && (nibbles as object) != rxMsgFifo.buffer && (nibbles as object) != txMsgFifo.buffer
    }

    ghost function Value(): Link
      requires numNibbles <= nibbles.Length
      reads this, rxMsgFifo, txMsgFifo, nibbles
    {
      Link(rxMsgFifo.contents, txMsgFifo.contents, nibbles[..numNibbles], rxNotTxMode)
    }

    /** The source leaves `numNibbles` unset; it is taken to start at zero. */
    constructor (rxMemory: array<RxMsg>, txMemory: array<TxMsg>, phyTxNibbleFifo: Fifo<byte>)
      requires rxMemory.Length == RX_MSG_MAX && txMemory.Length == TX_MSG_MAX
      requires phyTxNibbleFifo.Valid()
      requires (rxMemory as object) != txMemory
      requires (rxMemory as object) != phyTxNibbleFifo.buffer && (txMemory as object) != phyTxNibbleFifo.buffer
      ensures Valid() && Value() == LINK_START && this.phyTxNibbleFifo == phyTxNibbleFifo
      ensures fresh(rxMsgFifo) && fresh(txMsgFifo) && fresh(nibbles)
      ensures rxMsgFifo.buffer == rxMemory && txMsgFifo.buffer == txMemory
    {
      rxMsgFifo := new Fifo(rxMemory);
      txMsgFifo := new Fifo(txMemory);
      nibbles := new byte[NIBBLE_ARRAY_SIZE];
      numNibbles := 0;
      rxNotTxMode := true;
      this.phyTxNibbleFifo := phyTxNibbleFifo;
    }

    /** Parses the closed frame and queues the result unless the queue is full. */
    method RxMsgPush()
      requires Valid() && 0 < numNibbles
      modifies rxMsgFifo, rxMsgFifo.buffer
      ensures Valid()
      ensures rxMsgFifo.contents ==
              Pushed(old(rxMsgFifo.contents), [Parse(nibbles[..numNibbles - 1])], RX_MSG_MAX)
    {
      hide Parse;
      var msg := ParseMsg(nibbles, numNibbles - 1);
      if !rxMsgFifo.IsFull() {
        rxMsgFifo.Push(msg);
      }
    }

    /** Appends to the frame buffer in place; END closes the frame and empties the buffer. */
    method PushNibble(rxNibble: byte)
      requires Valid() && numNibbles < NIBBLE_ARRAY_SIZE
      modifies this`numNibbles, nibbles, rxMsgFifo, rxMsgFifo.buffer
      ensures Valid()
      ensures Value() == LinkRx(old(Value()), rxNibble)
    {
      hide Parse, Pushed, Fifo.Valid;
      ghost var frame := nibbles[..numNibbles];
      nibbles[numNibbles] := rxNibble;
      if numNibbles < NIBBLE_ARRAY_SIZE {
        numNibbles := numNibbles + 1;
      }
      assert nibbles[..numNibbles - 1] == frame;
      assert nibbles[..numNibbles] == frame + [rxNibble];
      if rxNibble == END {
        RxMsgPush();
        numNibbles := 0;
      }
    }

    /** Pops a message and pushes its digits, checksum and END towards the transmitter. */
    method SendPendingTxMsg()
      requires Valid() && txMsgFifo.contents != []
      modifies txMsgFifo, phyTxNibbleFifo, phyTxNibbleFifo.buffer
      ensures Valid()
      ensures txMsgFifo.contents == old(txMsgFifo.contents)[1..]
      ensures phyTxNibbleFifo.contents ==
              Pushed(old(phyTxNibbleFifo.contents), Serialise(old(txMsgFifo.contents)[0]),
                     phyTxNibbleFifo.buffer.Length)
    {
      hide Pushed, Serialise;
      var txMsg := txMsgFifo.Pop();
      SendDigits(phyTxNibbleFifo, txMsg);
    }

    method Update(mbusPhyRxBusy: bool, mbusPhyTxBusy: bool) returns (phyDirectionUpdated: bool)
      requires Valid()
      modifies this`rxNotTxMode, txMsgFifo, phyTxNibbleFifo, phyTxNibbleFifo.buffer
      ensures Valid()
      ensures var r := LinkStep(old(Value()), mbusPhyRxBusy, mbusPhyTxBusy);
              && Value() == r.link && phyDirectionUpdated == r.turned
              && phyTxNibbleFifo.contents ==
                 Pushed(old(phyTxNibbleFifo.contents), r.out, phyTxNibbleFifo.buffer.Length)
    {
      phyDirectionUpdated := false;
      if rxNotTxMode {
        if !mbusPhyRxBusy && !txMsgFifo.IsEmpty() {
          rxNotTxMode := false;
          phyDirectionUpdated := true;
        }
      } else if !mbusPhyTxBusy && txMsgFifo.IsEmpty() {
        rxNotTxMode := true;
        phyDirectionUpdated := true;
      } else if !txMsgFifo.IsEmpty() {
        SendPendingTxMsg();
      }
    }

    method RxPop() returns (msg: RxMsg)
      requires Valid() && rxMsgFifo.contents != []
      modifies rxMsgFifo
      ensures Valid() && msg == old(rxMsgFifo.contents)[0]
      ensures Value() == old(Value()).(rxMsgs := old(rxMsgFifo.contents)[1..])
    {
      msg := rxMsgFifo.Pop();
    }

    method TxPushOne(msg: TxMsg)
      requires Valid()
      modifies txMsgFifo, txMsgFifo.buffer
      ensures Valid()
      ensures Value() == old(Value()).(txMsgs := Pushed(old(txMsgFifo.contents), [msg], TX_MSG_MAX))
    {
      txMsgFifo.Push(msg);
    }

    method TxPing()
      requires Valid()
      modifies txMsgFifo, txMsgFifo.buffer
      ensures Valid()
      ensures Value() == old(Value()).(txMsgs := Pushed(old(txMsgFifo.contents), [PING_MSG], TX_MSG_MAX))
    {
      TxPushOne(TxMsg(0x98, 2));
    }

    method TxCdPowerOn()
      requires Valid()
      modifies txMsgFifo, txMsgFifo.buffer
      ensures Valid()
      ensures Value() == old(Value()).(txMsgs := Pushed(old(txMsgFifo.contents), [CD_POWER_ON_MSG], TX_MSG_MAX))
    {
      TxPushOne(TxMsg(0x9A0000000000, 12));
    }

    /** Packed digits are built up in place, as in the source's one message buffer. */
    method TxPlayState(track: byte, index: byte, seconds: Seconds, playingNotStopped: bool)
      requires Valid()
      modifies txMsgFifo, txMsgFifo.buffer
      ensures Valid()
      ensures var msg := if playingNotStopped then PlayingMsg(track, index, seconds) else STOPPED_MSG;
              Value() == old(Value()).(txMsgs := Pushed(old(txMsgFifo.contents), [msg], TX_MSG_MAX))
    {
      hide ToBcd, ToMinSec, Widen;
      var packNibbles: bv64 := 0x992000000000009;
      if playingNotStopped {
        packNibbles := 0x994000000000001;
        OrGrouped(packNibbles, ToBcd(track + 1), ToBcd(index), Widen((ToMinSec(seconds) as bv32) << 16));
        packNibbles := packNibbles | (((ToBcd(track + 1) as bv64) << 40) | ((ToBcd(index) as bv64) << 32)
                                      | Widen((ToMinSec(seconds) as bv32) << 16));
      }
      TxPushOne(TxMsg(packNibbles, 15));
    }

    method TxChanging(disk: byte, track: byte)
      requires Valid()
      modifies txMsgFifo, txMsgFifo.buffer
      ensures Valid()
      ensures Value() ==
              old(Value()).(txMsgs := Pushed(old(txMsgFifo.contents), [ChangingMsg(disk, track)], TX_MSG_MAX))
    {
      var packNibbles := 0x9B900000001 | Widen((disk as bv32) << 28) | Widen((ToBcd(track + 1) as bv32) << 20);
      TxPushOne(TxMsg(packNibbles, 11));
    }

    method TxDiskInfo(disk: byte, numTracks: byte, seconds: Seconds)
      requires Valid()
      modifies txMsgFifo, txMsgFifo.buffer
      ensures Valid()
      ensures var msg := DiskInfoMsg(disk, numTracks, seconds);
              Value() == old(Value()).(txMsgs := Pushed(old(txMsgFifo.contents), [msg], TX_MSG_MAX))
    {
      var packNibbles := 0x9C001007502F | ((disk as bv64) << 36) | Widen((ToBcd(numTracks) as bv32) << 20)
                         | Widen((ToMinSec(seconds) as bv32) << 4);
      TxPushOne(TxMsg(packNibbles, 12));
    }

    /** The application's messages, pushed one by one; what does not fit is dropped. */
    method TxPush(msgs: seq<TxMsg>)
      requires Valid()
      modifies txMsgFifo, txMsgFifo.buffer
      ensures Valid()
      ensures Value() == old(Value()).(txMsgs := Pushed(old(txMsgFifo.contents), msgs, TX_MSG_MAX))
    {
      hide Pushed;
      PushAll(txMsgFifo, msgs);
    }
  }
}
