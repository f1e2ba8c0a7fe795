// The parser's exact acceptance, what a corrupted or aborted frame becomes, and the round trip of
// every message the link builds.
module LinkProofs {
  import opened PhySpec
  import opened FifoQueue
  import opened LinkSpec
  import opened ReceiverProofs

  // ---- Acceptance ----

  /** Which command may have which length: the message catalogue in both directions. */
  predicate InCatalogue(dir: byte, cmd0: byte, cmd1: byte, length: nat) {
    || (dir == 1 && cmd0 == 8 && length == 3)
    || (dir == 1 && cmd0 == 1 && cmd1 == 1 && length == 6)
    || (dir == 1 && cmd0 == 1 && cmd1 == 3 && length == 9)
    || (dir == 1 && cmd0 == 1 && cmd1 == 4 && length == 9)
    || (dir == 1 && cmd0 == 9 && length == 3)
    || (dir == 9 && (cmd0, length) in [(8, 3), (9, 16), (0xA, 13), (0xB, 12), (0xC, 13), (0xD, 11), (0xF, 8)])
  }

  lemma AcceptsExactly(s: seq<byte>)
    ensures Parse(s).errId == 0 <==>
            && 3 <= |s| <= 32
            && (forall b | b in s :: !IsSignal(b))
            && s[|s| - 1] == CheckSum(s[..|s| - 1])
            && InCatalogue(s[0], s[1], s[2], |s|)
    ensures Parse(s).errId == 0 ==> Parse(s).raw == s && (Parse(s).h2c <==> s[0] == 1) && Parse(s).body != NoBody
  {
  }

  /** The commands there are in a direction. */
  predicate KnownCommand(dir: byte, cmd0: byte, cmd1: byte) {
    || (dir == 1 && (cmd0 == 8 || cmd0 == 9 || (cmd0 == 1 && (cmd1 == 1 || cmd1 == 3 || cmd1 == 4))))
    || (dir == 9 && cmd0 in [8, 9, 0xA, 0xB, 0xC, 0xD, 0xF])
  }

  /** A letter among the first 32 symbols. */
  predicate HasLetter(s: seq<byte>) {
    exists i :: 0 <= i < |s| && i < 32 && IsSignal(s[i])
  }

  /**
   * Why a frame is refused, for every sequence of symbols: too short before all else; then signalling,
   * too long, checksum, direction, an unknown command, and a known one with a wrong length. The numbers
   * are the source's: 1 signal, 2 length, 3 checksum, 4 direction, 5 unknown type.
   */
  lemma RefusedBecause(s: seq<byte>)
    ensures Parse(s).errId ==
            if |s| <= 2 then 2
            else if HasLetter(s) then 1
            else if |s| > 32 then 2
            else if s[|s| - 1] != CheckSum(s[..|s| - 1]) then 3
            else if s[0] != 1 && s[0] != 9 then 4
            else if !KnownCommand(s[0], s[1], s[2]) then 5
            else if !InCatalogue(s[0], s[1], s[2], |s|) then 2
            else 0
    ensures Parse(s).raw == if |s| > 32 then s[..32] else s
    ensures Parse(s).errId != 0 ==> !Parse(s).h2c && Parse(s).body == NoBody
  {
    hide CheckSum, IsSignal, ParseSetPlayState, ParseSetDiskTrack, ParseSetMode, ParseChanging, ParsePlayState,
         ParseDiskInfo;
    LettersSeen(s);
  }

  lemma LettersSeen(s: seq<byte>)
    ensures HasLetter(s) <==> exists b :: b in Cut(s) && IsSignal(b)
  {
    hide IsSignal;
    var c := Cut(s);
    if HasLetter(s) {
      var i :| 0 <= i < |s| && i < 32 && IsSignal(s[i]);
      assert c[i] == s[i];
    }
    if b :| b in c && IsSignal(b) {
      var i :| 0 <= i < |c| && c[i] == b;
      assert s[i] == b;
    }
  }

  /** END hands on the frame without it; four parsed messages are kept, and a fifth is dropped. */
  lemma FrameClosed(l: Link)
    requires |l.frame| < 32 && |l.rxMsgs| <= 4
    ensures LinkRx(l, 18) ==
            l.(frame := [], rxMsgs := if |l.rxMsgs| < 4 then l.rxMsgs + [Parse(l.frame)] else l.rxMsgs)
  {
    hide Parse;
    PushedFitting(l.rxMsgs, [Parse(l.frame)], 4);
  }

  // ---- Checksum ----

  lemma {:induction false} XorNibbles(s: seq<byte>)
    requires AllNibbles(s)
    ensures XorAll(s) < 16
  {
    if s != [] {
      XorNibbles(s[..|s| - 1]);
    }
  }

  lemma {:induction false} XorReplace(s: seq<byte>, i: nat, v: byte)
    requires i < |s|
    ensures XorAll(s[i := v]) == XorAll(s) ^ s[i] ^ v
  {
    var n := |s| - 1;
    if i == n {
      assert s[i := v][..n] == s[..n];
    } else {
      assert s[i := v][..n] == s[..n][i := v];
      XorReplace(s[..n], i, v);
    }
  }

  lemma CheckSumDiffers(a: byte, b: byte)
    requires a < 16 && b < 16 && a != b
    ensures (a + 1) % 16 != (b + 1) % 16
  {
  }

  lemma XorDiffers(x: byte, old': byte, new': byte)
    requires old' != new'
    ensures x ^ old' ^ new' != x
  {
  }

  lemma ReplaceBreaksCheckSum(s: seq<byte>, i: nat, v: byte)
    requires s != [] && AllNibbles(s) && CheckSumOk(s)
    requires i < |s| && v < 16 && v != s[i]
    ensures !CheckSumOk(s[i := v])
  {
    var n := |s| - 1;
    var t := s[i := v];
    if i == n {
      assert t[..n] == s[..n];
    } else {
      assert t[..n] == s[..n][i := v];
      XorReplace(s[..n], i, v);
      XorNibbles(s[..n]);
      XorNibbles(t[..n]);
      XorDiffers(XorAll(s[..n]), s[i], v);
      CheckSumDiffers(XorAll(s[..n]), XorAll(t[..n]));
    }
  }

  lemma NibblesAreNoSignal(s: seq<byte>)
    requires AllNibbles(s)
    ensures forall b | b in s :: !IsSignal(b)
  {
  }

  /** Any single wrong nibble, in the body or in the checksum itself, is reported as a checksum error. */
  lemma OneWrongNibble(s: seq<byte>, i: nat, v: byte)
    requires Parse(s).errId == 0 && AllNibbles(s)
    requires i < |s| && v < 16 && v != s[i]
    ensures Parse(s[i := v]) == Rejected(ERR_CHECKSUM, s[i := v])
  {
    AcceptsExactly(s);
    NibblesAreNoSignal(s[i := v]);
    ReplaceBreaksCheckSum(s, i, v);
  }

  /** What is not detected: two body nibbles exchanged keep the checksum. */
  lemma ExchangePassesChecksum(s: seq<byte>, i: nat, j: nat)
    requires i < j < |s| - 1
    ensures CheckSumOk(s[i := s[j]][j := s[i]]) <==> CheckSumOk(s)
  {
    var n := |s| - 1;
    var t := s[i := s[j]][j := s[i]];
    assert t[..n] == s[..n][i := s[j]][j := s[i]];
    XorReplace(s[..n], i, s[j]);
    XorReplace(s[..n][i := s[j]], j, s[i]);
    XorCancels(XorAll(s[..n]), s[i], s[j]);
  }

  lemma XorCancels(x: byte, a: byte, b: byte)
    ensures x ^ a ^ b ^ b ^ a == x
  {
  }

  /** A frame that ends in an error code is never accepted, whatever comes before the code. */
  lemma AbortRejected(s: seq<byte>)
    requires s != [] && s[|s| - 1] >= 16
    ensures Parse(s).errId != 0
  {
    if CopyError(s) == 0 {
      CheckSumIsNibble(s[..|s| - 1]);
    }
  }

  lemma CheckSumIsNibble(s: seq<byte>)
    ensures CheckSum(s) < 16
  {
  }

  lemma PartialIsNibble(tail: Tail)
    ensures Partial(tail) < 16
  {
  }

  /** The receiver's codes are no letters: bad signalling is never reported as such. */
  lemma ContentHasNoLetters(b: Burst)
    requires BurstOk(b)
    ensures forall s | s in Content(b) :: !IsSignal(s) && s != END
  {
    PartialIsNibble(b.tail);
    hide Partial;
  }

  /**
   * Whichever frame the receiver aborts, on any waveform, is refused: for its length if it has no
   * whole nibble or more symbols than the parser takes, and otherwise for its checksum.
   */
  lemma AbortedFrameRejected(b: Burst)
    requires BurstOk(b) && b.ending != GapEnd
    ensures var g := Content(b);
            Parse(g).errId == if |g| <= 2 || |g| > 32 then 2 else 3
  {
    var g := Content(b);
    ContentHasNoLetters(b);
    CheckSumIsNibble(g[..|g| - 1]);
    assert forall s | s in Cut(g) :: s in g;
    hide CheckSum, Partial, IsSignal;
  }

  /** No frame of nibbles sets intro scan in setMode, whoever sends it. */
  lemma IntroScanNeverRead(s: seq<byte>)
    requires AllNibbles(s)
    ensures Parse(s).body.SetMode? ==> !Parse(s).body.introScan
  {
    if Parse(s).errId == 0 {
      AcceptsExactly(s);
      assert |s| >= 5 ==> s[3..][1] == s[4];
      NibbleHasNoBit4(s);
    }
  }

  lemma NibbleHasNoBit4(s: seq<byte>)
    requires AllNibbles(s)
    ensures forall i | 0 <= i < |s| :: s[i] & 16 == 0
  {
  }

  // ---- Frames the link builds ----

  lemma DigitIsNibble(pack: bv64, k: nat)
    requires k < 16
    ensures Digit(pack, k) < 16
  {
  }

  /** Length, signalling and checksum of a built frame are always right: only the catalogue decides. */
  lemma BuiltFrame(m: TxMsg)
    ensures |Frame(m)| == m.num + 1 && AllNibbles(Frame(m))
    ensures 2 <= m.num ==>
              Parse(Frame(m)) ==
              if Frame(m)[0] == 1 then HeadToCd(Frame(m))
              else if Frame(m)[0] == 9 then CdToHead(Frame(m))
              else Rejected(ERR_DIRECTION, Frame(m))
  {
    var f := Frame(m);
    CheckSumIsNibble(Digits(m));
    forall i | 0 <= i < |f| ensures f[i] < 16 {
      if i < m.num {
        DigitIsNibble(m.pack, m.num - i - 1);
      }
    }
    assert f[..|f| - 1] == Digits(m);
  }

  /** The digits by constant shifts. */
  lemma LowDigits(p: bv64)
    ensures Digit(p, 0) == (p & 15) as byte && Digit(p, 1) == ((p >> 4) & 15) as byte
    ensures Digit(p, 2) == ((p >> 8) & 15) as byte && Digit(p, 3) == ((p >> 12) & 15) as byte
    ensures Digit(p, 4) == ((p >> 16) & 15) as byte && Digit(p, 5) == ((p >> 20) & 15) as byte
    ensures Digit(p, 6) == ((p >> 24) & 15) as byte && Digit(p, 7) == ((p >> 28) & 15) as byte
  {
  }

  lemma HighDigits(p: bv64)
    ensures Digit(p, 8) == ((p >> 32) & 15) as byte && Digit(p, 9) == ((p >> 36) & 15) as byte
    ensures Digit(p, 10) == ((p >> 40) & 15) as byte && Digit(p, 11) == ((p >> 44) & 15) as byte
    ensures Digit(p, 12) == ((p >> 48) & 15) as byte && Digit(p, 13) == ((p >> 52) & 15) as byte
    ensures Digit(p, 14) == ((p >> 56) & 15) as byte
  {
  }

  function Hi(b: byte): byte { b >> 4 }

  function Lo(b: byte): byte { b & 0x0F }

  /** Two nibbles carry a two-digit number up to 159, since the upper one may exceed nine. */
  lemma BcdRoundTrip(a: byte)
    ensures NibblePair(Hi(ToBcd(a)), Lo(ToBcd(a))) == a <==> a <= 159
    ensures Lo(ToBcd(a)) <= 9
    ensures Hi(ToBcd(a)) == a / 10 % 16 && Lo(ToBcd(a)) == a % 10
  {
  }

  /** Every number below 256 is the value of some byte. */
  lemma {:induction false} SomeByte(n: nat) returns (b: byte)
    requires n < 256
    ensures b as int == n
  {
    if n == 0 {
      b := 0;
    } else {
      var c := SomeByte(n - 1);
      AsInts(c, 255);
      NextInt(c);
      b := c + 1;
    }
  }

  lemma ByteAgain(b: byte)
    ensures (b as int) as byte == b
  {
  }

  lemma ByteInt(n: int)
    requires 0 <= n < 256
    ensures (n as byte) as int == n
  {
    var b := SomeByte(n);
    ByteAgain(b);
  }

  lemma TimeBytes(seconds: Seconds)
    ensures MinuteByte(seconds) as int == seconds / 60 % 256
    ensures SecondByte(seconds) as int == seconds % 60
  {
    ByteInt(seconds / 60 % 256);
    ByteInt(seconds % 60);
  }

  lemma NextInt(b: byte)
    requires b < 255
    ensures (b + 1) as int == b as int + 1
  {
  }

  lemma AsInts(a: byte, b: byte)
    ensures a < b <==> (a as int) < (b as int)
  {
  }

  /** Minute and second nibbles; the sign bit of the shifted field is the top bit of the tens of minutes. */
  lemma JoinNibbles(m: byte, s: byte)
    ensures var ms := Join(m, s);
            && ((ms >> 12) & 15) as byte == Hi(m) && ((ms >> 8) & 15) as byte == Lo(m)
            && ((ms >> 4) & 15) as byte == Hi(s) && (ms & 15) as byte == Lo(s)
            && (ms & 0x8000 != 0 <==> Hi(m) >= 8)
  {
  }

  lemma PlayingTop(t: byte, i: byte, ms: bv16)
    ensures ((PlayingPack(t, i, ms) >> 56) & 15) as byte == if ms & 0x8000 != 0 then 15 else 9
    ensures ms & 0x8000 == 0 ==> ((PlayingPack(t, i, ms) >> 52) & 15) as byte == 9
    ensures ms & 0x8000 == 0 ==> ((PlayingPack(t, i, ms) >> 48) & 15) as byte == 4
  {
  }

  /** The sign extension sets every bit above the 32nd. */
  lemma PlayingWiped(t: byte, i: byte, ms: bv16)
    requires ms & 0x8000 != 0
    ensures ((PlayingPack(t, i, ms) >> 52) & 15) as byte == 15 && ((PlayingPack(t, i, ms) >> 48) & 15) as byte == 15
    ensures ((PlayingPack(t, i, ms) >> 44) & 15) as byte == 15 && ((PlayingPack(t, i, ms) >> 40) & 15) as byte == 15
    ensures ((PlayingPack(t, i, ms) >> 36) & 15) as byte == 15 && ((PlayingPack(t, i, ms) >> 32) & 15) as byte == 15
  {
  }

  lemma PlayingTrack(t: byte, i: byte, ms: bv16)
    requires ms & 0x8000 == 0
    ensures ((PlayingPack(t, i, ms) >> 44) & 15) as byte == Hi(t)
    ensures ((PlayingPack(t, i, ms) >> 40) & 15) as byte == Lo(t)
  {
  }

  lemma PlayingIndex(t: byte, i: byte, ms: bv16)
    requires ms & 0x8000 == 0
    ensures ((PlayingPack(t, i, ms) >> 36) & 15) as byte == Hi(i)
    ensures ((PlayingPack(t, i, ms) >> 32) & 15) as byte == Lo(i)
  {
  }

  lemma PlayingMinute(t: byte, i: byte, ms: bv16)
    ensures ((PlayingPack(t, i, ms) >> 28) & 15) as byte == ((ms >> 12) & 15) as byte
    ensures ((PlayingPack(t, i, ms) >> 24) & 15) as byte == ((ms >> 8) & 15) as byte
  {
  }

  lemma PlayingSecond(t: byte, i: byte, ms: bv16)
    ensures ((PlayingPack(t, i, ms) >> 20) & 15) as byte == ((ms >> 4) & 15) as byte
    ensures ((PlayingPack(t, i, ms) >> 16) & 15) as byte == (ms & 15) as byte
  {
  }

  lemma PlayingFlags(t: byte, i: byte, ms: bv16)
    ensures ((PlayingPack(t, i, ms) >> 12) & 15) as byte == 0
    ensures ((PlayingPack(t, i, ms) >> 8) & 15) as byte == 0
    ensures ((PlayingPack(t, i, ms) >> 4) & 15) as byte == 0
    ensures (PlayingPack(t, i, ms) & 15) as byte == 1
  {
  }

  lemma FifteenDigits(p: bv64)
    ensures Digits(TxMsg(p, 15)) ==
            [Digit(p, 14), Digit(p, 13), Digit(p, 12), Digit(p, 11), Digit(p, 10), Digit(p, 9), Digit(p, 8),
             Digit(p, 7), Digit(p, 6), Digit(p, 5), Digit(p, 4), Digit(p, 3), Digit(p, 2), Digit(p, 1), Digit(p, 0)]
  {
    hide Digit;
  }

  lemma PlayingDigits(t: byte, i: byte, m: byte, s: byte)
    ensures var d := Digits(TxMsg(PlayingPack(t, i, Join(m, s)), 15));
            if Hi(m) >= 8 then d == [15, 15, 15, 15, 15, 15, 15, Hi(m), Lo(m), Hi(s), Lo(s), 0, 0, 0, 1]
            else d == [9, 9, 4, Hi(t), Lo(t), Hi(i), Lo(i), Hi(m), Lo(m), Hi(s), Lo(s), 0, 0, 0, 1]
  {
    hide PlayingPack, Join, Hi, Lo, Digit, Digits;
    var ms := Join(m, s);
    var p := PlayingPack(t, i, ms);
    FifteenDigits(p);
    HighDigits(p);
    LowDigits(p);
    JoinNibbles(m, s);
    PlayingTop(t, i, ms);
    PlayingMinute(t, i, ms);
    PlayingSecond(t, i, ms);
    PlayingFlags(t, i, ms);
    if Hi(m) < 8 {
      PlayingTrack(t, i, ms);
      PlayingIndex(t, i, ms);
    } else {
      PlayingWiped(t, i, ms);
    }
  }

  lemma PlayingRefused(t: byte, i: byte, m: byte, s: byte)
    requires Hi(m) >= 8
    ensures Parse(Frame(TxMsg(PlayingPack(t, i, Join(m, s)), 15))).errId == ERR_DIRECTION
  {
    hide PlayingPack, Join, Hi, Lo, CheckSum, Digits, Parse, HeadToCd, CdToHead;
    var tx := TxMsg(PlayingPack(t, i, Join(m, s)), 15);
    BuiltFrame(tx);
    PlayingDigits(t, i, m, s);
    assert Frame(tx)[0] == Digits(tx)[0];
  }

  lemma PlayingRead(a: byte, b: byte, c: byte, d: byte, e: byte, f: byte, g: byte, h: byte, check: byte)
    ensures var s: seq<byte> := [9, 9, 4, a, b, c, d, e, f, g, h, 0, 0, 0, 1] + [check];
            CdToHead(s) == RxMsg(0, s, false, PlayState(NibblePair(a, b), NibblePair(c, d), NibblePair(e, f),
                                 NibblePair(g, h), false, false, false, false, false, false, true))
  {
    hide NibblePair;
  }

  /** What a playing message with these packed fields parses to. */
  lemma PlayingParse(t: byte, i: byte, m: byte, s: byte)
    ensures var msg := Parse(Frame(TxMsg(PlayingPack(t, i, Join(m, s)), 15)));
            if Hi(m) >= 8 then msg.errId == ERR_DIRECTION else
            && msg.errId == 0 && !msg.h2c
            && msg.body == PlayState(NibblePair(Hi(t), Lo(t)), NibblePair(Hi(i), Lo(i)),
                                     NibblePair(Hi(m), Lo(m)), NibblePair(Hi(s), Lo(s)),
                                     false, false, false, false, false, false, true)
  {
    hide PlayingPack, Join, Hi, Lo, CheckSum, Digits, NibblePair, Parse, HeadToCd, CdToHead;
    if Hi(m) >= 8 {
      PlayingRefused(t, i, m, s);
    } else {
      var tx := TxMsg(PlayingPack(t, i, Join(m, s)), 15);
      var f := Frame(tx);
      BuiltFrame(tx);
      PlayingDigits(t, i, m, s);
      assert f[0] == Digits(tx)[0];
      PlayingRead(Hi(t), Lo(t), Hi(i), Lo(i), Hi(m), Lo(m), Hi(s), Lo(s), CheckSum(Digits(tx)));
    }
  }

  /** A byte through two nibbles and back. */
  function Carried(a: byte): byte {
    NibblePair(Hi(ToBcd(a)), Lo(ToBcd(a)))
  }

  lemma TrackField(track: byte)
    ensures Carried(track + 1) as int == track as int + 1 <==> track <= 158
  {
    BcdRoundTrip(track + 1);
    if track < 255 {
      NextInt(track);
    }
  }

  lemma MinuteField(m: byte)
    ensures Hi(ToBcd(m)) < 8 ==> Carried(m) < 80
    ensures m < 80 ==> Hi(ToBcd(m)) < 8 && Carried(m) == m
  {
  }

  lemma WholeTime(seconds: int, m: int, s: int)
    requires 0 <= seconds && m == seconds / 60 % 256 && s == seconds % 60
    ensures seconds < 4800 ==> m < 80 && m * 60 + s == seconds
  {
    if seconds < 4800 {
      assert 0 <= seconds / 60 < 80;
    }
  }

  lemma TimeFields(seconds: Seconds)
    ensures var m, s := MinuteByte(seconds), SecondByte(seconds);
            && (Hi(ToBcd(m)) < 8 && Carried(m) as int * 60 + Carried(s) as int == seconds) <==> seconds < 4800
  {
    var m, s := MinuteByte(seconds), SecondByte(seconds);
    TimeBytes(seconds);
    WholeTime(seconds, m as int, s as int);
    hide Carried, Hi, ToBcd, MinuteByte, SecondByte;
    MinuteField(m);
    AsInts(m, 80);
    AsInts(Carried(m), 80);
    AsInts(s, 60);
    SmallCarried(s);
  }

  lemma SmallCarried(s: byte)
    requires s < 60
    ensures Carried(s) == s
  {
  }

  /** The fields of a playing message as a listener would want them. */
  predicate TellsPlaying(msg: RxMsg, track: byte, index: byte, seconds: Seconds) {
    && msg.errId == 0 && msg.body.PlayState? && msg.body.play && !msg.body.stopped && !msg.body.paused
    && msg.body.track as int == track as int + 1
    && msg.body.index == index
    && msg.body.minute as int * 60 + msg.body.second as int == seconds
  }

  /**
   * The playing message is read back exactly when the fields fit: at 80 minutes the top bit of the
   * minutes is the sign bit of an int and wipes out the front of the message.
   */
  lemma PlayingRoundTrip(track: byte, index: byte, seconds: Seconds)
    ensures TellsPlaying(Parse(Frame(PlayingMsg(track, index, seconds))), track, index, seconds) <==>
            track <= 158 && index <= 159 && seconds < 4800
  {
    hide ToBcd, Hi, Lo, NibblePair, PlayingPack, Parse, Frame, MinuteByte, SecondByte, Join;
    PlayingParse(ToBcd(track + 1), ToBcd(index), ToBcd(MinuteByte(seconds)), ToBcd(SecondByte(seconds)));
    TrackField(track);
    BcdRoundTrip(index);
    TimeFields(seconds);
  }

  // ---- Changing ----

  lemma ChangingTop(d: byte, t: byte)
    ensures ((ChangingPack(d, t) >> 40) & 15) as byte == if d & 8 != 0 then 15 else 9
    ensures ((ChangingPack(d, t) >> 36) & 15) as byte == if d & 8 != 0 then 15 else 0xB
    ensures ((ChangingPack(d, t) >> 32) & 15) as byte == if d & 8 != 0 then 15 else 9
  {
  }

  lemma ChangingFields(d: byte, t: byte)
    ensures ((ChangingPack(d, t) >> 28) & 15) as byte == Lo(d)
    ensures ((ChangingPack(d, t) >> 24) & 15) as byte == Hi(t)
    ensures ((ChangingPack(d, t) >> 20) & 15) as byte == Lo(t)
  {
  }

  lemma ChangingFlags(d: byte, t: byte)
    ensures ((ChangingPack(d, t) >> 16) & 15) as byte == 0
    ensures ((ChangingPack(d, t) >> 12) & 15) as byte == 0
    ensures ((ChangingPack(d, t) >> 8) & 15) as byte == 0
    ensures ((ChangingPack(d, t) >> 4) & 15) as byte == 0
    ensures (ChangingPack(d, t) & 15) as byte == 1
  {
  }

  lemma ElevenDigits(p: bv64)
    ensures Digits(TxMsg(p, 11)) ==
            [Digit(p, 10), Digit(p, 9), Digit(p, 8), Digit(p, 7), Digit(p, 6), Digit(p, 5), Digit(p, 4),
             Digit(p, 3), Digit(p, 2), Digit(p, 1), Digit(p, 0)]
  {
    hide Digit;
  }

  lemma ChangingDigits(d: byte, t: byte)
    ensures var ds := Digits(TxMsg(ChangingPack(d, t), 11));
            if d & 8 != 0 then ds == [15, 15, 15, Lo(d), Hi(t), Lo(t), 0, 0, 0, 0, 1]
            else ds == [9, 0xB, 9, Lo(d), Hi(t), Lo(t), 0, 0, 0, 0, 1]
  {
    hide ChangingPack, Hi, Lo, Digit, Digits;
    var p := ChangingPack(d, t);
    ElevenDigits(p);
    HighDigits(p);
    LowDigits(p);
    ChangingTop(d, t);
    ChangingFields(d, t);
    ChangingFlags(d, t);
  }

  lemma ChangingParse(d: byte, t: byte)
    ensures var msg := Parse(Frame(TxMsg(ChangingPack(d, t), 11)));
            if d & 8 != 0 then msg.errId == ERR_DIRECTION else
            && msg.errId == 0 && !msg.h2c
            && msg.body == Changing(Lo(d), NibblePair(Hi(t), Lo(t)), false, false, false, false, false, false, true)
  {
    var tx := TxMsg(ChangingPack(d, t), 11);
    var f := Frame(tx);
    BuiltFrame(tx);
    ChangingDigits(d, t);
    assert f[0] == Digits(tx)[0];
    if d & 8 == 0 {
      hide ChangingPack, Hi, Lo, CheckSum, Digits;
      assert f[..11] == Digits(tx);
      assert f[2..] == Digits(tx)[2..] + [CheckSum(Digits(tx))];
    }
  }

  lemma DiskNibble(d: byte)
    ensures d & 8 == 0 ==> (Lo(d) == d <==> d <= 7)
    ensures d <= 7 ==> d & 8 == 0
    ensures Lo(d) == d <==> d <= 15
    ensures 0xC | Hi(d) == 0xC && Lo(d) == d <==> d <= 15
  {
  }

  predicate TellsChanging(msg: RxMsg, disk: byte, track: byte) {
    && msg.errId == 0 && msg.body.Changing? && msg.body.done && !msg.body.busy && !msg.body.eject
    && msg.body.disk == disk
    && msg.body.track as int == track as int + 1
  }

  /** The changing message is read back exactly for disks up to 7: the eighth sets the sign bit. */
  lemma ChangingRoundTrip(disk: byte, track: byte)
    ensures TellsChanging(Parse(Frame(ChangingMsg(disk, track))), disk, track) <==> disk <= 7 && track <= 158
  {
    hide ToBcd, Hi, Lo, NibblePair, ChangingPack, Parse, Frame;
    ChangingParse(disk, ToBcd(track + 1));
    TrackField(track);
    DiskNibble(disk);
  }

  // ---- Disk info ----

  lemma DiskInfoTop(d: byte, n: byte, ms: bv16)
    ensures ((DiskInfoPack(d, n, ms) >> 44) & 15) as byte == 9
    ensures ((DiskInfoPack(d, n, ms) >> 40) & 15) as byte == 0xC | Hi(d)
    ensures ((DiskInfoPack(d, n, ms) >> 36) & 15) as byte == Lo(d)
  {
  }

  /** Two digits of the template no field touches. */
  lemma DiskInfoTemplate(d: byte, n: byte, ms: bv16)
    ensures ((DiskInfoPack(d, n, ms) >> 32) & 15) as byte == 0
    ensures ((DiskInfoPack(d, n, ms) >> 28) & 15) as byte == 1
  {
  }

  lemma DiskInfoTracks(d: byte, n: byte, ms: bv16)
    ensures ((DiskInfoPack(d, n, ms) >> 24) & 15) as byte == Hi(n)
    ensures ((DiskInfoPack(d, n, ms) >> 20) & 15) as byte == Lo(n)
  {
  }

  /** The time is ORed onto the digits 7, 5, 0 and 2. */
  lemma DiskInfoTime(d: byte, n: byte, m: byte, s: byte)
    ensures var p := DiskInfoPack(d, n, Join(m, s));
            && ((p >> 16) & 15) as byte == Hi(m) | 7 && ((p >> 12) & 15) as byte == Lo(m) | 5
            && ((p >> 8) & 15) as byte == Hi(s) && ((p >> 4) & 15) as byte == Lo(s) | 2
            && (p & 15) as byte == 15
  {
  }

  lemma TwelveDigits(p: bv64)
    ensures Digits(TxMsg(p, 12)) ==
            [Digit(p, 11), Digit(p, 10), Digit(p, 9), Digit(p, 8), Digit(p, 7), Digit(p, 6),
             Digit(p, 5), Digit(p, 4), Digit(p, 3), Digit(p, 2), Digit(p, 1), Digit(p, 0)]
  {
    hide Digit;
  }

  lemma DiskInfoDigits(d: byte, n: byte, m: byte, s: byte)
    ensures Digits(TxMsg(DiskInfoPack(d, n, Join(m, s)), 12)) ==
            [9, 0xC | Hi(d), Lo(d), 0, 1, Hi(n), Lo(n), Hi(m) | 7, Lo(m) | 5, Hi(s), Lo(s) | 2, 15]
  {
    hide DiskInfoPack, Join, Hi, Lo, Digit, Digits;
    var p := DiskInfoPack(d, n, Join(m, s));
    TwelveDigits(p);
    HighDigits(p);
    LowDigits(p);
    DiskInfoTop(d, n, Join(m, s));
    DiskInfoTemplate(d, n, Join(m, s));
    DiskInfoTracks(d, n, Join(m, s));
    DiskInfoTime(d, n, m, s);
  }

  lemma DiskInfoFrameRead(c: byte, d: byte, n1: byte, n0: byte, m1: byte, m0: byte, s1: byte, s0: byte, check: byte)
    requires c in [0xC, 0xD, 0xE, 0xF]
    ensures var msg := CdToHead([9, c, d, 0, 1, n1, n0, m1, m0, s1, s0, 15] + [check]);
            if c != 0xC then msg.errId != 0 else
            msg.errId == 0 && msg.body == DiskInfo(d, NibblePair(n1, n0), NibblePair(m1, m0), NibblePair(s1, s0), 15)
  {
    hide NibblePair;
  }

  lemma DiskInfoParse(d: byte, n: byte, m: byte, s: byte)
    ensures var msg := Parse(Frame(TxMsg(DiskInfoPack(d, n, Join(m, s)), 12)));
            if 0xC | Hi(d) != 0xC then msg.errId != 0 else
            msg.errId == 0 && msg.body == DiskInfo(Lo(d), NibblePair(Hi(n), Lo(n)), NibblePair(Hi(m) | 7, Lo(m) | 5),
                                                   NibblePair(Hi(s), Lo(s) | 2), 15)
  {
    var tx := TxMsg(DiskInfoPack(d, n, Join(m, s)), 12);
    BuiltFrame(tx);
    DiskInfoDigits(d, n, m, s);
    UpperC(d);
    hide DiskInfoPack, Join, Hi, Lo, CheckSum, Digits, NibblePair, Parse, HeadToCd, CdToHead;
    assert Frame(tx)[0] == Digits(tx)[0];
    DiskInfoFrameRead(0xC | Hi(d), Lo(d), Hi(n), Lo(n), Hi(m) | 7, Lo(m) | 5, Hi(s), Lo(s) | 2, CheckSum(Digits(tx)));
  }

  lemma UpperC(d: byte)
    ensures 0xC | Hi(d) in [0xC, 0xD, 0xE, 0xF]
  {
  }

  predicate TellsDisk(msg: RxMsg, disk: byte, numTracks: byte) {
    msg.errId == 0 && msg.body.DiskInfo? && msg.body.disk == disk && msg.body.tracks == numTracks
  }

  /** Disk and track count are read back exactly when each fits its nibbles, whatever the time digits. */
  lemma DiskInfoRoundTrip(disk: byte, numTracks: byte, seconds: Seconds)
    ensures TellsDisk(Parse(Frame(DiskInfoMsg(disk, numTracks, seconds))), disk, numTracks) <==>
            disk <= 15 && numTracks <= 159
  {
    hide ToBcd, Hi, Lo, NibblePair, DiskInfoPack, Parse, Frame, MinuteByte, SecondByte, Join;
    DiskInfoParse(disk, ToBcd(numTracks), ToBcd(MinuteByte(seconds)), ToBcd(SecondByte(seconds)));
    BcdRoundTrip(numTracks);
    DiskNibble(disk);
  }

  /** The minutes and seconds of a disk information message as they are read back. */
  function DiskMinutes(m: byte): byte {
    NibblePair(Hi(ToBcd(m)) | 7, Lo(ToBcd(m)) | 5)
  }

  function DiskSeconds(s: byte): byte {
    NibblePair(Hi(ToBcd(s)), Lo(ToBcd(s)) | 2)
  }

  lemma MinutesKept(m: byte)
    ensures DiskMinutes(m) == m <==> m == 75 || m == 77 || m == 155 || m == 157
    ensures DiskMinutes(m) <= 165
  {
  }

  lemma SecondsKept(s: byte)
    requires s < 60
    ensures DiskSeconds(s) == s <==> s % 10 == 2 || s % 10 == 3 || s % 10 == 6 || s % 10 == 7
    ensures DiskSeconds(s) < 60 || (DiskSeconds(s) <= 61 && s >= 58)
  {
  }

  /** Carried seconds cannot make up for wrong minutes. */
  lemma TimeDecided(seconds: int, minutes: int, secs: int)
    requires 0 <= seconds && 0 <= minutes && 0 <= secs
    requires secs < 60 || (secs <= 61 && seconds % 60 >= 58)
    ensures minutes * 60 + secs == seconds <==> minutes == seconds / 60 && secs == seconds % 60
  {
  }

  lemma SameInt(a: byte, n: nat)
    requires n < 256
    ensures (a as int) == n <==> a == n as byte
  {
    ByteInt(n);
    AsInts(a, n as byte);
    AsInts(n as byte, a);
  }

  lemma StepModTen(c: byte)
    requires c < 255
    ensures (c + 1) % 10 == if c % 10 == 9 then 0 else c % 10 + 1
    ensures c % 10 <= 9
  {
  }

  lemma IntModTen(n: nat)
    ensures (n + 1) % 10 == if n % 10 == 9 then 0 else n % 10 + 1
  {
  }

  lemma Predecessor(b: byte)
    requires b != 0
    ensures b - 1 < 255 && (b - 1) + 1 == b
  {
  }

  /** If the last digit agrees for one number, it does for the next. */
  lemma DigitStep(c: byte)
    requires c < 255 && (c % 10) as int == (c as int) % 10
    ensures ((c + 1) % 10) as int == ((c + 1) as int) % 10
  {
    hide *;
    NextInt(c);
    StepModTen(c);
    IntModTen(c as int);
    SameInt(c % 10, 9);
    if c % 10 != 9 {
      NextInt(c % 10);
    }
  }

  lemma {:induction false} ModTen(b: byte)
    ensures (b % 10) as int == (b as int) % 10
    decreases b as int
  {
    hide *;
    if b != 0 {
      Predecessor(b);
      NextInt(b - 1);
      ModTen(b - 1);
      DigitStep(b - 1);
    }
  }

  /** Everything in a disk information message, as it was given. */
  predicate TellsDiskAndTime(msg: RxMsg, disk: byte, numTracks: byte, seconds: Seconds) {
    && TellsDisk(msg, disk, numTracks)
    && msg.body.minutes as int * 60 + msg.body.seconds as int == seconds
  }

  /** A last digit the template's 2 does not change. */
  predicate KeepsTwo(seconds: int) {
    seconds % 10 in [2, 3, 6, 7]
  }

  lemma KeepsTwoBits(s: byte)
    ensures (s % 10 == 2 || s % 10 == 3 || s % 10 == 6 || s % 10 == 7) <==> KeepsTwo(s as int)
  {
    ModTen(s);
    var r := s % 10;
    SameInt(r, 2);
    SameInt(r, 3);
    SameInt(r, 6);
    SameInt(r, 7);
  }

  lemma SecondsBound(s: byte)
    requires s < 60
    ensures DiskSeconds(s) as int < 60 || (DiskSeconds(s) as int <= 61 && s as int >= 58)
  {
    SecondsKept(s);
    hide DiskSeconds;
    AsInts(DiskSeconds(s), 60);
    AsInts(61, DiskSeconds(s));
    AsInts(s, 58);
  }

  lemma TenInSixty(n: nat)
    ensures n % 60 % 10 == n % 10
  {
  }

  lemma SecondsAsInt(s: byte)
    requires s < 60
    ensures DiskSeconds(s) as int == s as int <==> KeepsTwo(s as int)
  {
    hide KeepsTwo;
    SecondsKept(s);
    hide DiskSeconds;
    KeepsTwoBits(s);
    AsInts(DiskSeconds(s), s);
    AsInts(s, DiskSeconds(s));
  }

  lemma SecondsKeptInt(seconds: Seconds)
    ensures var s := SecondByte(seconds);
            && (DiskSeconds(s) as int == seconds % 60 <==> KeepsTwo(seconds))
            && (DiskSeconds(s) as int < 60 || (DiskSeconds(s) as int <= 61 && seconds % 60 >= 58))
  {
    hide DiskSeconds, SecondByte;
    var s := SecondByte(seconds);
    TimeBytes(seconds);
    AsInts(s, 60);
    SecondsAsInt(s);
    SecondsBound(s);
    TenInSixty(seconds);
  }

  lemma MinutesAsInt(m: byte)
    ensures DiskMinutes(m) as int == m as int <==> m as int in [75, 77, 155, 157]
    ensures DiskMinutes(m) as int <= 165
  {
    MinutesKept(m);
    hide DiskMinutes;
    AsInts(165, DiskMinutes(m));
    AsInts(DiskMinutes(m), m);
    AsInts(m, DiskMinutes(m));
    SameInt(m, 75);
    SameInt(m, 77);
    SameInt(m, 155);
    SameInt(m, 157);
  }

  lemma CutMinutes(n: nat)
    ensures n < 256 ==> n % 256 == n
  {
  }

  lemma MinutesKeptInt(seconds: Seconds)
    ensures DiskMinutes(MinuteByte(seconds)) as int == seconds / 60 <==> seconds / 60 in [75, 77, 155, 157]
  {
    hide DiskMinutes, MinuteByte;
    TimeBytes(seconds);
    MinutesAsInt(MinuteByte(seconds));
    CutMinutes(seconds / 60);
  }

  /**
   * The time survives the template's digits 7, 5, 0 and 2 only where it already has their bits: in
   * the minutes 75, 77, 155 and 157, at seconds that end in 2, 3, 6 or 7.
   */
  lemma DiskInfoTimeRoundTrip(disk: byte, numTracks: byte, seconds: Seconds)
    ensures TellsDiskAndTime(Parse(Frame(DiskInfoMsg(disk, numTracks, seconds))), disk, numTracks, seconds) <==>
            && disk <= 15 && numTracks <= 159
            && seconds / 60 in [75, 77, 155, 157] && seconds % 10 in [2, 3, 6, 7]
  {
    var m, s := MinuteByte(seconds), SecondByte(seconds);
    DiskInfoParse(disk, ToBcd(numTracks), ToBcd(m), ToBcd(s));
    DiskInfoRoundTrip(disk, numTracks, seconds);
    SecondsKeptInt(seconds);
    MinutesKeptInt(seconds);
    DiskNibble(disk);
    assert NibblePair(Hi(ToBcd(m)) | 7, Lo(ToBcd(m)) | 5) == DiskMinutes(m);
    assert NibblePair(Hi(ToBcd(s)), Lo(ToBcd(s)) | 2) == DiskSeconds(s);
    hide ToBcd, Hi, Lo, NibblePair, DiskInfoPack, Parse, Frame, MinuteByte, SecondByte, Join, DiskMinutes, DiskSeconds;
    TimeDecided(seconds, DiskMinutes(m) as int, DiskSeconds(s) as int);
  }

  // ---- Constant messages ----

  lemma PingParse()
    ensures Parse(Frame(PING_MSG)).errId == 0 && Parse(Frame(PING_MSG)).body == Pong
  {
    LowDigits(PING_MSG.pack);
    BuiltFrame(PING_MSG);
  }

  lemma AckWaitParse()
    ensures Parse(Frame(ACK_WAIT_MSG)).errId == 0 && Parse(Frame(ACK_WAIT_MSG)).body == AckWait
  {
    LowDigits(ACK_WAIT_MSG.pack);
    BuiltFrame(ACK_WAIT_MSG);
  }

  lemma UnknownStatusParse()
    ensures Parse(Frame(UNKNOWN_STATUS_MSG)).errId == 0 && Parse(Frame(UNKNOWN_STATUS_MSG)).body == UnknownStatus
  {
    HighDigits(UNKNOWN_STATUS_MSG.pack);
    BuiltFrame(UNKNOWN_STATUS_MSG);
  }

  lemma CdPowerOnParse()
    ensures Parse(Frame(CD_POWER_ON_MSG)).errId == 0 && Parse(Frame(CD_POWER_ON_MSG)).body == CdPowerOn
  {
    HighDigits(CD_POWER_ON_MSG.pack);
    BuiltFrame(CD_POWER_ON_MSG);
  }

  lemma StoppedDigits()
    ensures Digits(STOPPED_MSG) == [9, 9, 2, 0, 0, 0, 0, 0, 0, 0, 0, 0, 0, 0, 9]
  {
    hide Digit;
    LowDigits(STOPPED_MSG.pack);
    HighDigits(STOPPED_MSG.pack);
  }

  /** The stopped message says both stopped and play. */
  lemma StoppedParse()
    ensures Parse(Frame(STOPPED_MSG)).errId == 0
    ensures Parse(Frame(STOPPED_MSG)).body == PlayState(0, 0, 0, 0, false, false, false, false, true, false, true)
  {
    hide Digit, Digits, CheckSum;
    var f := Frame(STOPPED_MSG);
    BuiltFrame(STOPPED_MSG);
    StoppedDigits();
    assert f[2..] == Digits(STOPPED_MSG)[2..] + [CheckSum(Digits(STOPPED_MSG))];
  }
}
