// The other end of the bus: every message of the catalogue written out digit by digit and read back
// by the parser, and a head unit's waveform carried through the whole device to the application.
module HeadUnit {
  import opened Clock
  import opened PhySpec
  import opened FifoQueue
  import opened LinkSpec
  import opened LinkProofs
  import opened ReceiverProofs
  import opened AppSpec
  import opened DeviceSpec
  import opened BusProtocol
  import opened Output
  import opened Reception

  // ---- Writing a message ----

  function Tens(n: byte): byte {
    Hi(ToBcd(n))
  }

  function Units(n: byte): byte {
    Lo(ToBcd(n))
  }

  /** The digits of a message without its checksum, numbers in two digits, flags as bits of one. */
  function Encode(b: Body): seq<byte> {
    match b
    case NoBody => []
    case Ping => [1, 8]
    case SetPlayState(resume, stop, scanStop, fastReverse, fastForward, pause, play) =>
      [1, 1, 1, FromBits(resume, stop, false, scanStop), FromBits(fastReverse, fastForward, pause, play)]
    case HeadPowerOn => [1, 9]
    case SetDiskTrack(disk, track, pause, play, random) =>
      [1, 1, 3, Lo(disk), Tens(track), Units(track),
       FromBits(false, false, pause, play), FromBits(false, random, false, false)]
    case SetMode(repeatAll, repeatOne, _, random) =>
      [1, 1, 4, FromBits(repeatAll, repeatOne, false, false), FromBits(false, false, random, false), 0, 0, 0]
    case Pong => [9, 8]
    case AckWait => [9, 0xF, 0, 0, 0, 0, 0]
    case CdPowerOn => [9, 0xA, 0, 0, 0, 0, 0, 0, 0, 0, 0, 0]
    case Changing(disk, track, eject, noshuttle, busy, repeatAll, repeatOne, random, done) =>
      [9, 0xB, 9, Lo(disk), Tens(track), Units(track),
       FromBits(eject, false, noshuttle, busy), FromBits(repeatAll, repeatOne, false, false),
       FromBits(false, false, random, false), 0, FromBits(false, false, false, done)]
    case PlayState(track, index, minute, second, repeatAll, repeatOne, introScan, random, stopped, paused, play) =>
      [9, 9, 4, Tens(track), Units(track), Tens(index), Units(index)] +
      [Tens(minute), Units(minute), Tens(second), Units(second),
       FromBits(repeatAll, repeatOne, false, false), FromBits(introScan, false, random, false), 0,
       FromBits(stopped, false, paused, play)]
    case DiskInfo(disk, tracks, minutes, seconds, flags) =>
      [9, 0xC, Lo(disk), 0, 0, Tens(tracks), Units(tracks), Tens(minutes), Units(minutes),
       Tens(seconds), Units(seconds), Lo(flags)]
    case UnknownStatus => [9, 0xD, 0, 0, 0, 0, 0, 0, 0, 0]
  }

  function Checked(digits: seq<byte>): seq<byte> {
    digits + [CheckSum(digits)]
  }

  /** Two digits hold up to 159, one up to 15, and the intro-scan flag of setMode has no bit in a digit. */
  predicate Representable(b: Body) {
    match b
    case NoBody => false
    case SetDiskTrack(disk, track, _, _, _) => disk <= 15 && track <= 159
    case SetMode(_, _, introScan, _) => !introScan
    case Changing(disk, track, _, _, _, _, _, _, _) => disk <= 15 && track <= 159
    case PlayState(track, index, minute, second, _, _, _, _, _, _, _) =>
      track <= 159 && index <= 159 && minute <= 159 && second <= 159
    case DiskInfo(disk, tracks, minutes, seconds, flags) =>
      disk <= 15 && tracks <= 159 && minutes <= 159 && seconds <= 159 && flags <= 15
    case _ => true
  }

  predicate FromHead(b: Body) {
    b.Ping? || b.SetPlayState? || b.HeadPowerOn? || b.SetDiskTrack? || b.SetMode?
  }

  // ---- Reading it back ----

  lemma Flags(b3: bool, b2: bool, b1: bool, b0: bool)
    ensures var n := FromBits(b3, b2, b1, b0);
            && (n & 8 != 0) == b3 && (n & 4 != 0) == b2 && (n & 2 != 0) == b1 && (n & 1 != 0) == b0
            && n & 16 == 0 && n < 16
  {
  }

  lemma DigitsSmall(n: byte)
    ensures Hi(n) < 16 && Lo(n) < 16
    ensures Lo(n) == n <==> n <= 15
  {
  }

  /** Nibbles with a right checksum reach the body parsers. */
  lemma CheckedParse(digits: seq<byte>)
    requires AllNibbles(digits) && 2 <= |digits| <= 31
    ensures var f := Checked(digits);
            Parse(f) == if f[0] == 1 then HeadToCd(f) else if f[0] == 9 then CdToHead(f) else Rejected(ERR_DIRECTION, f)
  {
    hide HeadToCd, CdToHead;
    CheckSumIsNibble(digits);
    var f := Checked(digits);
    assert f[..|f| - 1] == digits;
    assert AllNibbles(f);
    NibblesAreNoSignal(f);
  }

  /** What is read back where a message was written: numbers carried through their digits. */
  function ReadBack(b: Body): Body {
    match b
    case SetDiskTrack(disk, track, pause, play, random) => SetDiskTrack(Lo(disk), Carried(track), pause, play, random)
    case SetMode(repeatAll, repeatOne, _, random) => SetMode(repeatAll, repeatOne, false, random)
    case Changing(disk, track, eject, noshuttle, busy, repeatAll, repeatOne, random, done) =>
      Changing(Lo(disk), Carried(track), eject, noshuttle, busy, repeatAll, repeatOne, random, done)
    case PlayState(track, index, minute, second, repeatAll, repeatOne, introScan, random, stopped, paused, play) =>
      PlayState(Carried(track), Carried(index), Carried(minute), Carried(second),
                repeatAll, repeatOne, introScan, random, stopped, paused, play)
    case DiskInfo(disk, tracks, minutes, seconds, flags) =>
      DiskInfo(Lo(disk), Carried(tracks), Carried(minutes), Carried(seconds), Lo(flags))
    case _ => b
  }

  lemma EncodedLength(b: Body)
    requires b != NoBody
    ensures 2 <= |Encode(b)| <= 15
  {
  }

  lemma SmallParts()
    ensures forall n: byte {:trigger Lo(n)} :: Lo(n) < 16
    ensures forall n: byte {:trigger Tens(n)} :: Tens(n) < 16
    ensures forall n: byte {:trigger Units(n)} :: Units(n) < 16
    ensures forall b3, b2, b1, b0 {:trigger FromBits(b3, b2, b1, b0)} :: FromBits(b3, b2, b1, b0) < 16
  {
    hide ToBcd;
  }

  lemma EncodedHeadNibbles(b: Body)
    requires FromHead(b)
    ensures AllNibbles(Encode(b))
  {
    hide Tens, Units, Lo, Hi, FromBits;
    SmallParts();
  }

  lemma NibblesConcat(a: seq<byte>, b: seq<byte>)
    requires AllNibbles(a) && AllNibbles(b)
    ensures AllNibbles(a + b)
  {
  }

  lemma SevenNibbles(a: byte, b: byte, c: byte, d: byte)
    requires a < 16 && b < 16 && c < 16 && d < 16
    ensures AllNibbles([9, 9, 4, a, b, c, d])
  {
  }

  lemma EightNibbles(a: byte, b: byte, c: byte, d: byte, e: byte, f: byte, g: byte)
    requires a < 16 && b < 16 && c < 16 && d < 16 && e < 16 && f < 16 && g < 16
    ensures AllNibbles([a, b, c, d, e, f, 0, g])
  {
  }

  lemma EncodedPlayState(b: Body)
    requires b.PlayState?
    ensures AllNibbles(Encode(b))
  {
    hide Tens, Units, Lo, Hi, FromBits, AllNibbles;
    SmallParts();
    var flags1 := FromBits(b.repeatAll, b.repeatOne, false, false);
    var flags2 := FromBits(b.introScan, false, b.random, false);
    var flags3 := FromBits(b.stopped, false, b.paused, b.play);
    SevenNibbles(Tens(b.track), Units(b.track), Tens(b.index), Units(b.index));
    EightNibbles(Tens(b.minute), Units(b.minute), Tens(b.second), Units(b.second), flags1, flags2, flags3);
    NibblesConcat([9, 9, 4, Tens(b.track), Units(b.track), Tens(b.index), Units(b.index)],
                  [Tens(b.minute), Units(b.minute), Tens(b.second), Units(b.second), flags1, flags2, 0, flags3]);
  }

  lemma EncodedCdNibbles(b: Body)
    requires !FromHead(b) && !b.PlayState?
    ensures AllNibbles(Encode(b))
  {
    hide Tens, Units, Lo, Hi, FromBits;
    SmallParts();
  }

  lemma EncodedNibbles(b: Body)
    ensures AllNibbles(Encode(b))
  {
    hide *;
    if FromHead(b) {
      EncodedHeadNibbles(b);
    } else if b.PlayState? {
      EncodedPlayState(b);
    } else {
      EncodedCdNibbles(b);
    }
  }

  /** One flag digit among the rest. */
  lemma AllFlags()
    ensures forall b3, b2, b1, b0 {:trigger FromBits(b3, b2, b1, b0)} ::
              var n := FromBits(b3, b2, b1, b0);
              && (n & 8 != 0) == b3 && (n & 4 != 0) == b2 && (n & 2 != 0) == b1 && (n & 1 != 0) == b0 && n & 16 == 0
  {
    forall b3, b2, b1, b0 ensures var n := FromBits(b3, b2, b1, b0);
                                  && (n & 8 != 0) == b3 && (n & 4 != 0) == b2 && (n & 2 != 0) == b1
                                  && (n & 1 != 0) == b0 && n & 16 == 0 {
      Flags(b3, b2, b1, b0);
    }
  }

  lemma HeadBack(b: Body)
    requires FromHead(b)
    ensures var f := Checked(Encode(b)); HeadToCd(f) == RxMsg(0, f, true, ReadBack(b))
  {
    AllFlags();
    hide FromBits, CheckSum, ToBcd, Hi, Lo, NibblePair;
  }

  lemma PlayStateBack(b: Body)
    requires b.PlayState?
    ensures var f := Checked(Encode(b)); CdToHead(f) == RxMsg(0, f, false, ReadBack(b))
  {
    AllFlags();
    hide FromBits, CheckSum, ToBcd, Hi, Lo, NibblePair;
  }

  lemma ChangingBack(b: Body)
    requires b.Changing?
    ensures var f := Checked(Encode(b)); CdToHead(f) == RxMsg(0, f, false, ReadBack(b))
  {
    AllFlags();
    hide FromBits, CheckSum, ToBcd, Hi, Lo, NibblePair;
  }

  lemma CdBack(b: Body)
    requires !FromHead(b) && b != NoBody
    ensures var f := Checked(Encode(b)); CdToHead(f) == RxMsg(0, f, false, ReadBack(b))
  {
    hide CheckSum, ToBcd, Hi, Lo, NibblePair, FromBits;
    if b.PlayState? {
      PlayStateBack(b);
    } else if b.Changing? {
      ChangingBack(b);
    }
  }

  lemma ReadBackExact(b: Body)
    requires b != NoBody
    ensures ReadBack(b) == b <==> Representable(b)
  {
    hide ToBcd, Hi, Lo, NibblePair;
    forall n ensures Carried(n) == n <==> n <= 159 {
      BcdRoundTrip(n);
    }
    forall n ensures Lo(n) == n <==> n <= 15 {
      DigitsSmall(n);
    }
  }

  /** Every message is read back, with its direction and all its fields, exactly when they fit its digits. */
  lemma EveryMessageReadBack(b: Body)
    ensures var f := Checked(Encode(b));
            Parse(f) == RxMsg(0, f, FromHead(b), b) <==> Representable(b)
  {
    if b == NoBody {
      assert Parse(Checked(Encode(b))).errId == ERR_LENGTH;
    } else {
      EncodedNibbles(b);
      EncodedLength(b);
      CheckedParse(Encode(b));
      assert Checked(Encode(b))[0] == Encode(b)[0];
      ReadBackExact(b);
      FirstDigit(b);
      if FromHead(b) {
        HeadBack(b);
      } else {
        CdBack(b);
      }
      hide *;
    }
  }

  /** A number in two digits, whatever the second. */
  predicate Pair(n: byte, hi: byte, lo: byte) {
    n == hi * 10 + lo
  }

  /** The fields of a body are these digits of the frame; bits of a digit not named here do not matter. */
  predicate ReadFrom(b: Body, s: seq<byte>) {
    match b
    case SetPlayState(resume, stop, scanStop, fastReverse, fastForward, pause, play) =>
      && |s| == 6 && s[3] & 13 == FromBits(resume, stop, false, scanStop)
      && s[4] == FromBits(fastReverse, fastForward, pause, play)
    case SetDiskTrack(disk, track, pause, play, random) =>
      && |s| == 9 && s[3] == disk && Pair(track, s[4], s[5])
      && s[6] & 3 == FromBits(false, false, pause, play) && s[7] & 4 == FromBits(false, random, false, false)
    case SetMode(repeatAll, repeatOne, introScan, random) =>
      && |s| == 9 && s[3] & 12 == FromBits(repeatAll, repeatOne, false, false) && !introScan
      && s[4] & 2 == FromBits(false, false, random, false)
    case Changing(disk, track, eject, noshuttle, busy, repeatAll, repeatOne, random, done) =>
      && |s| == 12 && s[3] == disk && Pair(track, s[4], s[5])
      && s[6] & 11 == FromBits(eject, false, noshuttle, busy)
      && s[7] & 12 == FromBits(repeatAll, repeatOne, false, false)
      && s[8] & 2 == FromBits(false, false, random, false) && s[10] & 1 == FromBits(false, false, false, done)
    case PlayState(track, index, minute, second, repeatAll, repeatOne, introScan, random, stopped, paused, play) =>
      && |s| == 16 && Pair(track, s[3], s[4]) && Pair(index, s[5], s[6])
      && Pair(minute, s[7], s[8]) && Pair(second, s[9], s[10])
      && s[11] & 12 == FromBits(repeatAll, repeatOne, false, false)
      && s[12] & 10 == FromBits(introScan, false, random, false)
      && s[14] & 11 == FromBits(stopped, false, paused, play)
    case DiskInfo(disk, tracks, minutes, seconds, flags) =>
      && |s| == 13 && s[2] == disk && Pair(tracks, s[5], s[6]) && Pair(minutes, s[7], s[8])
      && Pair(seconds, s[9], s[10]) && s[11] == flags
    case _ => true
  }

  /** Which message it is: decided by the direction and the command digits alone. */
  predicate Names(s: seq<byte>, b: Body)
    requires |s| >= 3
  {
    match b
    case NoBody => false
    case Ping => s[0] == 1 && s[1] == 8
    case HeadPowerOn => s[0] == 1 && s[1] == 9
    case SetPlayState(_, _, _, _, _, _, _) => s[0] == 1 && s[1] == 1 && s[2] == 1
    case SetDiskTrack(_, _, _, _, _) => s[0] == 1 && s[1] == 1 && s[2] == 3
    case SetMode(_, _, _, _) => s[0] == 1 && s[1] == 1 && s[2] == 4
    case Pong => s[0] == 9 && s[1] == 8
    case PlayState(_, _, _, _, _, _, _, _, _, _, _) => s[0] == 9 && s[1] == 9
    case CdPowerOn => s[0] == 9 && s[1] == 0xA
    case Changing(_, _, _, _, _, _, _, _, _) => s[0] == 9 && s[1] == 0xB
    case DiskInfo(_, _, _, _, _) => s[0] == 9 && s[1] == 0xC
    case UnknownStatus => s[0] == 9 && s[1] == 0xD
    case AckWait => s[0] == 9 && s[1] == 0xF
  }

  lemma ReadBits(n: byte)
    requires n < 16
    ensures n == FromBits(n & 8 != 0, n & 4 != 0, n & 2 != 0, n & 1 != 0) && n & 16 == 0
    ensures n & 13 == FromBits(n & 8 != 0, n & 4 != 0, false, n & 1 != 0)
    ensures n & 12 == FromBits(n & 8 != 0, n & 4 != 0, false, false)
    ensures n & 11 == FromBits(n & 8 != 0, false, n & 2 != 0, n & 1 != 0)
    ensures n & 10 == FromBits(n & 8 != 0, false, n & 2 != 0, false)
    ensures n & 4 == FromBits(false, n & 4 != 0, false, false)
    ensures n & 3 == FromBits(false, false, n & 2 != 0, n & 1 != 0)
    ensures n & 2 == FromBits(false, false, n & 2 != 0, false) && n & 1 == FromBits(false, false, false, n & 1 != 0)
  {
  }

  lemma SetPlayStateRead(s: seq<byte>)
    requires AllNibbles(s) && |s| == 6
    ensures ReadFrom(ParseSetPlayState(s[3..]), s)
  {
    ReadBits(s[3]);
    ReadBits(s[4]);
    hide FromBits;
  }

  lemma SetDiskTrackRead(s: seq<byte>)
    requires AllNibbles(s) && |s| == 9
    ensures ReadFrom(ParseSetDiskTrack(s[3..]), s)
  {
    ReadBits(s[6]);
    ReadBits(s[7]);
    hide FromBits;
  }

  lemma SetModeRead(s: seq<byte>)
    requires AllNibbles(s) && |s| == 9
    ensures ReadFrom(ParseSetMode(s[3..]), s)
  {
    ReadBits(s[3]);
    ReadBits(s[4]);
    hide FromBits;
  }

  lemma ChangingRead(s: seq<byte>)
    requires AllNibbles(s) && |s| == 12
    ensures ReadFrom(ParseChanging(s[2..]), s)
  {
    ReadBits(s[6]);
    ReadBits(s[7]);
    ReadBits(s[8]);
    ReadBits(s[10]);
    hide FromBits;
  }

  lemma PlayStateRead(s: seq<byte>)
    requires AllNibbles(s) && |s| == 16
    ensures ReadFrom(ParsePlayState(s[2..]), s)
  {
    ReadBits(s[11]);
    ReadBits(s[12]);
    ReadBits(s[14]);
    hide FromBits;
  }

  lemma DiskInfoRead(s: seq<byte>)
    requires |s| == 13
    ensures ReadFrom(ParseDiskInfo(s[2..]), s)
  {
  }

  lemma FieldlessRead(b: Body, s: seq<byte>)
    requires b.NoBody? || b.Ping? || b.HeadPowerOn? || b.Pong? || b.AckWait? || b.CdPowerOn? || b.UnknownStatus?
    ensures ReadFrom(b, s)
  {
  }

  /**
   * Whoever wrote it: any accepted frame of nibbles is the message its command names, and its fields
   * are read off these digits, whatever the other bits and digits are, and whether or not the second
   * digit of a number is above nine.
   */
  lemma EveryFrameRead(s: seq<byte>)
    requires AllNibbles(s) && Parse(s).errId == 0
    ensures |s| >= 3 && Names(s, Parse(s).body) && ReadFrom(Parse(s).body, s)
  {
    AcceptsExactly(s);
    hide ReadFrom, AllNibbles, CheckSum, IsSignal, NibblePair;
    match Parse(s).body
    case SetPlayState(_, _, _, _, _, _, _) => SetPlayStateRead(s);
    case SetDiskTrack(_, _, _, _, _) => SetDiskTrackRead(s);
    case SetMode(_, _, _, _) => SetModeRead(s);
    case Changing(_, _, _, _, _, _, _, _, _) => ChangingRead(s);
    case PlayState(_, _, _, _, _, _, _, _, _, _, _) => PlayStateRead(s);
    case DiskInfo(_, _, _, _, _) => DiskInfoRead(s);
    case _ => FieldlessRead(Parse(s).body, s);
  }

  lemma FirstDigit(b: Body)
    requires b != NoBody
    ensures Encode(b) != [] && Encode(b)[0] == if FromHead(b) then 1 else 9
  {
  }

  // ---- Through the device ----

  /** What the application should hear when `b` is said. */
  function Said(b: Body): RxMsg {
    RxMsg(0, Checked(Encode(b)), FromHead(b), b)
  }

  function SaidAll(bs: seq<Body>): seq<RxMsg> {
    if bs == [] then [] else [Said(bs[0])] + SaidAll(bs[1..])
  }

  function SpeechSymbols(bs: seq<Body>): seq<byte> {
    if bs == [] then [] else (Checked(Encode(bs[0])) + [END]) + SpeechSymbols(bs[1..])
  }

  lemma FrameIsShort(b: Body)
    requires Representable(b)
    ensures AllNibbles(Checked(Encode(b))) && 3 <= |Checked(Encode(b))| <= 16
  {
    EncodedNibbles(b);
    EncodedLength(b);
    CheckSumIsNibble(Encode(b));
    hide CheckSum, Encode;
  }

  lemma NibblesAreClean(s: seq<byte>)
    requires AllNibbles(s)
    ensures END !in s && Clean(s) && Clean(s + [END])
  {
    assert forall b :: b in s + [END] ==> b in s || b == END;
  }

  lemma MessageSplits(b: Body)
    requires Representable(b)
    ensures var f := Checked(Encode(b));
            SplitAt([], f + [END]) == Split([f], []) && Fit([], f + [END]) && Clean(f + [END])
            && ParseAll([f]) == [Said(b)]
  {
    FrameIsShort(b);
    EveryMessageReadBack(b);
    hide Checked, Encode, Parse, SplitAt, Fit, Clean;
    NibblesAreClean(Checked(Encode(b)));
    EndSplits(Checked(Encode(b)));
  }

  lemma {:induction false} SpeechSplits(bs: seq<Body>)
    requires forall b | b in bs :: Representable(b)
    ensures var s := SpeechSymbols(bs);
            && SplitAt([], s).open == [] && ParseAll(SplitAt([], s).frames) == SaidAll(bs)
            && Fit([], s) && Clean(s)
  {
    hide Checked, Encode, Parse, Said;
    if bs == [] {
      assert ParseAll([]) == [];
    } else {
      var s := Checked(Encode(bs[0])) + [END];
      MessageSplits(bs[0]);
      SpeechSplits(bs[1..]);
      SplitConcat([], s, SpeechSymbols(bs[1..]));
      ParseAllConcat([Checked(Encode(bs[0]))], SplitAt([], SpeechSymbols(bs[1..])).frames);
    }
  }

  /**
   * However the receiver came to the symbols of these messages, at the end of the run the application
   * has heard them, each once and in order, and carried out or queued what they ask for.
   */
  lemma SymbolsHeard(d: Device, now: Micros, inputs: seq<Input>, bs: seq<Body>)
    requires Attentive(d) && (forall b | b in bs :: Representable(b))
    requires RxRun(d.phy.rx, Seen(now, inputs)).out == SpeechSymbols(bs)
    ensures FramesFit(d, now, inputs)
    ensures var end, log := Run(d, now, inputs), LogOf(d, now, inputs);
            && log.heard == SaidAll(bs)
            && Understood(d.app, SaidAll(bs)) == end.app.(cmds := log.carriedOut + end.app.cmds)
            && end.rxFifo == [] && end.link.frame == [] && QueuesOk(end)
            && end.phy.rx == RxRun(d.phy.rx, Seen(now, inputs)).rx
  {
    SpeechSplits(bs);
    hide SpeechSymbols, SplitAt, Fit, Understood, RxRun, Run, LogOf, SaidAll, Parse, QueuesOk;
    CleanRun(d, now, inputs);
  }

  // ---- A head unit on the wire ----

  /** A message as it is sent: its pulses, and the samples of the line while it stays high after them. */
  datatype Utterance = Utterance(train: seq<Pulse>, highs: seq<Micros>, body: Body)

  /** Within the waveform tolerance, and followed by a gap. */
  ghost predicate Spoken(u: Utterance) {
    && Representable(u.body) && Nibbles(u.train) == Checked(Encode(u.body))
    && |u.train| % 4 == 0 && u.train != [] && (forall p | p in u.train :: InTolerance(p))
    && exists t :: t in u.highs && Elapsed(t, u.train[|u.train| - 1].rise) > 3100
  }

  function UtteranceSamples(u: Utterance): seq<Sample> {
    TrainSamples(u.train) + Samples(u.highs, true)
  }

  function SpeechSamples(us: seq<Utterance>): seq<Sample> {
    if us == [] then [] else UtteranceSamples(us[0]) + SpeechSamples(us[1..])
  }

  function Bodies(us: seq<Utterance>): (bs: seq<Body>)
    ensures |bs| == |us| && forall i | 0 <= i < |us| :: bs[i] == us[i].body
  {
    if us == [] then [] else [us[0].body] + Bodies(us[1..])
  }

  lemma TrainPushed(rx: Rx, u: Utterance)
    requires AtRest(rx) && Spoken(u)
    ensures var r := RxRun(rx, TrainSamples(u.train));
            && r.out == Checked(Encode(u.body)) && r.rx.state == RxNibbleEnded
            && exists t :: t in u.highs && Elapsed(t, r.rx.stamp) > 3100
  {
    hide Checked, Encode, Nibbles, InTolerance, RxRun, TrainSamples, Elapsed, Representable;
    DecodesTrain(rx, u.train);
  }

  lemma UtterancePushed(rx: Rx, u: Utterance)
    requires AtRest(rx) && Spoken(u)
    ensures var r := RxRun(rx, UtteranceSamples(u));
            r.out == Checked(Encode(u.body)) + [END] && AtRest(r.rx)
  {
    hide Checked, Encode, RxRun, TrainSamples, Samples, Elapsed, Spoken;
    TrainPushed(rx, u);
    QuietAfterNibble(RxRun(rx, TrainSamples(u.train)).rx, u.highs);
    RxRunConcat(rx, TrainSamples(u.train), Samples(u.highs, true));
  }

  lemma {:induction false} SpeechPushed(rx: Rx, us: seq<Utterance>)
    requires AtRest(rx) && forall u | u in us :: Spoken(u)
    ensures var r := RxRun(rx, SpeechSamples(us));
            r.out == SpeechSymbols(Bodies(us)) && AtRest(r.rx)
    decreases |us|
  {
    hide Checked, Encode, Spoken, UtteranceSamples, RxStep, AtRest;
    if us != [] {
      UtterancePushed(rx, us[0]);
      var r := RxRun(rx, UtteranceSamples(us[0]));
      SpeechPushed(r.rx, us[1..]);
      RxRunConcat(rx, UtteranceSamples(us[0]), SpeechSamples(us[1..]));
    }
  }

  /**
   * Whatever a head unit says within the waveform tolerance, message after message, however often it
   * is sampled, whatever the device is sending and whatever its application does meanwhile: the
   * application hears exactly that, and carries out or queues exactly what it asks for.
   */
  lemma HeadUnitHeard(d: Device, now: Micros, inputs: seq<Input>, us: seq<Utterance>)
    requires Attentive(d) && (forall u | u in us :: Spoken(u))
    requires Seen(now, inputs) == SpeechSamples(us)
    ensures FramesFit(d, now, inputs)
    ensures var end, log := Run(d, now, inputs), LogOf(d, now, inputs);
            && log.heard == SaidAll(Bodies(us))
            && Understood(d.app, SaidAll(Bodies(us))) == end.app.(cmds := log.carriedOut + end.app.cmds)
            && Attentive(end)
  {
    SpeechPushed(d.phy.rx, us);
    SpokenBodies(us);
    hide Spoken, SpeechSamples, SpeechSymbols, Bodies, Understood, RxRun, Run, LogOf, SaidAll, QueuesOk;
    SymbolsHeard(d, now, inputs, Bodies(us));
  }

  lemma SpokenBodies(us: seq<Utterance>)
    requires forall u | u in us :: Spoken(u)
    ensures forall b | b in Bodies(us) :: Representable(b)
  {
    forall i | 0 <= i < |us| ensures Representable(Bodies(us)[i]) {
      assert Spoken(us[i]);
    }
  }

  // ---- One message ----

  /** A run in which the device is shown one message. */
  ghost predicate Shown(d: Device, now: Micros, inputs: seq<Input>, u: Utterance) {
    Attentive(d) && Spoken(u) && Seen(now, inputs) == UtteranceSamples(u)
  }

  lemma OneHeard(d: Device, now: Micros, inputs: seq<Input>, u: Utterance)
    requires Shown(d, now, inputs, u)
    ensures FramesFit(d, now, inputs)
    ensures var end, log := Run(d, now, inputs), LogOf(d, now, inputs);
            && log.heard == [Said(u.body)]
            && Understood(d.app, [Said(u.body)]) == end.app.(cmds := log.carriedOut + end.app.cmds)
            && Attentive(end)
  {
    assert [u][1..] == [] && UtteranceSamples(u) + [] == UtteranceSamples(u);
    assert Bodies([u]) == [u.body] && SaidAll([u.body]) == [Said(u.body)] by {
      assert [u.body][1..] == [];
    }
    hide Understood, RxRun, Run, LogOf, QueuesOk, Said, Spoken, UtteranceSamples, SaidAll, Bodies;
    HeadUnitHeard(d, now, inputs, [u]);
  }

  lemma {:induction false} SeenPrefix(now: Micros, inputs: seq<Input>, k: nat)
    requires k <= |inputs|
    ensures |Seen(now, inputs)| == |inputs| && Seen(now, inputs[..k]) == Seen(now, inputs)[..k]
    decreases |inputs|
  {
    if inputs != [] {
      var next := Advance(now, inputs[0].gap);
      SeenPrefix(next, inputs[1..], if k == 0 then 0 else k - 1);
      if k > 0 {
        assert inputs[..k][1..] == inputs[1..][..k - 1];
      }
    }
  }

  lemma SeenBefore(now: Micros, inputs: seq<Input>, u: Utterance)
    requires Seen(now, inputs) == UtteranceSamples(u) && |u.highs| == 1
    ensures inputs != [] && Seen(now, inputs[..|inputs| - 1]) == TrainSamples(u.train)
  {
    hide TrainSamples;
    SeenPrefix(now, inputs, |inputs|);
    SeenPrefix(now, inputs, |inputs| - 1);
    assert Samples(u.highs, true) == [Sample(u.highs[0], true)];
  }

  lemma NibblesCollected(d: Device, now: Micros, inputs: seq<Input>)
    requires Attentive(d)
    requires var out := RxRun(d.phy.rx, Seen(now, inputs)).out; AllNibbles(out) && |out| < NIBBLE_ARRAY_SIZE
    ensures FramesFit(d, now, inputs) && LogOf(d, now, inputs).heard == []
    ensures var end := Run(d, now, inputs);
            var r := RxRun(d.phy.rx, Seen(now, inputs));
            && QueuesOk(end) && end.rxFifo == [] && end.link.frame == r.out && end.phy.rx == r.rx
            && d.app == end.app.(cmds := LogOf(d, now, inputs).carriedOut + end.app.cmds)
  {
    IsAttentive(d);
    NothingUnderstood(d.app);
    hide Understood, RxRun, Run, LogOf, QueuesOk, Parse, SplitAt, Fit;
    var out := RxRun(d.phy.rx, Seen(now, inputs)).out;
    NibblesAreClean(out);
    NoEndSplits([], out);
    assert [] + out == out;
    CleanRun(d, now, inputs);
    assert ParseAll([]) == [];
  }

  lemma IsAttentive(d: Device)
    requires Attentive(d)
    ensures AppOk(d.app)
  {
  }

  /** The turn that looks at the line after the gap: END is pushed, consumed, and closes the frame. */
  lemma GapTurn(d: Device, at: Micros, b: Body)
    requires QueuesOk(d) && d.rxFifo == [] && d.link.frame == Checked(Encode(b)) && Representable(b)
    requires d.phy.rx.state == RxNibbleEnded && Elapsed(at, d.phy.rx.stamp) > 3100
    ensures FrameRoom(d.link) && HeardIn(d, at, true) == [Said(b)]
  {
    FrameIsShort(b);
    MessageSplits(b);
    OneEnd(d.link.frame);
    GapCloses(d.phy.rx, at);
    assert Consumed(d, at, true) == [END];
    hide RxStep, Consumed, SplitAt, Parse, Checked, Encode, Understood, Turn, QueuesOk, HeardIn, CarriedOutIn;
    TurnReceives(d, at, true, []);
  }

  lemma GapCloses(rx: Rx, at: Micros)
    requires rx.state == RxNibbleEnded && Elapsed(at, rx.stamp) > 3100
    ensures RxStep(rx, at, true) == RxResult(Rx(RxIdle, RX_SHIFTER_INIT, rx.stamp), [END])
  {
  }

  lemma OnlyHigh(highs: seq<Micros>, since: Micros)
    requires |highs| == 1 && exists t :: t in highs && Elapsed(t, since) > 3100
    ensures Elapsed(highs[0], since) > 3100
  {
    hide Elapsed;
    assert highs == [highs[0]];
  }

  /** After the pulses: the frame collected, nothing heard, the receiver waiting for the gap. */
  lemma AfterPulses(d: Device, now: Micros, inputs: seq<Input>, u: Utterance)
    requires Attentive(d) && Spoken(u) && Seen(now, inputs) == TrainSamples(u.train)
    ensures FramesFit(d, now, inputs) && LogOf(d, now, inputs).heard == []
    ensures var end := Run(d, now, inputs);
            && QueuesOk(end) && end.rxFifo == [] && end.link.frame == Checked(Encode(u.body))
            && end.phy.rx.state == RxNibbleEnded
            && (exists t :: t in u.highs && Elapsed(t, end.phy.rx.stamp) > 3100)
            && d.app == end.app.(cmds := LogOf(d, now, inputs).carriedOut + end.app.cmds)
  {
    SpokenIsShort(u);
    TrainPushed(d.phy.rx, u);
    hide RxRun, Run, LogOf, QueuesOk, Spoken, TrainSamples, Checked, Encode, Elapsed;
    NibblesCollected(d, now, inputs);
  }

  /** It is heard in the very turn that looks at the line after the gap, and nothing is heard before. */
  lemma HeardInItsTurn(d: Device, now: Micros, inputs: seq<Input>, u: Utterance)
    requires Shown(d, now, inputs, u) && |u.highs| == 1
    ensures inputs != [] && FramesFit(d, now, inputs[..|inputs| - 1])
    ensures var before := inputs[..|inputs| - 1];
            var d1 := Run(d, now, before);
            && LogOf(d, now, before).heard == []
            && d.app == d1.app.(cmds := LogOf(d, now, before).carriedOut + d1.app.cmds)
            && QueuesOk(d1) && FrameRoom(d1.link) && HeardIn(d1, u.highs[0], true) == [Said(u.body)]
  {
    SeenBefore(now, inputs, u);
    SpokenIsShort(u);
    hide Run, LogOf, QueuesOk, Said, Spoken, UtteranceSamples, TrainSamples, Checked, Encode, Elapsed, HeardIn, Seen,
         Attentive, FramesFit;
    var before := inputs[..|inputs| - 1];
    AfterPulses(d, now, before, u);
    OnlyHigh(u.highs, Run(d, now, before).phy.rx.stamp);
    GapTurn(Run(d, now, before), u.highs[0], u.body);
  }

  lemma SpokenIsShort(u: Utterance)
    requires Spoken(u)
    ensures Representable(u.body)
    ensures AllNibbles(Checked(Encode(u.body))) && 3 <= |Checked(Encode(u.body))| <= 16
  {
    FrameIsShort(u.body);
  }

  // ---- What a message asks for ----

  /** Stop, pause and play, 6, 5 and 4 in the source's enumeration, in this order, whatever the other flags. */
  lemma AsksToPlay(a: App, b: Body)
    requires AppOk(a) && b.SetPlayState?
    ensures Understood(a, [Said(b)]) ==
            a.(cmds := a.cmds + ((if b.stop then [6] else []) + (if b.pause then [5] else []) +
                                 (if b.play then [4] else [])))
  {
    hide Checked, Encode;
    BothQueue([], PlayCommands(b.stop, b.pause, b.play));
    assert [Said(b)][1..] == [];
  }

  /**
   * A track of this disk, or of disk zero: one step towards it the short way round, with the command
   * for that step: 13, next, if that way is forward, and 14, prev, otherwise, even on the track itself.
   */
  lemma AsksForTrack(a: App, b: Body)
    requires AppOk(a) && b.SetDiskTrack? && (b.disk == 0 || b.disk == a.disk)
    ensures var u := Understood(a, [Said(b)]);
            var n, target := a.numTracks, Target(b.track as int, a.numTracks);
            && u == a.(track := u.track, cmds := u.cmds) && u.track < n
            && u.track == ShortWay(a.track, target, n)
            && CircleDistance(u.track, target, n) ==
               (if a.track == target then 0 else CircleDistance(a.track, target, n) - 1)
            && u.cmds == a.cmds + [if Around(a.track, target, n) < Around(target, a.track, n) then 13 else 14]
  {
    StepsCloser(a.track, b.track as int, a.numTracks);
    AtNoDistance(a.track, Target(b.track as int, a.numTracks), a.numTracks);
    hide Checked, Encode, CircleDistance, Target, Around, TrackOffset, StepTrack, ShortWay;
    BothQueue([], [StepTrack(a.track, b.track as int, a.numTracks).1]);
    assert [Said(b)][1..] == [];
  }

  /**
   * Another disk: the command is the disk's number less one beyond 7, that of disk one. Disks one to
   * six so get their own commands 7 to 12; seven is queued as 13, next, eight as 14, prev, and the rest
   * as commands that do not exist.
   */
  lemma AsksForDisk(a: App, b: Body)
    requires AppOk(a) && b.SetDiskTrack? && b.disk != 0 && b.disk != a.disk
    ensures 1 <= b.disk as int
    ensures Understood(a, [Said(b)]) == a.(cmds := a.cmds + [7 + (b.disk as int - 1)])
    ensures 7 + (b.disk as int - 1) <= 12 <==> b.disk <= 6
    ensures (7 + (b.disk as int - 1) == NEXT <==> b.disk == 7) && (7 + (b.disk as int - 1) == PREV <==> b.disk == 8)
  {
    hide Checked, Encode;
    BothQueue([], [SwitchTo(b.disk)]);
    assert [Said(b)][1..] == [];
    AsInts(0, b.disk);
    AsInts(b.disk, 7);
    AsInts(7, b.disk);
    AsInts(b.disk, 8);
    AsInts(8, b.disk);
  }

  lemma AsksForPong(a: App)
    requires AppOk(a)
    ensures Understood(a, [Said(Ping)]) == a.(cmds := a.cmds + [2])
  {
    hide Checked, Encode;
    BothQueue([], [PING]);
    assert [Said(Ping)][1..] == [];
  }

  /** A power-on, a mode and a changer's own messages ask for nothing. */
  lemma AsksForNothing(a: App, b: Body)
    requires AppOk(a) && (b.HeadPowerOn? || b.SetMode? || !FromHead(b))
    ensures Understood(a, [Said(b)]) == a
  {
    hide Checked, Encode;
    assert [Said(b)][1..] == [] && a.cmds + [] == a.cmds;
  }

  /** From power-up, on track 0 of 16: up to seven tracks on are reached forward, all others backwards. */
  lemma FirstTrackRequest(b: Body)
    requires b.SetDiskTrack? && (b.disk == 0 || b.disk == 3)
    ensures var target := (b.track as int - 1) % 16;
            Understood(APP_START, [Said(b)]) ==
            if target == 0 then App(3, 16, 0, [14])
            else if target < 8 then App(3, 16, 1, [13])
            else App(3, 16, 15, [14])
  {
    AsksForTrack(APP_START, b);
    hide Understood, Said, CircleDistance;
    var target := (b.track as int - 1) % 16;
    SmallModulo(-target, 16);
    SmallModulo(target, 16);
  }

  // ---- The head unit's requests on the wire ----

  /** The commands carried out in a run, followed by those that still wait. */
  function Commands(d: Device, now: Micros, inputs: seq<Input>): seq<Cmd>
    requires QueuesOk(d) && FramesFit(d, now, inputs)
  {
    LogOf(d, now, inputs).carriedOut + Run(d, now, inputs).app.cmds
  }

  lemma ShownIsOk(d: Device, now: Micros, inputs: seq<Input>, u: Utterance)
    requires Shown(d, now, inputs, u)
    ensures QueuesOk(d) && AppOk(d.app)
  {
  }

  /** Stop, pause and play become these commands, in this order, behind those that waited. */
  lemma PlayRequest(d: Device, now: Micros, inputs: seq<Input>, u: Utterance)
    requires Shown(d, now, inputs, u) && u.body.SetPlayState?
    ensures FramesFit(d, now, inputs)
    ensures Commands(d, now, inputs) ==
            d.app.cmds + (When(u.body.stop, STOP) + When(u.body.pause, PAUSE) + When(u.body.play, PLAY))
    ensures Run(d, now, inputs).app.track == d.app.track
  {
    ShownIsOk(d, now, inputs, u);
    AsksToPlay(d.app, u.body);
    hide *;
    OneHeard(d, now, inputs, u);
  }

  /** A track request moves the track one step the short way round and becomes the command for that step. */
  lemma TrackRequest(d: Device, now: Micros, inputs: seq<Input>, u: Utterance)
    requires Shown(d, now, inputs, u) && u.body.SetDiskTrack? && (u.body.disk == 0 || u.body.disk == d.app.disk)
    requires AppOk(d.app)
    ensures FramesFit(d, now, inputs)
    ensures var n, target := d.app.numTracks, Target(u.body.track as int, d.app.numTracks);
            var track, track' := d.app.track, Run(d, now, inputs).app.track;
            && track' < n && track' == ShortWay(track, target, n)
            && CircleDistance(track', target, n) ==
               (if track == target then 0 else CircleDistance(track, target, n) - 1)
            && Commands(d, now, inputs) ==
               d.app.cmds + [if Around(track, target, n) < Around(target, track, n) then NEXT else PREV]
  {
    ShownIsOk(d, now, inputs, u);
    AsksForTrack(d.app, u.body);
    hide *;
    OneHeard(d, now, inputs, u);
  }

  /** A request for another disk becomes the command so many beyond the first disk's. */
  lemma DiskRequest(d: Device, now: Micros, inputs: seq<Input>, u: Utterance)
    requires Shown(d, now, inputs, u) && u.body.SetDiskTrack? && u.body.disk != 0 && u.body.disk != d.app.disk
    ensures FramesFit(d, now, inputs) && 1 <= u.body.disk as int
    ensures Commands(d, now, inputs) == d.app.cmds + [SWITCH_DISK_1 + (u.body.disk as int - 1)]
    ensures Run(d, now, inputs).app.track == d.app.track
    ensures SWITCH_DISK_1 + (u.body.disk as int - 1) < NEXT <==> u.body.disk <= 6
    ensures SWITCH_DISK_1 + (u.body.disk as int - 1) == NEXT <==> u.body.disk == 7
    ensures SWITCH_DISK_1 + (u.body.disk as int - 1) == PREV <==> u.body.disk == 8
  {
    ShownIsOk(d, now, inputs, u);
    AsksForDisk(d.app, u.body);
    hide *;
    OneHeard(d, now, inputs, u);
  }

  /**
   * The application knows a reply to a power-on, but its decoder never asks for it. Neither that nor
   * a mode nor a changer's message becomes a command or moves the track.
   */
  lemma NothingRequested(d: Device, now: Micros, inputs: seq<Input>, u: Utterance)
    requires Shown(d, now, inputs, u) && (u.body.HeadPowerOn? || u.body.SetMode? || !FromHead(u.body))
    ensures FramesFit(d, now, inputs)
    ensures Commands(d, now, inputs) == d.app.cmds && Run(d, now, inputs).app.track == d.app.track
  {
    ShownIsOk(d, now, inputs, u);
    AsksForNothing(d.app, u.body);
    hide *;
    OneHeard(d, now, inputs, u);
  }

  // ---- The answer to a ping ----

  /** Whenever a ping is carried out and the link's queue has room, the pong is accepted first. */
  lemma PongAccepted(d: Device, at: Micros, hi: bool, sends: seq<TxMsg>)
    requires QueuesOk(d) && FrameRoom(d.link) && CarriedOutIn(d, at, hi) == [PING]
    requires |BusTurn(d, at, hi).link.txMsgs| < 16
    ensures var accepted := AcceptedInTurn(d, at, hi, sends); accepted != [] && accepted[0] == PING_MSG
  {
    BusKeepsApp(d, at, hi);
    hide BusTurn, Decode;
    var d4 := DecodeTurn(BusTurn(d, at, hi));
    assert d4.app.cmds != [] && [d4.app.cmds[0]] == [PING];
    var more := Replies(PING) + sends;
    assert more[0] == PING_MSG && Accepted(d4, sends) == Fitting(d4.link.txMsgs, more, TX_MSG_MAX);
  }

  lemma BusKeepsApp(d: Device, at: Micros, hi: bool)
    requires QueuesOk(d) && FrameRoom(d.link)
    ensures AppOk(BusTurn(d, at, hi).app)
  {
  }

  /** With no command waiting, the ping is carried out in the turn it is heard in. */
  lemma PingInItsTurn(d: Device, at: Micros, hi: bool)
    requires QueuesOk(d) && FrameRoom(d.link) && d.app.cmds == []
    requires HeardIn(d, at, hi) == [Said(Ping)]
    ensures CarriedOutIn(d, at, hi) == [PING]
  {
    TurnReceives(d, at, hi, []);
    AsksForPong(d.app);
    AtMostOne(d, at, hi);
    hide BusTurn, Decode, Understood, Said, RxStep, SplitAt, Turn;
    assert [] + [PING] == [PING];
    var cmds := CarriedOutIn(d, at, hi) + Turn(d, at, hi, []).app.cmds;
    assert cmds == [PING];
  }

  lemma AtMostOne(d: Device, at: Micros, hi: bool)
    requires QueuesOk(d) && FrameRoom(d.link)
    ensures |CarriedOutIn(d, at, hi)| <= 1
  {
  }

  /**
   * A ping on the wire is answered in the turn that looks at the line after the gap: with no command
   * waiting and room in the link's queue, the pong is the first message accepted in that turn.
   */
  lemma PingAnswered(d: Device, now: Micros, inputs: seq<Input>, u: Utterance)
    requires Shown(d, now, inputs, u) && u.body == Ping && |u.highs| == 1 && d.app.cmds == []
    ensures inputs != [] && FramesFit(d, now, inputs[..|inputs| - 1])
    ensures var d1 := Run(d, now, inputs[..|inputs| - 1]);
            var last := inputs[|inputs| - 1];
            && QueuesOk(d1) && FrameRoom(d1.link)
            && CarriedOutIn(d1, u.highs[0], true) == [PING]
            && (|BusTurn(d1, u.highs[0], true).link.txMsgs| < 16 ==>
                  AcceptedInTurn(d1, u.highs[0], true, last.sends) != [] &&
                  AcceptedInTurn(d1, u.highs[0], true, last.sends)[0] == PING_MSG)
  {
    hide Run, LogOf, Said, Spoken, BusTurn, HeardIn, CarriedOutIn, AcceptedInTurn, UtteranceSamples;
    HeardInItsTurn(d, now, inputs, u);
    var d1 := Run(d, now, inputs[..|inputs| - 1]);
    PingInItsTurn(d1, u.highs[0], true);
    if |BusTurn(d1, u.highs[0], true).link.txMsgs| < 16 {
      PongAccepted(d1, u.highs[0], true, inputs[|inputs| - 1].sends);
    }
  }
}
