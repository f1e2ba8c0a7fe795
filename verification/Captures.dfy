// The model against traffic recorded from a car, kept under target_desktop/captures: what the
// builders make is digit for digit what a CD changer was heard sending, and recorded frames are
// read as the recorded decodes say.
module Captures {
  import opened PhySpec
  import opened LinkSpec
  import opened LinkProofs
  import opened AppSpec
  import opened Output
  import opened HeadUnit

  lemma {:induction false} XorConcat(s: seq<byte>, t: seq<byte>)
    ensures XorAll(s + t) == XorAll(s) ^ XorAll(t)
  {
    if t == [] {
      assert s + t == s;
    } else {
      var n := |t| - 1;
      assert (s + t)[..|s| + n] == s + t[..n];
      XorConcat(s, t[..n]);
      XorAssociates(XorAll(s), XorAll(t[..n]), t[n]);
    }
  }

  lemma XorAssociates(a: byte, b: byte, c: byte)
    ensures (a ^ b) ^ c == a ^ (b ^ c)
  {
  }

  lemma XorOne(a: byte)
    ensures XorAll([a]) == a
  {
    assert [a][..0] == [] && XorAll([]) == 0;
  }

  lemma Xor3(a: byte, b: byte, c: byte)
    ensures XorAll([a, b, c]) == a ^ b ^ c
  {
    XorOne(a);
    XorOne(b);
    XorOne(c);
    hide XorAll;
    XorConcat([a], [b]);
    XorConcat([a] + [b], [c]);
    assert [a] + [b] + [c] == [a, b, c];
  }

  lemma Xor6(a: byte, b: byte, c: byte, d: byte, e: byte, f: byte)
    ensures XorAll([a, b, c, d, e, f]) == (a ^ b ^ c) ^ (d ^ e ^ f)
  {
    hide XorAll;
    Xor3(a, b, c);
    Xor3(d, e, f);
    XorConcat([a, b, c], [d, e, f]);
    assert [a, b, c] + [d, e, f] == [a, b, c, d, e, f];
  }

  /** Track 2, index 1, one minute 43: startup_and_play:23. */
  lemma PlayingAsRecorded()
    ensures Frame(PlayingMsg(1, 1, 103)) == [9, 9, 4, 0, 2, 0, 1, 0, 1, 4, 3, 0, 0, 0, 1, 1]
  {
    var d: seq<byte> := [9, 9, 4, 0, 2, 0, 1, 0, 1, 4, 3, 0, 0, 0, 1];
    assert XorAll(d) == 0 by {
      Xor6(9, 9, 4, 0, 2, 0);
      Xor6(1, 0, 1, 4, 3, 0);
      Xor3(0, 0, 1);
      hide XorAll;
      XorConcat([9, 9, 4, 0, 2, 0], [1, 0, 1, 4, 3, 0]);
      XorConcat([9, 9, 4, 0, 2, 0] + [1, 0, 1, 4, 3, 0], [0, 0, 1]);
      assert d == [9, 9, 4, 0, 2, 0] + [1, 0, 1, 4, 3, 0] + [0, 0, 1];
    }
    PlayingPacked();
    PlayingDigits(ToBcd(2), ToBcd(1), ToBcd(1), ToBcd(43));
    assert Hi(ToBcd(43)) == 4 && Lo(ToBcd(43)) == 3 && ToBcd(1) == 1 && ToBcd(2) == 2 && Hi(1) == 0 && Hi(2) == 0;
    hide XorAll, Digits, PlayingPack, PlayingMsg, ToBcd, Hi, Lo, Join;
    assert Digits(PlayingMsg(1, 1, 103)) == d;
  }

  lemma PlayingPacked()
    ensures PlayingMsg(1, 1, 103) == TxMsg(PlayingPack(ToBcd(2), ToBcd(1), Join(ToBcd(1), ToBcd(43))), 15)
  {
    TimeBytes(103);
    hide PlayingPack, ToBcd, Join;
    assert MinuteByte(103) == 1 && SecondByte(103) == 43;
  }

  /**
   * The constant messages, and disc 6, track 2 loaded: startup_and_play:10-18, the pong of the decodes,
   * and the wait message as target_teensy3/src/app_demo.cpp:245 writes it out.
   */
  lemma StatusAsRecorded()
    ensures Frame(PING_MSG) == [9, 8, 2]
    ensures Frame(UNKNOWN_STATUS_MSG) == [9, 0xD, 0, 0, 0, 0, 0, 0, 0, 0, 5]
    ensures Frame(CD_POWER_ON_MSG) == [9, 0xA, 0, 0, 0, 0, 0, 0, 0, 0, 0, 0, 4]
    ensures Frame(ChangingMsg(6, 1)) == [9, 0xB, 9, 6, 0, 2, 0, 0, 0, 0, 1, 0xF]
    ensures Frame(ACK_WAIT_MSG) == [9, 0xF, 0, 0, 0, 0, 0, 7]
  {
    PingDigits();
    AckWaitDigits();
    UnknownStatusDigits();
    CdPowerOnDigits();
    ChangingSixDigits();
  }

  lemma PingDigits()
    ensures Frame(PING_MSG) == [9, 8, 2]
  {
    LowDigits(PING_MSG.pack);
    hide Digit, XorAll;
    assert Digits(PING_MSG) == [9, 8];
    XorOne(9);
    XorOne(8);
    XorConcat([9], [8]);
    assert [9] + [8] == Digits(PING_MSG);
  }

  lemma Zeroes3()
    ensures XorAll([0, 0, 0]) == 0
  {
    Xor3(0, 0, 0);
  }

  lemma UnknownStatusDigits()
    ensures Frame(UNKNOWN_STATUS_MSG) == [9, 0xD, 0, 0, 0, 0, 0, 0, 0, 0, 5]
  {
    LowDigits(UNKNOWN_STATUS_MSG.pack);
    HighDigits(UNKNOWN_STATUS_MSG.pack);
    hide Digit, XorAll;
    var d := Digits(UNKNOWN_STATUS_MSG);
    assert d == [9, 0xD, 0, 0, 0, 0, 0, 0, 0, 0];
    Xor6(9, 0xD, 0, 0, 0, 0);
    Zeroes3();
    XorOne(0);
    XorConcat([9, 0xD, 0, 0, 0, 0], [0, 0, 0]);
    XorConcat([9, 0xD, 0, 0, 0, 0] + [0, 0, 0], [0]);
    assert d == [9, 0xD, 0, 0, 0, 0] + [0, 0, 0] + [0];
  }

  lemma CdPowerOnDigits()
    ensures Frame(CD_POWER_ON_MSG) == [9, 0xA, 0, 0, 0, 0, 0, 0, 0, 0, 0, 0, 4]
  {
    LowDigits(CD_POWER_ON_MSG.pack);
    HighDigits(CD_POWER_ON_MSG.pack);
    hide Digit, XorAll;
    var d := Digits(CD_POWER_ON_MSG);
    assert d == [9, 0xA, 0, 0, 0, 0, 0, 0, 0, 0, 0, 0];
    Xor6(9, 0xA, 0, 0, 0, 0);
    Xor6(0, 0, 0, 0, 0, 0);
    XorConcat([9, 0xA, 0, 0, 0, 0], [0, 0, 0, 0, 0, 0]);
    assert d == [9, 0xA, 0, 0, 0, 0] + [0, 0, 0, 0, 0, 0];
  }

  lemma AckWaitDigits()
    ensures Frame(ACK_WAIT_MSG) == [9, 0xF, 0, 0, 0, 0, 0, 7]
  {
    LowDigits(ACK_WAIT_MSG.pack);
    hide Digit, XorAll;
    var d := Digits(ACK_WAIT_MSG);
    assert d == [9, 0xF, 0, 0, 0, 0, 0];
    Xor6(9, 0xF, 0, 0, 0, 0);
    XorOne(0);
    XorConcat([9, 0xF, 0, 0, 0, 0], [0]);
    assert d == [9, 0xF, 0, 0, 0, 0] + [0];
  }

  /** What is sent when the application starts to play: disk 3, 16 tracks, no time yet. */
  lemma DiskInfoAtStart()
    ensures Frame(DiskInfoMsg(3, 16, 0)) == [9, 0xC, 3, 0, 1, 1, 6, 7, 5, 0, 2, 0xF, 0]
  {
    TimeBytes(0);
    DiskInfoDigits(3, ToBcd(16), ToBcd(0), ToBcd(0));
    assert ToBcd(0) == 0 && Hi(0) == 0 && Lo(0) == 0 && Hi(3) == 0 && Lo(3) == 3 && Hi(ToBcd(16)) == 1
           && Lo(ToBcd(16)) == 6 && MinuteByte(0) == 0 && SecondByte(0) == 0;
    assert DiskInfoMsg(3, 16, 0) == TxMsg(DiskInfoPack(3, ToBcd(16), Join(ToBcd(0), ToBcd(0))), 12);
    hide DiskInfoPack, DiskInfoMsg, ToBcd, Hi, Lo, Join, Digits, XorAll;
    var d := Digits(DiskInfoMsg(3, 16, 0));
    assert d == [9, 0xC, 3, 0, 1, 1, 6, 7, 5, 0, 2, 0xF];
    Xor6(9, 0xC, 3, 0, 1, 1);
    Xor6(6, 7, 5, 0, 2, 0xF);
    XorConcat([9, 0xC, 3, 0, 1, 1], [6, 7, 5, 0, 2, 0xF]);
    assert d == [9, 0xC, 3, 0, 1, 1] + [6, 7, 5, 0, 2, 0xF];
  }

  /** A ping, command 2, is answered by a pong, a power-on, command 3, by the changer's; nothing else is. */
  lemma AnswersAsRecorded(cmd: Cmd)
    ensures Stream(Replies(cmd)) ==
            if cmd == 2 then [9, 8, 2, 18]
            else if cmd == 3 then [9, 0xA, 0, 0, 0, 0, 0, 0, 0, 0, 0, 0, 4, 18]
            else []
  {
    PingDigits();
    CdPowerOnDigits();
    hide Frame;
    assert [PING_MSG][1..] == [] && [CD_POWER_ON_MSG][1..] == [];
    assert Stream([PING_MSG]) == Serialise(PING_MSG) + [];
    assert Stream([CD_POWER_ON_MSG]) == Serialise(CD_POWER_ON_MSG) + [];
  }

  lemma ChangingSixDigits()
    ensures Frame(ChangingMsg(6, 1)) == [9, 0xB, 9, 6, 0, 2, 0, 0, 0, 0, 1, 0xF]
  {
    ChangingDigits(6, ToBcd(2));
    assert Lo(6) == 6 && ToBcd(2) == 2 && Hi(2) == 0 && Lo(2) == 2;
    hide ChangingPack, Lo, Hi, ToBcd, Digits, XorAll;
    var d := Digits(ChangingMsg(6, 1));
    assert d == [9, 0xB, 9, 6, 0, 2, 0, 0, 0, 0, 1];
    Xor6(9, 0xB, 9, 6, 0, 2);
    Zeroes3();
    XorOne(0);
    XorOne(1);
    XorConcat([0], [1]);
    XorConcat([9, 0xB, 9, 6, 0, 2], [0, 0, 0]);
    XorConcat([9, 0xB, 9, 6, 0, 2] + [0, 0, 0], [0] + [1]);
    assert d == [9, 0xB, 9, 6, 0, 2] + [0, 0, 0] + ([0] + [1]);
  }

  /** The head unit's recorded requests (the decodes, play_and_skip_forward:6 and repeat_button_pressing:6). */
  lemma RequestsAsRecorded()
    ensures Checked(Encode(Ping)) == [1, 8, 0xA]
    ensures Checked(Encode(HeadPowerOn)) == [1, 9, 9]
    ensures Checked(Encode(SetPlayState(false, false, false, false, false, false, true))) == [1, 1, 1, 0, 1, 1]
    ensures Checked(Encode(SetDiskTrack(0, 3, false, true, false))) == [1, 1, 3, 0, 0, 3, 1, 0, 2]
    ensures Checked(Encode(SetMode(false, true, false, false))) == [1, 1, 4, 4, 0, 0, 0, 0, 1]
  {
    hide XorAll;
    XorOne(1);
    XorOne(8);
    XorOne(9);
    XorConcat([1], [8]);
    XorConcat([1], [9]);
    assert Encode(Ping) == [1] + [8] && Encode(HeadPowerOn) == [1] + [9];
    PlayRecorded();
    TrackRecorded();
    ModeRecorded();
  }

  lemma PlayRecorded()
    ensures Checked(Encode(SetPlayState(false, false, false, false, false, false, true))) == [1, 1, 1, 0, 1, 1]
  {
    hide XorAll;
    Xor3(1, 1, 1);
    XorOne(0);
    XorOne(1);
    XorConcat([1, 1, 1], [0]);
    XorConcat([1, 1, 1] + [0], [1]);
    assert Encode(SetPlayState(false, false, false, false, false, false, true)) == [1, 1, 1] + [0] + [1];
  }

  lemma TrackRecorded()
    ensures Checked(Encode(SetDiskTrack(0, 3, false, true, false))) == [1, 1, 3, 0, 0, 3, 1, 0, 2]
  {
    hide XorAll;
    assert Tens(3) == 0 && Units(3) == 3 && Lo(0) == 0;
    Xor6(1, 1, 3, 0, 0, 3);
    XorOne(1);
    XorOne(0);
    XorConcat([1, 1, 3, 0, 0, 3], [1]);
    XorConcat([1, 1, 3, 0, 0, 3] + [1], [0]);
    assert Encode(SetDiskTrack(0, 3, false, true, false)) == [1, 1, 3, 0, 0, 3] + [1] + [0];
  }

  lemma ModeRecorded()
    ensures Checked(Encode(SetMode(false, true, false, false))) == [1, 1, 4, 4, 0, 0, 0, 0, 1]
  {
    hide XorAll;
    Xor6(1, 1, 4, 4, 0, 0);
    XorOne(0);
    XorConcat([1, 1, 4, 4, 0, 0], [0]);
    XorConcat([1, 1, 4, 4, 0, 0] + [0], [0]);
    assert Encode(SetMode(false, true, false, false)) == [1, 1, 4, 4, 0, 0] + [0] + [0];
  }

  /** A frame broken off by a timeout was reported as a checksum error, a stub as a bad length. */
  lemma ErrorsAsRecorded()
    ensures Parse([9, 0xF, 0, TIMEOUT]).errId == ERR_CHECKSUM
    ensures Parse([1, 0xC]).errId == ERR_LENGTH
  {
    var s: seq<byte> := [9, 0xF, 0, TIMEOUT];
    CheckSumIsNibble(s[..3]);
    hide CheckSum;
    assert forall b :: b in s ==> !IsSignal(b);
  }
}
