// The application's reading of parsed messages: commands for its state machine, and the track it
// believes to be playing.
module AppSpec {
  import opened PhySpec
  import opened FifoQueue
  import opened LinkSpec

  /** Commands are the source's enumeration values; a disk switch is computed as a number. */
  type Cmd = nat

  const PING: Cmd := 2
  const HEAD_POWER_ON: Cmd := 3
  const PLAY: Cmd := 4
  const PAUSE: Cmd := 5
  const STOP: Cmd := 6
  const SWITCH_DISK_1: Cmd := 7
  const NEXT: Cmd := 13
  const PREV: Cmd := 14

  const CMD_MAX := 32

  datatype App = App(disk: byte, numTracks: nat, track: nat, cmds: seq<Cmd>)

  const APP_START := App(3, 16, 0, [])

  /** Tracks are 8-bit; without tracks the source would divide by zero. */
  predicate AppOk(a: App) {
    1 <= a.numTracks <= 255 && a.track < a.numTracks
  }

  /** The remainder in C takes the sign of the dividend. */
  function CRemainder(a: int, n: nat): int
    requires n > 0
  {
    if a >= 0 then a % n else -((-a) % n)
  }

  function TrackOffset(track: nat, requested: nat, n: nat): int
    requires n > 0
  {
    var r := CRemainder(track - (requested - 1), n);
    if r < 0 then r + n else r
  }

  /** The new track and the command queued. */
  function StepTrack(track: nat, requested: nat, n: nat): (nat, Cmd)
    requires n > 0
  {
    var offset := TrackOffset(track, requested, n);
    if offset > n / 2 then (if track + 1 >= n then 0 else track + 1, NEXT)
    else if offset != 0 then (if track == 0 then n - 1 else track - 1, PREV)
    else (track, PREV)
  }

  function Decode(a: App, m: RxMsg): App
    requires AppOk(a)
  {
    if m.errId != 0 || !m.h2c then a else
    match m.body
    case Ping => a.(cmds := Pushed(a.cmds, [PING], CMD_MAX))
    case SetPlayState(_, stop, _, _, _, pause, play) =>
      a.(cmds := Pushed(a.cmds, PlayCommands(stop, pause, play), CMD_MAX))
    case SetDiskTrack(disk, track, _, _, _) =>
      if disk != 0 && disk != a.disk then
        a.(cmds := Pushed(a.cmds, [SwitchTo(disk)], CMD_MAX))
      else
        var (track', cmd) := StepTrack(a.track, track as int, a.numTracks);
        a.(track := track', cmds := Pushed(a.cmds, [cmd], CMD_MAX))
    case _ => a
  }

  /** Disks beyond six run on into the other commands: disk 7 is queued as NEXT. */
  function SwitchTo(disk: byte): Cmd {
    SWITCH_DISK_1 - 1 + disk as nat
  }

  function When(flag: bool, cmd: Cmd): seq<Cmd> {
    if flag then [cmd] else []
  }

  function PlayCommands(stop: bool, pause: bool, play: bool): seq<Cmd> {
    When(stop, STOP) + When(pause, PAUSE) + When(play, PLAY)
  }

  /** What the popped command makes the application send at once. */
  function Replies(cmd: Cmd): seq<TxMsg> {
    if cmd == PING then [PING_MSG] else if cmd == HEAD_POWER_ON then [CD_POWER_ON_MSG] else []
  }

  // ---- Stepping around the track list ----

  /** Requests count from one; request zero, like any other, is taken around the circle. */
  function Target(requested: nat, n: nat): nat
    requires n > 0
  {
    (requested - 1) % n
  }

  function Around(from: nat, to: nat, n: nat): nat
    requires n > 0
  {
    (to - from) % n
  }

  /** The fewest single steps between two tracks on a circle of n. */
  function CircleDistance(a: nat, b: nat, n: nat): nat
    requires n > 0
  {
    if Around(a, b, n) < Around(b, a, n) then Around(a, b, n) else Around(b, a, n)
  }

  /** The track after one step the short way round, backwards if both ways are as long. */
  function ShortWay(track: nat, target: nat, n: nat): nat
    requires n > 0
  {
    if track == target then track
    else if Around(track, target, n) < Around(target, track, n) then (track + 1) % n
    else (track - 1) % n
  }

  lemma OffsetIsBackwards(track: nat, requested: nat, n: nat)
    requires 0 < n && track < n
    ensures TrackOffset(track, requested, n) == Around(Target(requested, n), track, n)
    ensures Around(Target(requested, n), track, n) ==
            if track >= Target(requested, n) then track - Target(requested, n) else track - Target(requested, n) + n
    ensures Around(track, Target(requested, n), n) ==
            if Target(requested, n) >= track then Target(requested, n) - track else Target(requested, n) - track + n
  {
    var d, t := track - (requested - 1), Target(requested, n);
    SmallModulo(track - t, n);
    SmallModulo(t - track, n);
    assert requested - 1 == n * ((requested - 1) / n) + t;
    SameModulo(d, track - t, -((requested - 1) / n), n);
    if d < 0 {
      NegatedModulo(-d, n);
    }
  }

  lemma AtNoDistance(a: nat, b: nat, n: nat)
    requires a < n && b < n
    ensures CircleDistance(a, b, n) == 0 <==> a == b
  {
    SmallModulo(a - b, n);
    SmallModulo(b - a, n);
  }

  lemma SmallModulo(x: int, n: nat)
    requires 0 < n && -(n as int) < x < n
    ensures x % n == if x >= 0 then x else x + n
  {
    Unique(x, if x >= 0 then 0 else -1, if x >= 0 then x else x + n, n);
  }

  lemma SameModulo(x: int, y: int, k: int, n: nat)
    requires 0 < n && x == y + n * k
    ensures x % n == y % n
  {
    var q, r := y / n, y % n;
    assert y == n * q + r;
    assert n * (q + k) == n * q + n * k;
    Unique(x, q + k, r, n);
  }

  lemma Multiple(n: nat, k: nat)
    requires 1 <= k
    ensures n * k >= n
  {
    assert n * k == n + n * (k - 1);
  }

  lemma Unique(x: int, q: int, r: nat, n: nat)
    requires 0 < n && x == n * q + r && r < n
    ensures x % n == r
  {
    var q', r' := x / n, x % n;
    assert x == n * q' + r';
    assert n * (q - q') == n * q - n * q' && n * (q' - q) == n * q' - n * q;
    if q > q' {
      Multiple(n, q - q');
    } else if q < q' {
      Multiple(n, q' - q);
    }
  }

  /** C's remainder: what is left is a multiple of n, and its sign is the dividend's. */
  lemma RemainderAsInC(a: int, n: nat)
    requires 0 < n
    ensures (a - CRemainder(a, n)) % n == 0
    ensures if a >= 0 then 0 <= CRemainder(a, n) < n else -(n as int) < CRemainder(a, n) <= 0
  {
    if a >= 0 {
      assert a == n * (a / n) + a % n;
      Unique(a - CRemainder(a, n), a / n, 0, n);
    } else {
      assert -a == n * (-a / n) + (-a) % n;
      assert n * -(-a / n) == -(n * (-a / n));
      Unique(a - CRemainder(a, n), -(-a / n), 0, n);
    }
  }

  lemma NegatedModulo(x: nat, n: nat)
    requires 0 < n && 0 < x
    ensures (-(x as int)) % n == if x % n == 0 then 0 else n - x % n
  {
    var q, r := x / n, x % n;
    assert x == n * q + r;
    if r == 0 {
      assert n * (-q) == -(n * q);
      Unique(-(x as int), -q, 0, n);
    } else {
      assert n * (-q - 1) == -(n * q) - n;
      Unique(-(x as int), -q - 1, n - r, n);
    }
  }

  /**
   * One request takes the track one step the short way round, which is one closer, or leaves it on the
   * target. The command is the one for that step: 13, next, if forward is strictly shorter, else 14, prev.
   */
  lemma StepsCloser(track: nat, requested: nat, n: nat)
    requires 1 <= n <= 255 && track < n
    ensures var track', target := StepTrack(track, requested, n).0, Target(requested, n);
            && track' == ShortWay(track, target, n)
            && StepTrack(track, requested, n).1 ==
               if Around(track, target, n) < Around(target, track, n) then 13 else 14
    ensures var track' := StepTrack(track, requested, n).0;
            && track' < n
            && CircleDistance(track', Target(requested, n), n) ==
               if CircleDistance(track, Target(requested, n), n) == 0 then 0
               else CircleDistance(track, Target(requested, n), n) - 1
  {
    OffsetIsBackwards(track, requested, n);
    OffsetIsBackwards(StepTrack(track, requested, n).0, requested, n);
    Neighbours(track, n);
  }

  lemma Neighbours(track: nat, n: nat)
    requires track < n
    ensures (track + 1) % n == if track + 1 < n then track + 1 else 0
    ensures (track - 1) % n == if track == 0 then n - 1 else track - 1
  {
    Unique(track + 1, if track + 1 < n then 0 else 1, if track + 1 < n then track + 1 else 0, n);
    Unique(track - 1, if track == 0 then -1 else 0, if track == 0 then n - 1 else track - 1, n);
  }

  /** The same request repeated. */
  function Repeat(track: nat, requested: nat, n: nat, times: nat): nat
    requires n > 0
    decreases times
  {
    if times == 0 then track else Repeat(StepTrack(track, requested, n).0, requested, n, times - 1)
  }

  /** Repeating a request reaches the track after exactly the circular distance, never sooner, and stays. */
  lemma {:induction false} ReachesTrack(track: nat, requested: nat, n: nat, times: nat)
    requires 1 <= n <= 255 && track < n
    ensures Repeat(track, requested, n, times) == Target(requested, n) <==>
            CircleDistance(track, Target(requested, n), n) <= times
    ensures CircleDistance(track, Target(requested, n), n) <= n / 2
    decreases times
  {
    OffsetIsBackwards(track, requested, n);
    if times > 0 {
      StepsCloser(track, requested, n);
      ReachesTrack(StepTrack(track, requested, n).0, requested, n, times - 1);
    }
  }

  /** Decoding keeps the track in range, whatever the message. */
  lemma DecodeKeepsOk(a: App, m: RxMsg)
    requires AppOk(a)
    ensures AppOk(Decode(a, m)) && Decode(a, m).numTracks == a.numTracks && Decode(a, m).disk == a.disk
    ensures m.errId != 0 ==> Decode(a, m) == a
  {
    if m.errId == 0 && m.h2c && m.body.SetDiskTrack? {
      StepsCloser(a.track, m.body.track as int, a.numTracks);
    }
  }

  // ---- What messages ask for ----

  /** A list of messages understood one after the other, their commands queued behind each other without limit. */
  function Understood(a: App, ms: seq<RxMsg>): App
    requires AppOk(a)
    decreases |ms|
  {
    if ms == [] then a else
    var one := Decode(a.(cmds := []), ms[0]);
    DecodeKeepsOk(a.(cmds := []), ms[0]);
    Understood(one.(cmds := a.cmds + one.cmds), ms[1..])
  }

  lemma {:induction false} UnderstoodOk(a: App, ms: seq<RxMsg>)
    requires AppOk(a)
    ensures AppOk(Understood(a, ms))
    decreases |ms|
  {
    if ms != [] {
      var one := Decode(a.(cmds := []), ms[0]);
      DecodeKeepsOk(a.(cmds := []), ms[0]);
      UnderstoodOk(one.(cmds := a.cmds + one.cmds), ms[1..]);
    }
  }

  /** With room for three more, a message's commands are queued whole, behind those that wait. */
  lemma DecodeAppends(a: App, m: RxMsg)
    requires AppOk(a) && |a.cmds| + 3 <= 32
    ensures Decode(a, m) == Understood(a, [m])
  {
    var b := a.(cmds := []);
    DecodeKeepsOk(b, m);
    assert Understood(a, [m]) == Decode(b, m).(cmds := a.cmds + Decode(b, m).cmds);
    if m.errId != 0 || !m.h2c {
      assert a.cmds + [] == a.cmds;
    } else {
      match m.body
      case Ping => BothQueue(a.cmds, [PING]);
      case SetPlayState(_, stop, _, _, _, pause, play) => BothQueue(a.cmds, PlayCommands(stop, pause, play));
      case SetDiskTrack(disk, track, _, _, _) =>
        BothQueue(a.cmds, if disk != 0 && disk != a.disk then [SwitchTo(disk)]
                          else [StepTrack(a.track, track as int, a.numTracks).1]);
      case _ => assert a.cmds + [] == a.cmds;
    }
  }

  /**
   * The queue holds 32 commands: of what a message asks for, as much is queued as finds room, and the
   * rest is dropped. The track moves all the same.
   */
  lemma QueuedAsFits(a: App, m: RxMsg)
    requires AppOk(a) && |a.cmds| <= 32
    ensures var asked := Decode(a.(cmds := []), m);
            && Decode(a, m) == asked.(cmds := Decode(a, m).cmds)
            && |asked.cmds| <= 3
            && Decode(a, m).cmds ==
               a.cmds + if |a.cmds| + |asked.cmds| <= 32 then asked.cmds else asked.cmds[..32 - |a.cmds|]
  {
    hide StepTrack, SwitchTo, Pushed;
    if m.errId != 0 || !m.h2c {
      assert a.cmds + [] == a.cmds;
    } else {
      match m.body
      case Ping => FitsQueue(a.cmds, [PING]);
      case SetPlayState(_, stop, _, _, _, pause, play) => FitsQueue(a.cmds, PlayCommands(stop, pause, play));
      case SetDiskTrack(disk, track, _, _, _) =>
        FitsQueue(a.cmds, if disk != 0 && disk != a.disk then [SwitchTo(disk)]
                          else [StepTrack(a.track, track as int, a.numTracks).1]);
      case _ => assert a.cmds + [] == a.cmds;
    }
  }

  lemma FitsQueue(cmds: seq<Cmd>, more: seq<Cmd>)
    requires |cmds| <= 32 && |more| <= 3
    ensures Pushed(cmds, more, CMD_MAX) == cmds + if |cmds| + |more| <= 32 then more else more[..32 - |cmds|]
    ensures Pushed([], more, CMD_MAX) == more
  {
    PushedFitting(cmds, more, CMD_MAX);
    PushedWithRoom([], more, CMD_MAX);
    assert [] + more == more;
  }

  lemma BothQueue(cmds: seq<Cmd>, more: seq<Cmd>)
    requires |cmds| + 3 <= 32 && |more| <= 3
    ensures Pushed(cmds, more, CMD_MAX) == cmds + more && Pushed([], more, CMD_MAX) == more
  {
    PushedWithRoom(cmds, more, CMD_MAX);
    PushedWithRoom([], more, CMD_MAX);
    assert [] + more == more;
  }

  /** Commands already waiting stay in front and change nothing else. */
  lemma {:induction false} UnderstoodBehind(a: App, first: seq<Cmd>, ms: seq<RxMsg>)
    requires AppOk(a)
    ensures var u := Understood(a, ms);
            Understood(a.(cmds := first + a.cmds), ms) == u.(cmds := first + u.cmds)
    decreases |ms|
  {
    if ms != [] {
      var one := Decode(a.(cmds := []), ms[0]);
      DecodeKeepsOk(a.(cmds := []), ms[0]);
      assert (first + a.cmds) + one.cmds == first + (a.cmds + one.cmds);
      UnderstoodBehind(one.(cmds := a.cmds + one.cmds), first, ms[1..]);
    }
  }

  lemma {:induction false} UnderstoodConcat(a: App, ms: seq<RxMsg>, more: seq<RxMsg>)
    requires AppOk(a)
    ensures AppOk(Understood(a, ms)) && Understood(a, ms + more) == Understood(Understood(a, ms), more)
    decreases |ms|
  {
    UnderstoodOk(a, ms);
    if ms == [] {
      assert ms + more == more;
    } else {
      assert (ms + more)[1..] == ms[1..] + more;
      var one := Decode(a.(cmds := []), ms[0]);
      DecodeKeepsOk(a.(cmds := []), ms[0]);
      UnderstoodConcat(one.(cmds := a.cmds + one.cmds), ms[1..], more);
    }
  }
}
