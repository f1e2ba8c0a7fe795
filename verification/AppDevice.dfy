// The application's command queue and track, updated in place.
module AppDevice {
  import opened PhySpec
  import opened FifoQueue
  import opened LinkSpec
  import opened AppSpec

  class AppLayer {
    const simpleMbusMsgFifo: Fifo<Cmd>
    var disk: byte
    var numTracks: nat
    var track: nat

    ghost predicate Valid()
      reads this, simpleMbusMsgFifo, simpleMbusMsgFifo.buffer
    {
      simpleMbusMsgFifo.Valid() && simpleMbusMsgFifo.buffer.Length == CMD_MAX && AppOk(Value())
    }

    ghost function Value(): App
      reads this, simpleMbusMsgFifo
    {
      App(disk, numTracks, track, simpleMbusMsgFifo.contents)
    }

    constructor (memory: array<Cmd>)
      requires memory.Length == CMD_MAX
      ensures Valid() && Value() == APP_START && fresh(simpleMbusMsgFifo) && simpleMbusMsgFifo.buffer == memory
    {
      simpleMbusMsgFifo := new Fifo(memory);
      disk, numTracks, track := 3, 16, 0;
    }

    method PushSimple(cmd: Cmd)
      requires Valid()
      modifies simpleMbusMsgFifo, simpleMbusMsgFifo.buffer
      ensures Valid()
      ensures Value() == old(Value()).(cmds := Pushed(old(Value()).cmds, [cmd], CMD_MAX))
    {
      if !simpleMbusMsgFifo.IsFull() {
        simpleMbusMsgFifo.Push(cmd);
      }
    }

    method PushPlayCommands(stop: bool, pause: bool, play: bool)
      requires Valid()
      modifies simpleMbusMsgFifo, simpleMbusMsgFifo.buffer
      ensures Valid()
      ensures Value() == old(Value()).(cmds := Pushed(old(Value()).cmds, PlayCommands(stop, pause, play), CMD_MAX))
    {
      ghost var before := simpleMbusMsgFifo.contents;
      if stop {
        PushSimple(STOP);
      }
      if pause {
        PushSimple(PAUSE);
      }
      if play {
        PushSimple(PLAY);
      }
      PushedConcat(before, When(stop, STOP), When(pause, PAUSE), CMD_MAX);
      PushedConcat(before, When(stop, STOP) + When(pause, PAUSE), When(play, PLAY), CMD_MAX);
    }

    /** Moves the track one step the short way round and queues the matching command. */
    method MoveTrack(requested: nat)
      requires Valid()
      modifies this`track, simpleMbusMsgFifo, simpleMbusMsgFifo.buffer
      ensures Valid()
      ensures var (track', cmd) := StepTrack(old(track), requested, numTracks);
              Value() == old(Value()).(track := track', cmds := Pushed(old(Value()).cmds, [cmd], CMD_MAX))
    {
      var trackOffset := CRemainder(track - (requested - 1), numTracks);
      if trackOffset < 0 {
        trackOffset := trackOffset + numTracks;
      }
      StepsCloser(track, requested, numTracks);
      if trackOffset > numTracks / 2 {
        PushSimple(NEXT);
        track := track + 1;
        if track >= numTracks {
          track := 0;
        }
      } else {
        PushSimple(PREV);
        if trackOffset != 0 {
          if track == 0 {
            track := numTracks - 1;
          } else {
            track := track - 1;
          }
        }
      }
    }

    method DecodePush(msg: RxMsg)
      requires Valid()
      modifies this`track, simpleMbusMsgFifo, simpleMbusMsgFifo.buffer
      ensures Valid()
      ensures Value() == Decode(old(Value()), msg)
    {
      if msg.errId != 0 || !msg.h2c {
        return;
      }
      match msg.body
      case Ping => PushSimple(PING);
      case SetPlayState(_, stop, _, _, _, pause, play) => PushPlayCommands(stop, pause, play);
      case SetDiskTrack(msgDisk, msgTrack, _, _, _) =>
        if msgDisk != 0 && msgDisk != disk {
          PushSimple(SwitchTo(msgDisk));
        } else {
          MoveTrack(msgTrack as int);
        }
      case _ =>
    }
  }
}
