# Acura M-Bus stack: model and proofs

The M-Bus is the one-wire bus between a 1999 Acura head unit and its CD changer. The repository
impersonates the changer. This project models its stack, from the pulse-width coded line up to the
commands the application acts on, and proves what the stack guarantees over all inputs and all runs.

Each layer exists twice. The classes (`Fifo`, `Receiver`, `Transmitter`, `LinkLayer`, `AppLayer`,
`Loop`, `ToggleElement`) update their fields in place as the C, C++ and Python code does; their
methods are proved to compute functions on values (`RxStep`, `TxStep`, `Parse`, `Serialise`,
`LinkStep`, `Decode`, `Turn`, `Toggles`, `Intervalized`). The theorems are about those functions, so
they hold of the classes.

| file | content |
|---|---|
| `Sequences.dfy`, `Clock.dfy` | a fact about sequences; the 32-bit microsecond counter: elapsed time modulo 2^32, schedules as lists of gaps |
| `PhySpec.dfy`, `PhyDevice.dfy` | one call of the receive and transmit state machines, as functions and as classes |
| `FifoQueue.dfy` | the ring buffer, refining a bounded sequence |
| `ReceiverProofs.dfy` | receiver on any waveform (output grammar, queue depth) and within tolerance (exact decoding) |
| `TransmitterTiming.dfy` | when the line is driven, lower and upper time bounds, four lows per nibble, turnaround |
| `ClosedLoop.dfy`, `JitterBound.dfy` | transmitter heard by receiver: round trip, delivery time, and the exact jitter bound |
| `Rollover.dfy` | where the clock starts cannot be seen |
| `LinkSpec.dfy`, `LinkDevice.dfy`, `LinkProofs.dfy` | serialiser, builders, parser, direction; acceptance, error detection, field round trips |
| `AppSpec.dfy`, `AppDevice.dfy` | command decoding and track stepping |
| `DeviceSpec.dfy`, `MainLoop.dfy` | one turn of the main loop, as a function and over the mutable layers |
| `BusProtocol.dfy`, `Output.dfy` | every run on any waveform: direction, queue bounds, conservation of output |
| `Reception.dfy` | every run on any waveform, whatever the device sends: symbols, frames, messages and commands, none lost or added |
| `AnyWaveform.dfy` | from the bits on the line to the commands, on every waveform; back to attention after noise |
| `OwnBus.dfy`, `Delivery.dfy` | the device hears itself: nothing lost, and delivery within a stated time |
| `HeadUnit.dfy` | every message of the catalogue written out and read back; what a head unit says, heard and carried out |
| `Answer.dfy` | a ping on the wire answered by a pong on the wire |
| `Captures.dfy` | a sanity check of digits and checksums against frames recorded in `target_desktop/captures` |
| `ReferenceEncoder.dfy` | the desktop library's waveform encoder and sampler, decoded by the receiver |

`dafny verify dfyconfig.toml` checks all of it.

## What the code does that its names do not say

- The closed loop needs calls at most 225 microseconds apart, and 225 is exact: with 226 three late
  calls between two nibbles make the receiver close the message in the middle
  (`JitterBound.ExactJitterBound`).
- The parser looks for the letters T, L and X, but the PHY emits the codes 16 and 17, and never one of
  these letters (`AnyWaveform.NoLetterPushed`). Aborted frames are refused all the same, some for their
  length and all others for their checksum (`LinkProofs.AbortedFrameRejected`); bad signalling is
  never reported as such.
- A playing message is read back exactly up to 4799 seconds: at 80 minutes the top bit of the minutes
  is shifted into the sign bit of an `int` and the sign extension wipes out the front of the message.
  A disk of 8 does the same to a changing message. Two digits carry numbers up to 159, not 99.
- `setMode` tests bit 4 of a digit for intro scan, which no nibble has, so the flag is
  never read from any frame (`LinkProofs.IntroScanNeverRead`).
- The time of a disk information message is ORed onto digits that are not zero and is read back only
  in four minutes (`LinkProofs.DiskInfoTimeRoundTrip`).
- A nibble broken off before its first bit is reported as 8, the bare marker.
- The stopped message says both stopped and play.
- A request for disk 7 is queued as NEXT and for disk 8 as PREV.
- A head unit's power-on is parsed but never turned into the command the application would answer.
- The checksum catches every single wrong nibble but not two nibbles exchanged.

## Reading the model

- Bytes are `bv8`. `unsigned long` and `unsigned int` are 32 bits. Sign extension of `int`
  expressions in the builders is written out (`LinkSpec.Widen`).
- The theorems give times, codes, command and error numbers and capacities as numbers, not by the names of
  the constants, so that they fix them.
- A schedule is any list of gaps between calls; nothing is assumed about where the counter starts.
- Preconditions come from the source's own limits. `FrameRoom` and
  `Fit`: the link has room for 31 symbols and END and writes past its buffer after that
  (`common/mbus/mbus_link.c:557-560`). `RoomThroughout`: the serialiser does not check for
  room in the transmit queue (`common/mbus/mbus_link.c:525-551`), and 16 queued messages can exceed
  its 256 bytes; `Output` proves that output is conserved exactly if each message finds room in the
  turn it is pushed in. Popping an empty queue is a failed assertion in the source. `AppOk`: a track
  list of 1 to 255, as 0 would divide by zero.
- `numNibbles` is taken to start at zero, which `mbus_link_init` does not establish.
- Fields a rejected message leaves unset are `false` and `NoBody`; so is the direction flag of a
  message refused after its direction was read, which no reader looks at.
- `NoReply` messages are those the device, hearing itself, does not take for a request. No message its
  builders make is taken for one, whatever the fields (`Delivery.BuiltNoReply`).
- The clock, the pin and what the application's play state machine sends are inputs of each turn.

## Model

| member | source | states |
|---|---|---|
| FifoQueue.Fifo.constructor | common/fifo.c:31-50 | over the caller's memory the queue starts empty, its capacity the memory's length |
| FifoQueue.Fifo.Reset | common/fifo.c:52-57 | empties the queue |
| FifoQueue.Fifo.Push | common/fifo.c:60-76 | appends the item, or changes nothing when full, with head wrapping around |
| FifoQueue.Fifo.Pop | common/fifo.c:78-91 | returns and removes the oldest item, with tail wrapping around |
| FifoQueue.Fifo.IsFull | common/fifo.c:93-96 | full if and only if as many items are inside as the memory holds |
| FifoQueue.Fifo.IsEmpty | common/fifo.c:98-101 | empty if and only if nothing is inside |
| FifoQueue.PushedFitting | common/fifo.c:60-76 | of a batch pushed without pops exactly the prefix that fits is kept |
| FifoQueue.NothingLost | common/fifo.c:60-91 | under any interleaving, what was popped followed by what is inside is what was accepted, in order |
| FifoQueue.Exercise | common/fifo.c:60-91 | the ring itself behaves so under any list of operations |
| PhyDevice.Receiver.constructor | common/mbus/mbus_phy.c:150-162 | disabled, shifter at its marker, empty queue |
| PhyDevice.Receiver.Enable | common/mbus/mbus_phy.c:51-52 | goes to idle, all else unchanged |
| PhyDevice.Receiver.ShiftInBit | common/mbus/mbus_phy.c:210-214 | shifts a one in if and only if the low was over 1282, else a zero |
| PhyDevice.Receiver.HandleRise | common/mbus/mbus_phy.c:208-224 | shifts one bit in by the length of the low and pushes the nibble once the marker reaches the top |
| PhyDevice.Receiver.HandleEdge | common/mbus/mbus_phy.c:197-230 | the edge half of an update, for every state |
| PhyDevice.Receiver.HandleTimeout | common/mbus/mbus_phy.c:233-265 | the timeout half: what is pushed, and where the state goes |
| PhyDevice.Receiver.Update | common/mbus/mbus_phy.c:189-272 | edges first and timeouts second, on the struct and its queue, equal to `RxStep` |
| PhyDevice.Transmitter.constructor | common/mbus/mbus_phy.c:164-176 | disabled with an empty queue |
| PhyDevice.Transmitter.Enable | common/mbus/mbus_phy.c:60-61 | enters ENABLE, all else unchanged |
| PhyDevice.Transmitter.Disable | common/mbus/mbus_phy.c:62-63 | enters DISABLED, all else unchanged |
| PhyDevice.Transmitter.IsBusy | common/mbus/mbus_phy.c:64-73 | busy if and only if enabled and not idle, or symbols wait |
| PhyDevice.Transmitter.ShiftOutBit | common/mbus/mbus_phy.c:294-299 | returns the top bit and shifts left |
| PhyDevice.Transmitter.StartNext | common/mbus/mbus_phy.c:343-360 | takes the next symbol: END to be waited out, or a nibble over the marker |
| PhyDevice.Transmitter.StartBit | common/mbus/mbus_phy.c:361-370 | starts the low of the next bit |
| PhyDevice.Transmitter.HoldLow | common/mbus/mbus_phy.c:371-388 | drives the line until the bit's low time is over |
| PhyDevice.Transmitter.Update | common/mbus/mbus_phy.c:322-412 | one update on the struct, its queue and the pin variable, equal to `TxStep` |
| ReceiverProofs.RiseGrammar | common/mbus/mbus_phy.c:208-224 | a rise adds one bit: the shifter becomes 8*2^k + the value of the bits seen, or the fourth pushes the nibble of exactly these four |
| ReceiverProofs.StepGrammar | common/mbus/mbus_phy.c:189-272 | every step keeps that, closes at most one burst, and puts each bit of the line in its place |
| ReceiverProofs.OutputGrammar | common/mbus/mbus_phy.c:189-272 | on every waveform and clock the output is bursts (nibbles and END; or nibbles, the value of the bits of a broken-off nibble, 8 if there were none, an error code and END; never empty) and then the nibbles of an open one, and the bits of all this with those in the shifter are exactly the bits on the line, in order |
| ReceiverProofs.StepBacklog | common/mbus/mbus_phy.c:189-272 | with one pop a call, the backlog stays under a bound that depends on the state |
| ReceiverProofs.FourIsEnough | target_teensy3/src/app_demo.cpp:195-210 | on every waveform and clock the receive queue never exceeds four symbols |
| ReceiverProofs.ThreeIsNot | common/mbus/mbus_phy.c:237-254 | a waveform that needs all four |
| ReceiverProofs.OnePulse | common/mbus/mbus_phy.c:197-230 | a low and a high within tolerance shift in exactly one bit, however often they are sampled |
| ReceiverProofs.DecodesTrain | common/mbus/mbus_phy.c:189-272 | any train of lows sampled for up to 2495 microseconds and highs for up to 3100 is decoded to the MSB-first packing of each four, a low over 1282 being a one |
| ReceiverProofs.QuietAfterNibble | common/mbus/mbus_phy.c:255-264 | after a nibble, exactly one END, code 18, and a receiver at rest if and only if some high sample is over 3100 microseconds after the rise; otherwise nothing changes |
| ReceiverProofs.LowTooLongExactly | common/mbus/mbus_phy.c:246-254 | in a low, the bits received, 16 and 18 are pushed, once, if and only if some low sample is over 2495 microseconds after the fall; otherwise nothing changes |
| ReceiverProofs.TimesOutExactly | common/mbus/mbus_phy.c:237-245 | inside a nibble, the bits received, 17 and 18 are pushed, once, if and only if some high sample is over 3100 microseconds after the rise; otherwise nothing changes |
| ReceiverProofs.FailedStaysLow | common/mbus/mbus_phy.c:225-229 | however long a spoilt low lasts, nothing more is pushed, and the next high sample makes the receiver idle |
| ReceiverProofs.IdleStaysQuiet | common/mbus/mbus_phy.c:200-207 | an idle receiver pushes nothing while the line is high |
| ReceiverProofs.DisabledIgnores | common/mbus/mbus_phy.c:197-199 | until it is enabled the receiver takes no notice of the line |
| TransmitterTiming.DrivenOnlyInLows | common/mbus/mbus_phy.c:322-412 | over every run the line is driven if and only if a bit's low is being sent |
| TransmitterTiming.LowLasts | common/mbus/mbus_phy.c:371-388 | for every schedule within a bit, the line is driven up to 1890 microseconds for a one and 675 for a zero, and released after that |
| TransmitterTiming.StepUpper | common/mbus/mbus_phy.c:343-407 | while busy every call takes its gap off the work left, or more |
| TransmitterTiming.DrainsWithin | common/mbus/mbus_phy.c:343-407 | for gaps of at most d up to 1210, at most 12400+9d a nibble and 6200+3d an END until everything is sent |
| TransmitterTiming.TakesAtLeast | common/mbus/mbus_phy.c:343-407 | for every schedule at least 12409 a nibble and 6203 an END |
| TransmitterTiming.FirstLowAfterTurnaround | common/mbus/mbus_phy.c:334-342 | nothing is driven or popped until more than 3100 after the enable was handled |
| TransmitterTiming.FourLowsPerNibble | common/mbus/mbus_phy.c:354-370 | over every run exactly four lows for each nibble taken, none for an END |
| ClosedLoop.StepKeeps | common/mbus/mbus_phy.c:178-186 | one looped step, receiver before transmitter, keeps the invariant and moves at most one symbol from pending to received |
| ClosedLoop.RunKeeps | common/mbus/mbus_phy.c:178-412 | so over every schedule: received followed by pending is what was queued |
| ClosedLoop.RoundTrip | common/mbus/mbus_phy.c:178-412 | for gaps up to 225, received is always a prefix of what was queued, everything before the symbol on the line has been received, and all of it once the transmitter is done |
| ClosedLoop.DeliversInTime | common/mbus/mbus_phy.c:178-412 | and that is within the work bound |
| JitterBound.ZeroSent | common/mbus/mbus_phy.c:361-398 | a zero bit followed microsecond by microsecond on both sides |
| JitterBound.LateCallsSplitMessage | common/mbus/mbus_phy.c:255-264 | with three gaps of 226 the nibbles 0, 0 and END are received as 0, END |
| JitterBound.ExactJitterBound | common/mbus/mbus_phy.c:178-412 | the round trip holds for all schedules with gaps up to d if and only if d is at most 225 |
| Rollover.ClockOriginIsInvisible | common/mbus/mbus_phy.c:189-412 | shifting all times modulo 2^32 changes no symbol, level or state of any run |
| Rollover.AnyClockFromInit | common/mbus/mbus_phy.c:140-176 | so a PHY just initialised behaves the same whatever the counter reads |
| Clock.ElapsedAcrossWrap | common/mbus/mbus_phy.c:210 | the difference of two 32-bit readings is the time between them, across a wrap of the counter at 4294967296 |
| LinkDevice.DoCheckSum | common/mbus/mbus_link.c:80-94 | accepts if and only if the last symbol is the checksum of the others |
| LinkDevice.ParseMsg | common/mbus/mbus_link.c:24-71 | copying loop, length, checksum and direction tests in the source's order, equal to `Parse` |
| LinkDevice.SendDigits | common/mbus/mbus_link.c:532-550 | pushes the digits most significant first, then checksum and END |
| LinkDevice.LinkLayer.constructor | common/mbus/mbus_link.c:469-492 | empty queues, receive mode, the transmitter's queue as output |
| LinkDevice.LinkLayer.RxMsgPush | common/mbus/mbus_link.c:596-610 | queues the parse of the frame without its END unless the queue is full |
| LinkDevice.LinkLayer.PushNibble | common/mbus/mbus_link.c:553-578 | collects symbols in the frame buffer; END parses and empties it |
| LinkDevice.LinkLayer.SendPendingTxMsg | common/mbus/mbus_link.c:525-551 | moves the oldest message, serialised, to the transmitter's queue |
| LinkDevice.LinkLayer.Update | common/mbus/mbus_link.c:494-523 | direction changes and sending, equal to `LinkStep` |
| LinkDevice.LinkLayer.RxPop | common/mbus/mbus_link.c:590-593 | returns and removes the oldest parsed message |
| LinkDevice.LinkLayer.TxPushOne | common/mbus/mbus_link.c:625-629 | queues a message, or drops it when the queue is full |
| LinkDevice.LinkLayer.TxPing | common/mbus/mbus_link.c:647-652 | queues the pong message |
| LinkDevice.LinkLayer.TxCdPowerOn | common/mbus/mbus_link.c:706-711 | queues the power-on message |
| LinkDevice.LinkLayer.TxPlayState | common/mbus/mbus_link.c:654-671 | builds and queues the playing or the stopped message |
| LinkDevice.LinkLayer.TxChanging | common/mbus/mbus_link.c:673-683 | builds and queues the changing message |
| LinkDevice.LinkLayer.TxDiskInfo | common/mbus/mbus_link.c:692-704 | builds and queues the disk information message |
| LinkProofs.AcceptsExactly | common/mbus/mbus_link.c:24-206 | accepted if and only if 3 to 32 symbols, no letter T, L or X, right checksum, and direction, command and length in the catalogue |
| LinkProofs.RefusedBecause | common/mbus/mbus_link.c:24-277 | for every sequence of symbols the error number: 2 for fewer than three, 1 for a letter among the first 32, 2 for more than 32, 3 for the checksum, 4 for the direction, 5 for an unknown command, 2 for a known one with a wrong length, 0 otherwise; the symbols kept are the first 32 |
| LinkProofs.FrameClosed | common/mbus/mbus_link.c:596-610 | END hands on the frame; four parsed messages are kept and a fifth is dropped |
| LinkProofs.OneWrongNibble | common/mbus/mbus_link.c:80-94 | any one nibble of an accepted frame replaced by another is reported as a checksum error |
| LinkProofs.ExchangePassesChecksum | common/mbus/mbus_link.c:80-94 | two body nibbles exchanged are not noticed by the checksum |
| LinkProofs.AbortRejected | common/mbus/mbus_link.c:80-94 | a frame whose last symbol is 16 or more is never accepted |
| LinkProofs.ContentHasNoLetters | common/mbus/mbus_link.c:40-47 | no frame the receiver delivers, whole or aborted, has a letter T, L or X or an END in it |
| LinkProofs.AbortedFrameRejected | common/mbus/mbus_phy.c:237-254 | every frame the receiver aborts is refused, with the length error if it has no whole nibble or more than 32 symbols, else the checksum error, never the signal error |
| LinkProofs.BuiltFrame | common/mbus/mbus_link.c:525-551 | every serialised message is nibbles with a right checksum, so only the catalogue decides |
| LinkProofs.BcdRoundTrip | common/mbus/mbus_link.c:631-634 | two digits, the tens modulo 16 and the units, give the number back if and only if it is at most 159 |
| LinkProofs.PlayingDigits | common/mbus/mbus_link.c:654-671 | all fifteen digits of a playing message; from 80 minutes on the first seven are wiped out by the sign |
| LinkProofs.ChangingDigits | common/mbus/mbus_link.c:673-683 | all eleven digits of a changing message; with bit 8 of the disk the first three are wiped out |
| LinkProofs.DiskInfoDigits | common/mbus/mbus_link.c:692-704 | all twelve digits of a disk information message, the fields ORed onto the template |
| LinkProofs.PlayingRoundTrip | common/mbus/mbus_link.c:654-671 | parsed back with its fields if and only if track is at most 158, index at most 159 and the time under 4800 seconds |
| LinkProofs.ChangingRoundTrip | common/mbus/mbus_link.c:673-683 | if and only if disk is at most 7 and track at most 158 |
| LinkProofs.DiskInfoRoundTrip | common/mbus/mbus_link.c:692-704 | disk and track count are parsed back if and only if at most 15 and 159, whatever the time |
| LinkProofs.DiskInfoTimeRoundTrip | common/mbus/mbus_link.c:697-701 | the time as well if and only if its minute is 75, 77, 155 or 157 and its second ends in 2, 3, 6 or 7, as it is ORed onto the digits 7, 5, 0, 2 |
| LinkProofs.PingParse | common/mbus/mbus_link.c:647-652 | the reply to a ping is read as a pong |
| LinkProofs.AckWaitParse | common/mbus/mbus_link.c:685-690 | the wait message is read as such |
| LinkProofs.UnknownStatusParse | common/mbus/mbus_link.c:713-718 | the unknown-status message is read as such |
| LinkProofs.CdPowerOnParse | common/mbus/mbus_link.c:706-711 | the power-on message is read as such |
| LinkProofs.StoppedParse | common/mbus/mbus_link.c:666-671 | the stopped message is read as stopped and play |
| Captures.StatusAsRecorded | common/mbus/mbus_link.c:647-718 | the digits and checksums of the constant messages and of a changing message |
| LinkProofs.IntroScanNeverRead | common/mbus/mbus_link.c:238 | no frame of nibbles, whoever sends it, sets the intro scan flag of a mode message |
| AppDevice.AppLayer.constructor | target_teensy3/src/app_demo.cpp:469-484 | disk 3, track 0 of 16, no commands |
| AppDevice.AppLayer.PushSimple | target_teensy3/src/app_demo.cpp:394-400 | queues a command unless the queue is full |
| AppDevice.AppLayer.PushPlayCommands | target_teensy3/src/app_demo.cpp:416-427 | stop, pause and play, in this order, as far as they are set |
| AppDevice.AppLayer.MoveTrack | target_teensy3/src/app_demo.cpp:433-457 | the new track and command of one track request, with C's remainder |
| AppDevice.AppLayer.DecodePush | target_teensy3/src/app_demo.cpp:402-463 | the effect of any parsed message on track and commands |
| AppSpec.OffsetIsBackwards | target_teensy3/src/app_demo.cpp:433-437 | the corrected C remainder is the distance backwards around the circle |
| AppSpec.StepsCloser | target_teensy3/src/app_demo.cpp:439-456 | a request takes the track one step the short way round, backwards at half the circle, or leaves it on the target; that is exactly one closer, and the command, 13 or 14, is the one for that step |
| AppSpec.ReachesTrack | target_teensy3/src/app_demo.cpp:428-457 | repeated, it is on the track if and only if at least the circular distance, at most n/2, has been walked |
| AppSpec.DecodeKeepsOk | target_teensy3/src/app_demo.cpp:402-463 | no message takes the track out of range, and a refused one changes nothing |
| AppSpec.QueuedAsFits | target_teensy3/src/app_demo.cpp:394-463 | the queue holds 32 commands: of what a message asks for as much is queued as finds room, and the track moves all the same |
| MainLoop.Loop.PhyUpdate | target_teensy3/src/app_demo.cpp:195-204 | the PHY's part of an iteration |
| MainLoop.Loop.PopSymbol | target_teensy3/src/app_demo.cpp:207-210 | at most one symbol to the link |
| MainLoop.Loop.LinkUpdate | target_teensy3/src/app_demo.cpp:213-222 | the link's update and the switch of the transmitter it asks for |
| MainLoop.Loop.DecodeMessage | target_teensy3/src/app_demo.cpp:496-503 | at most one parsed message is handed to the decoder, and returned |
| MainLoop.Loop.CarryOut | target_teensy3/src/app_demo.cpp:506-516 | at most one command, the oldest, is carried out and returned, and answered before anything else is sent |
| MainLoop.Loop.Iterate | target_teensy3/src/app_demo.cpp:194-224 | one iteration over the mutable layers is exactly one `Turn`, with the message heard and the command carried out in it |
| MainLoop.Setup | target_teensy3/src/app_demo.cpp:163-183 | the setup reaches the start state, receiver enabled, nothing shared but the transmit queue |
| BusProtocol.DirectionKept | target_teensy3/src/app_demo.cpp:213-222 | receive mode if and only if the transmitter is disabled; to transmit exactly when the receiver is in its idle state and a message waits; back exactly when no message waits and the ready transmitter has no symbol; the line is released at each change |
| BusProtocol.QueuesKept | target_teensy3/src/app_demo.cpp:207-224 | at most 4 symbols, 1 parsed message and 3 commands at any point of a turn; each nibble collected has used up a command |
| BusProtocol.AbortedFrameIgnored | target_teensy3/src/app_demo.cpp:402-410 | no burst the receiver aborts moves the track or queues a command |
| BusProtocol.EveryRunOrderly | target_teensy3/src/app_demo.cpp:186-224 | both hold at every turn of every run whose frames fit |
| BusProtocol.FromPowerUp | target_teensy3/src/app_demo.cpp:163-224 | from power-up, for every waveform, clock and application |
| BusProtocol.EnableHandled | common/mbus/mbus_phy.c:334-337 | the turn after an enable starts the turnaround with the line released |
| BusProtocol.LineReleasedInTurnaround | common/mbus/mbus_phy.c:338-342 | and for the next 3100 microseconds of turns the device leaves the line alone |
| Output.LinkTurnConserves | common/mbus/mbus_link.c:494-551 | a link update leaves the stream of symbols still to send as it is if and only if the transmit queue has room for the message it pushes; otherwise the stream gets shorter |
| Output.TurnConserves | target_teensy3/src/app_demo.cpp:194-224 | in a turn only the transmitter takes from the head and only accepted messages are added at the end, if and only if there is room for the message pushed in it |
| Output.SentInOrder | target_teensy3/src/app_demo.cpp:186-224 | over every run accepted messages are sent once, whole and in order, if and only if each found room in the turn it was pushed in |
| Output.LinkPushes | common/mbus/mbus_link.c:525-551 | in every update in transmit mode the oldest message, its checksum and END, and nothing else, are pushed |
| Output.SixteenAccepted | common/mbus/mbus_link.c:625-629 | the queue holds 16 messages: as many as find room are accepted, replies before sends |
| OwnBus.TurnHeard | target_teensy3/src/app_demo.cpp:194-224 | a turn of a device on its own bus hears nothing, or the parse of the first message owed |
| OwnBus.HearsItself | target_teensy3/src/app_demo.cpp:186-224 | over every run what is heard is the parse of the first of what was sent, and the rest is still owed |
| OwnBus.OwnMessagesHeard | common/mbus/mbus_link.c:525-578 | from power-up, for gaps up to 225 and whenever there was room: nothing lost, repeated, reordered or misread, and all heard once quiet |
| Delivery.DrainTurn | common/mbus/mbus_phy.c:343-407 | a turn hears nothing or the first message owed, and if nothing is sent takes its gap off the time left or stays quiet |
| Delivery.Drains | common/mbus/mbus_link.c:494-551 | over any run of sends without reply what is heard is the parse of the first of what was accepted; left alone the device sends and hears all it owes within the time left |
| Delivery.BuiltNoReply | common/mbus/mbus_link.c:647-718 | no message the device builds, whatever its fields and even if they cannot be read back, is taken by the device for a request to itself |
| Delivery.HeardInTime | target_teensy3/src/app_demo.cpp:186-224 | after any use of the link by sends without reply, at any load, the device left alone for the time left has heard everything accepted, each as its parse, and is quiet |
| Delivery.FieldsHeard | common/mbus/mbus_link.c:654-683 | in any use, at any load, what is heard in the place of a playing or changing message tells the fields it was built from |
| Delivery.MessageCost | common/mbus/mbus_link.c:532-550 | 14.425 ms for each digit and the checksum, 6.875 ms for END |
| Delivery.EndToEnd | common/mbus/mbus_link.c:525-578 | a fixed figure: messages a quiet device is given in one turn are heard after the turnaround and the cost of their symbols, and nothing else in between |
| Delivery.PlayingDelivered | common/mbus/mbus_link.c:654-671 | a playing message then arrives with its fields within 241.45 ms |
| Delivery.ChangingDelivered | common/mbus/mbus_link.c:673-683 | a changing message within 183.75 ms |
| Delivery.StartPlayingDelivered | target_teensy3/src/app_demo.cpp:581-599 | the five messages sent in the turn in which playing starts are all heard, in order and with their fields, and nothing else, within 860.375 ms |
| Reception.TurnReceives | target_teensy3/src/app_demo.cpp:194-224 | what a turn consumes, hears and carries out depends on the receiver, its queue, the frame and the application, and on nothing the device sends |
| Reception.RunReceives | target_teensy3/src/app_demo.cpp:186-224 | over every run, on every waveform whose frames fit: symbols are consumed in order, at most three left; the messages heard are the parses of exactly the frames they make; the commands carried out and those waiting are exactly what these messages ask for |
| Reception.CommandsFinish | target_teensy3/src/app_demo.cpp:506-508 | once nothing more is heard, all waiting commands are carried out, one a turn |
| Reception.CleanRun | target_teensy3/src/app_demo.cpp:207-210 | without error codes every symbol is consumed in the turn it is pushed in |
| AnyWaveform.NoLetterPushed | common/mbus/mbus_phy.c:237-254 | no waveform makes the receiver push a letter the parser takes for bad signalling |
| AnyWaveform.OnlyWholeOnesMean | target_teensy3/src/app_demo.cpp:402-410 | of the frames of any bursts, only those a gap ended are understood; aborted ones contribute nothing |
| AnyWaveform.LineToCommands | target_teensy3/src/app_demo.cpp:186-224 | from power-up, on every waveform whose frames fit: the bits on the line are the bits of bursts, the messages heard are the parses of the first of them, and track, waiting and carried-out commands are exactly what those a gap ended ask for |
| AnyWaveform.AttentiveAgain | common/mbus/mbus_phy.c:255-264 | after any waveform, noise and aborted frames included, a high line sampled past the gap limit and twice more makes the device attentive again, so that whatever a head unit says next is heard |
| AnyWaveform.TakesOnlyFreeLine | common/mbus/mbus_link.c:494-512 | from power-up, on every waveform: in the turn in which the device turns to transmit the line as last seen is high and every burst on it has been closed by an END |
| HeadUnit.EveryMessageReadBack | common/mbus/mbus_link.c:110-277 | each message of the catalogue, written digit by digit, is parsed to itself if and only if its fields fit |
| HeadUnit.EveryFrameRead | common/mbus/mbus_link.c:110-277 | any accepted frame of nibbles, whoever wrote it, is the message its command digits name, with exactly these digits and bits as its fields and no others |
| HeadUnit.SymbolsHeard | target_teensy3/src/app_demo.cpp:195-224 | however the receiver came to the symbols of a list of messages, the application hears these messages, each once and in order |
| HeadUnit.HeadUnitHeard | target_teensy3/src/app_demo.cpp:186-224 | whatever a head unit says within tolerance, message after message, however sampled and whatever the device sends meanwhile, is exactly what the application hears, and what it asks for is carried out or waits |
| HeadUnit.HeardInItsTurn | target_teensy3/src/app_demo.cpp:207-224 | a message is heard in the turn that looks at the line after the gap, and nothing before |
| HeadUnit.PlayRequest | target_teensy3/src/app_demo.cpp:416-427 | stop, pause and play on the wire become these commands in this order, behind those that waited, whatever the other flags |
| HeadUnit.TrackRequest | target_teensy3/src/app_demo.cpp:433-457 | a track request on the wire takes the track one step the short way round, which is one closer, and becomes NEXT if forward is strictly shorter, else PREV |
| HeadUnit.DiskRequest | target_teensy3/src/app_demo.cpp:429-431 | a request for another disk becomes the command as many beyond the first disk's as the disk is beyond one: its own if and only if it is one to six; 7 is NEXT and 8 is PREV |
| HeadUnit.FirstTrackRequest | target_teensy3/src/app_demo.cpp:469-484 | from power-up, track 0 of 16 of disk 3: a request for one of the next seven tracks moves forward, for all others backwards, for the first none |
| HeadUnit.NothingRequested | target_teensy3/src/app_demo.cpp:405-462 | a power-on, a mode or a changer's message becomes no command and moves nothing |
| HeadUnit.PongAccepted | target_teensy3/src/app_demo.cpp:509-512 | whenever a ping is carried out and the link's queue has room, the pong is the first message accepted |
| Captures.AnswersAsRecorded | target_teensy3/src/app_demo.cpp:509-516 | command 2 is answered by the digits of a pong, command 3 by those of the changer's power-on, and nothing else is answered |
| HeadUnit.PingAnswered | target_teensy3/src/app_demo.cpp:413-415 | a ping on the wire is carried out in the turn it is heard in, and its reply is the first message accepted |
| Answer.PingHeard | target_teensy3/src/app_demo.cpp:506-516 | a listening device with nothing to send, shown a ping, has exactly the pong to send and is attentive |
| Answer.PingAnsweredOnWire | common/mbus/mbus_link.c:494-551 | left the bus for 53.925 ms after it, the device turns the bus around and what goes over the line is the ping and exactly one pong, read without error, after which it is quiet |
| ReferenceEncoder.ToToggles | target_desktop/py_lib/mbus/nibbles/__init__.py:113-131 | the nested loops over nibbles and bits, equal to the waveform of the bits |
| ReferenceEncoder.TogglesInMicroseconds | target_desktop/py_lib/mbus/nibbles/__init__.py:113-131 | bit k falls 3100 microseconds for each bit after the start, 12400 for each nibble before the given time less 3100, and rises 1890 later for a one, 675 for a zero |
| ReferenceEncoder.HoldUntil | target_desktop/py_lib/mbus/toggles/__init__.py:131-133 | repeats of a level until the next edge, moving the previous element's own time |
| ReferenceEncoder.HeldExactly | target_desktop/py_lib/mbus/toggles/__init__.py:131-133 | a level is repeated one interval apart exactly as long as more than an interval is left |
| ReferenceEncoder.IntervalizedToggles | target_desktop/py_lib/mbus/toggles/__init__.py:126-135 | the whole sampler, on elements it mutates, equal to the sampling of their first values |
| ReferenceEncoder.ReferenceDecodes | target_desktop/py_lib/mbus/nibbles/__init__.py:113-131 | the receiver decodes the sampled waveform to exactly the nibbles, at any interval and clock, with no END |
| ReferenceEncoder.ReferenceMessageHeard | target_desktop/py_lib/mbus/nibbles/__init__.py:113-131 | every message of the catalogue, encoded by the library and sampled at any interval, is heard by the device's application, exactly once |
| ReferenceEncoder.ReferenceSampledFaithfully | target_desktop/py_lib/mbus/toggles/__init__.py:126-135 | the samples start ten intervals before the first edge with the line high, keep every edge, show its level, never go back and are at most two intervals apart |

## Left out

- ReferenceEncoder.ToToggles: nibbles 0 to 15 only; a larger value would format to more than four bits.
- LinkDevice.SendDigits: at most 16 digits, as more would shift a 64-bit number by its width or more.
- LinkDevice.LinkLayer.PushNibble: frames of at most 31 symbols before END, as the source writes past its buffer after that.
- FifoQueue.Fifo.constructor: queues of items, with element indices for the byte pointers and the memory copies; the allocating variant and the name string are not modelled.
- AppDevice.AppLayer.constructor: leaves out the state, index and seconds of the play state machine, whose sends are an input.
- Delivery.EndToEnd: the fixed figure is for sends of a quiet device in one turn; `Delivery.HeardInTime` covers sends at any time, and its bound is the time left of the state reached.
- Delivery.PlayingDelivered: likewise; `Delivery.FieldsHeard` has the fields at any load.
- Delivery.ChangingDelivered: likewise.
- The application's play and stop state machine and the Bluetooth module it drives; what it sends in a turn is an input.
- The Bluetooth driver `common/rn52/rn52.c`: serial callbacks and string tests around it.
- Formatting of messages as text, debug output, and the tables between nibbles and letters.
- Pins, registers, LED, serial ports, delays and the other programs of the Teensy target, which wire up the same core.
- The desktop library's ctypes bindings, file formats, time formats and command lines; the board design.
- A second transmitter on the line at the same time; `BusProtocol` and `Reception` allow any waveform, `OwnBus` and `Delivery` a bus nobody else drives.
