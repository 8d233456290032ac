# A verified model of the networked ball game

Several clients play one game of bouncing balls over a broadcast server, and
each of them simulates the whole game. This project models, in Dafny, what makes
their games the same game, and proves it:

| file | models |
|---|---|
| `Balls.dfy` | one step of the simulation, as in-place loops over arrays, proved against a specification that depends only on the *set* of actions |
| `BallsLaws.dfy` | what the simulation keeps: bounds of every reachable state, bookkeeping of deaths and scores, collision physics, the event order on 32-bit integers |
| `StepLaws.dfy` | what a step does in the game's own terms: keys, collisions, falls, places |
| `Delays.dfy` | `compute_delays` of fast event ordering |
| `EvVecs.dfy` | the growing event vectors of the clients, and when a trace loses one |
| `Replica.dfy`, `Rollback.dfy` | the rollback client of timewarp and fast event ordering, as a class with mutable traces |
| `Sessions.dfy` | several clients: convergence, perceptive consistency, absence and depth of rollbacks |
| `Buffer.dfy`, `Packets.dfy`, `PacketIO.dfy`, `Layouts.dfy` | byte buffers, the packet codec, and where each field is on the wire |
| `Framing.dfy` | sectioning a byte stream, the linked packet queue, the receiving pool |
| `Server.dfy` | the broadcast server as a transition system, one step per critical section |
| `EndToEnd.dfy` | codec, framing and server together: what a receiver makes of what a sender sent |
| `Game.dfy` | rollback clients on top of all that: one game, or one film |
| `StaleCounts.dfy`, `DeadReckoning.dfy` | dead reckoning: the predicting client, the authoritative server, and when the prediction is right |

## How the parts fit

The *log* of a client says which keys were pressed and which packets were
retrieved in each frame. From it `Filed` says which events each frame must hold,
and `StateAt` replays them from the initial state. The class `Client` repairs its
traces in place, as the C loops do, and is proved to keep them equal to that
replay in every run. The theorems about several clients are then about logs:
what the network did is in the logs, and the theorems say what follows from which
of its promises. `EndToEnd.Relayed` and `EndToEnd.RelayedSoFar` follow a sender's bytes through
the server to a receiver, in every run of the server, and `Game.dfy` derives the
promises from the runs. At any moment, with any bytes under way, timewarp clients
that have heard from the others past what was summoned for frame `k` hold the same
states up to `k` (`Games.SameGame`), and clients of fast event ordering the same
film, each shifted by a constant (`Games.SameFilm`). Two repetitions happen on the way, both
harmless to the states because a step depends on the set of actions: a client sends
its connection twice, and the server may send a late joiner one packet twice. They
do need room in the slots, see below.

A `World` is a state without `frame` and `_lie`; equality of worlds is equality
of states in all that is played with. `qsort` is a method of which only "some
sorted permutation" is known, so every tie order is covered. Where a C integer
could overflow, the model says so: `SeedsDoNotOverflow` gives the number of
frames for which `seed * 11` cannot, and `CompareFits` says exactly when the
differences in `compare_events` do not.

The specification functions are not the last word on what they specify. What a key
does, who survives a collision, when an event is on hold and when it is in a trace,
in which step the dead-reckoning server consumes it, and which bytes stand for which
number is also stated without them: `StepLaws.dfy`, `TimewarpTrace`, `OrderingTrace`
and `OnHoldWhen` in `Rollback.dfy`, `StampedFor` in `DeadReckoning.dfy`, `Value` in
`Buffer.dfy` and `Layouts.dfy`.

## Where the code differs from its design

- A push that finds an event vector full reallocates it, and the new pointer is not
  stored in the trace (src/game_timewarp.c:99-110, src/game_timewarp.c:251). The
  slot in the trace holds all events pushed through it if and only if they fit where
  it is (`EvVecs.PushAll`): at most 8, where the first growth moves it, and more where
  the allocator can extend the block in place. The clients are therefore modelled
  with a `room` for their slots, at least 8, and every theorem about their runs is
  for any room; `RoomIsEnough` says that every run has one that fits. With 8 not
  every game fits: a complete timewarp session puts `2 n - 1` connections of its `n`
  players in one frame, so it fits at most 4 players (`ConnectionsDoNotFit`), and a
  late joiner that retrieves more than 8 due events in one frame does not fit either
  (`LongHistoryDoesNotFit`).
- The framing loops (src/recvpool.c:110-126, src/server.c:278-304) do not leave
  while more than two bytes of an incomplete packet remain. The design sections
  the stream as often as possible and then waits (tex/04_implementacion.tex:60).
  The model waits, and `RecvPool.Receive` returns whether the loop as written
  would have come to an end: exactly when at most two bytes remain. For the server
  `Servers.Written` are the steps that the code as written can take, some of those
  modelled, so that all that holds of every run holds of its runs; a thread with more
  than two bytes of an incomplete packet reads and sends nothing any more
  (`SpinsForEver`).
- The design writes all packets to the history and then all to the send buffers
  (tex/04_implementacion.tex:61-62); the code does both for each packet in turn,
  and so does the model.
- The death count of a state is not sent (src/packets.c:54-66,
  src/packets.c:198-212). The receiver keeps the count it finds in its place.
  `StaleCountsMatter` gives the exact condition under which that is harmless.
- `compute_delays` starts its maxima at -1. For lags with which a player is more
  than one frame ahead of the reference on every node the result is not the least
  schedule; `LeastScheduleIff` gives the exact condition, and non-negative lags
  with a zero diagonal meet it.

## Model

| member | source | states |
|---|---|---|
| Balls.LastIsFinal | src/balls/balls.c:84-101 | In sorted events the last one for a player and button has the least `pressed` value given for them, so what the loops leave behind is a function of the set of actions |
| Balls.LastPressedMatches | src/balls/balls.c:111-118 | What the loop over the events leaves for a player and button is the value of a matching event, and the initial value if and only if there is none |
| Balls.InitialState | src/balls/balls.c:3-24 | The initial state: paused, no deaths or scores, twelve balls without owner or speed on the grid of the arena |
| Balls.ResetBall | src/balls/balls.c:75-82 | Only the given ball changes; it stops at the place of the middle grid that the seed chooses, with C's truncating division |
| Balls.CollideBalls | src/balls/balls.c:43-73 | Who is killed, or how the velocities are swapped, in all cases: not touching, both owned, bounce |
| Balls.ConnectPlayers | src/balls/balls.c:94-101 | After the loop every ball has the owner that the set of actions says, and the game is unpaused if and only if there was a connection |
| Balls.ReactToEvents | src/balls/balls.c:110-118 | The buttons of one ball become what the set of actions says; nothing else changes |
| Balls.UpdateBalls | src/balls/balls.c:104-158 | The in-place ball loop computes balls, scores and death count of `Moved`, for owners in range |
| Balls.CollideAll | src/balls/balls.c:159-174 | The nested in-place loop computes `CollidedRows`; every score index in it is in range |
| Balls.AdvanceState | src/balls/balls.c:84-176 | The step, sorting its array in place with any tie order, is the function `Advance` of the state and the *set* of actions; the array keeps its multiset, owners stay in range |
| Balls.SameActions | src/balls/balls.c:86-89 | Rearranged events stand for the same actions |
| BallsLaws.OnlyActionsMatter | src/balls/balls.c:84-118 | Permuting, repeating or re-stamping events, and the frame number of the state, do not change the next world |
| BallsLaws.PausedIdles | src/balls/balls.c:91-103 | A paused world without connections stays as it is |
| BallsLaws.ConnectionsRepeat | src/balls/balls.c:95-101 | A connection of a player that has its ball, in a game that has begun, changes nothing |
| BallsLaws.SaneAdvance | src/balls/balls.c:84-176 | A step keeps balls in the arena, speeds bounded, owners in place, scores non-negative and their sum at most the death count, which grows by at most 40 |
| BallsLaws.ReachableSane | src/balls/balls.c:84-176 | Every state reached by legal events has these bounds, its frame is the number of steps, and scores and deaths are at most 40 a frame |
| BallsLaws.SeedsDoNotOverflow | src/balls/balls.c:75-82 | For 4880644 frames no seed given to `reset_ball` overflows `seed * 11` |
| BallsLaws.BounceSeparates | src/balls/balls.c:61-70 | After a bounce the balls separate on both axes, and the velocities are those from before on each axis |
| BallsLaws.PairEnergy | src/balls/balls.c:160-173 | No pair collision increases the total squared speed |
| BallsLaws.CollisionLaws | src/balls/balls.c:159-174 | The all-pairs pass never increases the total squared speed, and without kills keeps the multisets of x and of y velocities |
| BallsLaws.CompareTotalPreorder | src/balls/balls.c:26-41 | The event order is a total preorder |
| BallsLaws.CompareFits | src/balls/balls.c:26-41 | The C comparison on 32-bit integers is that order if and only if the deciding difference fits |
| BallsLaws.CompareOverflowCycles | src/balls/balls.c:26-41 | When it does not fit the C comparison can go round in a circle |
| BallsLaws.CompareLaw | src/balls/balls.c:26-41 | An event comes first if it is a press before a release, or else by the lesser player, button and frame |
| StepLaws.ConnectLaw | src/balls/balls.c:94-101 | A connection gives ball `i` to player `i`, and a disconnection, which prevails, takes it away |
| StepLaws.NoConnectLaw | src/balls/balls.c:94-101 | Without either the ball stays as it is |
| StepLaws.BeginLaw | src/balls/balls.c:94-103 | The game begins with any connection or disconnection; scores and deaths are not touched |
| StepLaws.OwnedBallLaw | src/balls/balls.c:108-147 | An owned ball is pushed by 2 right, up, left and down by buttons 0 to 3 as the actions leave them, limited to 64 on each axis, and moves by its new velocity |
| StepLaws.FreeBallLaw | src/balls/balls.c:124-147 | A ball of nobody is pushed back by 2 from within 600 of each border and otherwise goes straight on |
| StepLaws.ResetLaw | src/balls/balls.c:75-82 | Reset balls stand still at one of nine places, in a given order of deaths |
| StepLaws.LandingLaw | src/balls/balls.c:148-157 | A ball in the arena stays where it moved; one that left it costs its owner a point, if there is one, and is reset |
| StepLaws.ApartLaw | src/balls/balls.c:46-48 | Balls not closer than two radii of 56 do not collide |
| StepLaws.KillLaw | src/balls/balls.c:50-57 | Of two owned balls that touch the first survives if strictly faster and otherwise the second; the survivor is unchanged and its owner scores one; the other stands still at the next place; nothing else changes |
| StepLaws.BounceLaw | src/balls/balls.c:58-70 | Other balls that touch exchange their velocities on each axis on which they are not separating; nothing else changes |
| StepLaws.MovedOne | src/balls/balls.c:104-158 | Balls move one after the other, each from where it was, with the deaths counted so far |
| StepLaws.CollisionOrder | src/balls/balls.c:159-174 | All 66 pairs collide once, in the order of the nested loop |
| StepLaws.OneCollision | src/balls/balls.c:84-176 | Players connect, then all balls move, then touching balls collide: with one touching pair the step is the moves and that collision |
| StepLaws.NoCollision | src/balls/balls.c:84-176 | And with none it is the moves |
| StepLaws.SteeringLaw | src/balls/balls.c:84-176 | What the player sees of its ball in a step without collisions: place, velocity and buttons from those before and the actions, also in the step of its connection |
| StepLaws.KeyLaw | src/game_timewarp.c:195-207 | One key on a ball at rest moves it right, up, left or down by 2 |
| StepLaws.InitialLaw | src/balls/balls.c:3-24 | The places of the twelve balls at the beginning, in numbers |
| Delays.ComputeDelays | src/game_fasteventordering.c:34-68 | Succeeds if and only if there is a client, always with the last player as reference; fills exactly the used part of `delays`, with `Delay` |
| Delays.FillDifs | src/game_fasteventordering.c:38-47 | The array of differences to a candidate reference |
| Delays.Adjust | src/game_fasteventordering.c:57-64 | `delays[i][p]` becomes `difs[p]` plus the lag of the reference on node `i` |
| Delays.DelaysAreSchedule | tex/01_modelos_consistencia.tex:30-32 | For any lags: the delays dominate the lags, keep the reference's column, and space any two players equally on every node |
| Delays.LeastScheduleIff | src/game_fasteventordering.c:41-46 | The delays are the pointwise least such schedule if and only if the initial -1 decides no maximum |
| Delays.ProperLagsGetLeast | src/game_fasteventordering.c:20-29 | Non-negative lags with a zero diagonal get the least schedule |
| EvVecs.EvVecPush | src/game_timewarp.c:99-110 | The caller's vector gets the event; the old one does too if it has room or can be extended, and is otherwise gone |
| EvVecs.PushAll | src/game_timewarp.c:177-217 | The slot of the trace holds all events filed in a frame if and only if they fit where it is |
| EvVecs.FillNewSlot | src/game_timewarp.c:86-110 | A new slot keeps all events if and only if it has room for them: at most eight, where the first growth moves it |
| EvVecs.RoomEnough | src/game_timewarp.c:103-107 | Where the allocator can extend a block far enough, a slot has room for any number of events |
| EvVecs.RoomSteps | src/game_timewarp.c:103-107 | The sizes a slot grows to: 8, 12, 18, 27 |
| Replicas.ReceivedMembers | src/game_timewarp.c:227-229 | The received events are the payloads of the EVENT packets |
| Replicas.OwnMembers | src/game_timewarp.c:158-217 | The events a client summons are its connection and its keys, stamped the local lag or its own delay ahead, and no others |
| Replicas.SameRules | src/game_timewarp.c:231-232 | The computed hold frame is the arrival without a lag and the later of arrival and end of the lag otherwise |
| Replicas.RoomIsEnough | src/game_timewarp.c:174-257 | Every run fits slots with room for one event more than were pressed and received |
| Replicas.LongHistoryDoesNotFit | src/game_timewarp.c:227-240 | A run in which more due events than a slot has room for are retrieved in one frame does not fit |
| Sessions.ConnectionsDoNotFit | src/game_timewarp.c:158-169 | A client of a timewarp session that got every other connection twice does not fit if twice the number of players, less one, exceeds the room |
| Replicas.SlotsCompareFits | src/balls/balls.c:26-41 | In the slots of a legal log the C comparison of 32-bit integers is the event order: no difference overflows |
| Replicas.FiledStep | src/game_timewarp.c:189-257 | What one frame adds to a slot: the own events `OwnDelay` ahead, and what was held for this frame, each exactly once |
| Replicas.DeliveredStep | src/game_timewarp.c:231-257 | What is delivered in a frame is exactly what was held for it |
| Replicas.DeliveredMembers | src/game_timewarp.c:231-257 | An event is in a slot if and only if it was received, is due, and executes then |
| Replicas.HeldMembers | src/game_timewarp.c:231-238 | An event is held for a frame if and only if it was received and that frame is max(arrival, summon frame + lag), or the arrival frame when the lag is 0 |
| Replicas.OwnEventsStay | src/game_timewarp.c:158-217 | The events of past frames do not change; a frame adds those of its keys |
| Replicas.SlotsLegal | src/game_timewarp.c:226-257 | What a legal log files is a legal script for the simulation |
| Rollback.Client.constructor | src/game_timewarp.c:117-169 | A new client is valid for the empty log, and has sent its connection once |
| Rollback.Client.FileOwn | src/game_timewarp.c:177-217 | Exactly the events of the pressed keys are added, to exactly the slot `OwnDelay` ahead |
| Rollback.Client.Broadcast | src/game_timewarp.c:219-224 | Exactly the own events of that slot are sent |
| Rollback.Client.Hold | src/game_fasteventordering.c:278-289 | One received event, as it is executed, goes to the slot of the later of its arrival and the end of its lag, and nowhere else |
| Rollback.Client.Receive | src/game_timewarp.c:226-240 | All received events go on hold, each in its slot |
| Rollback.Client.Merge | src/game_timewarp.c:242-257 | What is due is added to the trace, each event to its frame, and `minFrame` is the oldest frame touched |
| Rollback.Client.Recompute | src/game_timewarp.c:260-271 | One state is recomputed from the one before and the events of its slot |
| Rollback.Client.Resync | src/game_timewarp.c:259-272 | Recomputing from the oldest touched frame makes every state the replay from scratch |
| Rollback.Client.Step | src/game_timewarp.c:174-285 | One frame keeps the client valid for its log: every cached state equals the full replay and every slot holds what it must; the recomputation starts at the oldest touched frame; if nobody returns the client its own events, it sends exactly the events it summoned; requires that the slots have room, for any room |
| Rollback.Client.MergeAndResync | src/game_fasteventordering.c:293-323 | Merging and recomputing restores the cache from any set of late events |
| Rollback.Play | src/game_timewarp.c:174-285 | Every legal run whose slots have room, for any room, ends in a valid client with that log; all it sent is by its player, and if nobody returns it its own events it is, as a set, exactly what it summoned, in the order of the frames |
| Rollback.CacheIsReplay | src/game_timewarp.c:259-272 | Every cached state of a valid client is the replay of its own event trace up to that frame, has that frame number, and is within the bounds of the game |
| Rollback.DeliveredOnce | src/game_timewarp.c:226-257 | An event is in the trace as often as the client summoned it plus as often as it arrived and became due: nothing lost, nothing invented |
| Rollback.TimewarpTrace | src/game_timewarp.c:177-257 | An event is in the trace of a timewarp client if and only if the player summoned it `localLag` before its frame, or it was received and the lag to its player is over |
| Rollback.OrderingTrace | src/game_fasteventordering.c:226-308 | The same for fast event ordering, where a received event is in the frame of the delays |
| Rollback.OnHoldWhen | src/game_timewarp.c:231-238 | An event is on hold for a frame if and only if it was received and that frame is its arrival, without a lag or with one that was over, or the end of the lag |
| Rollback.SlotsFitBefore | src/game_timewarp.c:86-92 | If the slots fit at the end of a run they fitted all along |
| Rollback.SentOwn | src/game_timewarp.c:219-224 | The own events in the slot just filed are exactly those summoned in this frame |
| Sessions.SlotIsSummoned | src/game_timewarp.c:226-257 | The actions in a client's slot are exactly those that all players summoned their offset before, whatever the arrival order, lateness and repetition |
| Sessions.Convergence | src/game_timewarp.c:226-272 | Two timewarp clients that have everything for the frames up to `k` are in the same state at `k` |
| Sessions.SeesFilm | src/game_fasteventordering.c:226-323 | A client of fast event ordering shows picture `f` of one common film in frame `f` plus its own constant |
| Sessions.PerceptiveConsistency | tex/01_modelos_consistencia.tex:28-34 | All clients see the same film, each shifted by a constant: their worlds are equal at the shifted frames |
| Sessions.TimelyIsComplete | src/game_fasteventordering.c:276-308 | If every event arrives by its summon frame plus lag, every client has all events when their frame comes |
| Sessions.HeldInTime | src/game_fasteventordering.c:280-283 | With timely arrivals no event is held beyond its execution frame |
| Sessions.NoRollback | src/game_fasteventordering.c:276-311 | With timely arrivals every recomputation of fast event ordering starts at the present frame |
| Sessions.RollbackDepth | src/game_timewarp.c:231-260 | With timely arrivals timewarp recomputes at most max(0, greatest lag - local lag) + 1 frames |
| Buffers.Buffer.PushAny | src/buffer.c:53-59 | Where there is room the bytes are appended, and the bytes before and behind them are unchanged |
| Buffers.Buffer.PushInt16 | src/buffer.c:115-119 | Appends two bytes whose value, most significant first, is the integer in two's complement |
| Buffers.Buffer.PushInt32 | src/buffer.c:121-125 | Appends four bytes whose value, most significant first, is the integer in two's complement |
| Buffers.Buffer.PushString | src/buffer.c:137-142 | Appends length and characters |
| Buffers.Buffer.PopAny | src/buffer.c:64-70 | Gives the next bytes, or fails without moving if there are not enough |
| Buffers.Buffer.PopChar | src/buffer.c:144-149 | Gives the next character, or fails without moving |
| Buffers.Buffer.PopInt16 | src/buffer.c:151-156 | Gives the integer that the next two bytes stand for, or fails without moving |
| Buffers.Buffer.PopInt32 | src/buffer.c:158-163 | Gives the integer that the next four bytes stand for, or fails without moving |
| Buffers.Buffer.PopString | src/buffer.c:175-206 | Takes as many characters as the length says and the array holds with its NUL, and gives the text up to the first NUL; fails exactly when the bytes are too few or the length is negative |
| Buffers.ValueDetermines | src/buffer.c:115-125 | No other bytes of the same length have the same value |
| Buffers.Int16RoundTrip | src/buffer.c:115-156 | Reading what was written gives every 16-bit integer back |
| Buffers.Int32RoundTrip | src/buffer.c:121-163 | Reading what was written gives every 32-bit integer back |
| Buffers.StringRoundTrip | src/buffer.c:137-206 | Reading what was written gives every NUL-free text that fits back |
| PacketIO.PacketSerialize | src/packets.c:226-253 | For every type the buffer holds exactly the encoding and is exactly full: no push grows it |
| PacketIO.StateSerialize | src/packets.c:198-212 | The fields of a state, in order, fill the buffer exactly |
| PacketIO.EventSerialize | src/packets.c:214-224 | The fields of an event, in order, fill the buffer exactly |
| PacketIO.PacketDeserialize | src/packets.c:78-119 | Gives what `Decode` says of the unread bytes, or nothing when they are too short |
| PacketIO.StateDeserialize | src/packets.c:54-66 | Reads a state field by field; the death count is whatever was there |
| Packets.RoundTrip | src/packets.c:78-253 | For every payload: decoding the encoding gives it back, but for the death count, and the size field is the byte length |
| Packets.TaggedRoundTrip | src/server.c:124-142 | The same after the sender's id was put in, with that id |
| Packets.PrefixRejected | src/packets.c:78-119 | Every strict prefix of an encoding is rejected |
| Packets.TaggedPrefixRejected | src/packets.c:78-119 | Every strict prefix of a tagged packet is rejected |
| Packets.DecodeExtends | src/packets.c:78-119 | What is decoded does not depend on what follows, and what follows is left over |
| Layouts.EveryPacketHeaded | src/packets.c:121-128 | Every packet begins with its length in network order and the character of its type |
| Layouts.PlainLayouts | src/packets.c:130-176 | Where the fields of the test packets, the handshake and a text are |
| Layouts.SomePackets | src/packets.c:148-176 | The bytes of a CONNECTED packet and of the handshake with id 1 |
| Layouts.EventLayout | src/packets.c:214-224 | Where the fields of an event are |
| Layouts.BallPacketLayout | src/packets.c:178-196 | Where the fields of a ball are |
| Layouts.StateLayout | src/packets.c:198-212 | Where the fields of a state are: the death count is nowhere |
| Layouts.TaggedLayout | src/server.c:124-142 | A tagged packet has the sender's id between size and type, and nothing else changed but the size |
| Framing.SectionsConserve | src/recvpool.c:110-126 | The sections and the rest are, put together, the bytes received |
| Framing.ChunksDoNotMatter | src/recvpool.c:93-127 | The packet list is the same however the stream was cut into chunks |
| Framing.SectionsOfFlatten | src/recvpool.c:110-126 | Sectioning undoes concatenation of well-formed packets, whatever incomplete bytes follow |
| Framing.PacketsSurvive | src/recvpool.c:93-127 | Any packets in any chunks come out as the same packets with nothing left over |
| Framing.EncodeWellFormed | src/packets.c:121-128 | Every serialised packet can be sectioned |
| Framing.TaggedWellFormed | src/server.c:124-142 | A tagged packet can be sectioned, if there is room for the id in its size field |
| Framing.PacketQueue.Push | src/recvpool.c:24-40 | The linked queue is extended at its end |
| Framing.PacketQueue.Pop | src/recvpool.c:42-59 | The first node is taken off the linked queue, or nothing from an empty one |
| Framing.RecvPool.Receive | src/recvpool.c:93-127 | The queue gets exactly the sections of the accumulated bytes; queued packets and accumulator together are all bytes received; the loop as written ends if and only if at most two bytes remain |
| Framing.RecvPool.SectionAll | src/recvpool.c:110-126 | The sectioning loop queues all sections in order and leaves the rest |
| Framing.RecvPool.Retrieve | src/recvpool.c:157-178 | The packets are retrieved in the order they were sent, each once, decoded; one that cannot be read gives nothing but is gone |
| Servers.ValidKept | src/server.c:144-342 | Every step of every thread keeps the shape of the client list and the lock, each client's own promises, and that only the newest client may be unfinished |
| Servers.StreamsKept | src/server.c:144-220 | Every step keeps, for every receiver and sender, the exact relation between what the receiver has and what the sender logged and broadcast |
| Servers.NothingMissing | src/server.c:144-166 | In every run, once a sender has broadcast what it read, every other client has exactly its packets in order, but for at most one that it has twice in a row, and that only if registered later |
| Servers.NothingOutOfOrder | src/server.c:288-303 | At any moment what a client has of a sender is a prefix of that |
| Servers.RepeatedIffCaughtBetween | src/server.c:288-303 | A packet is repeated if and only if the registration copied the history between the sender's history append and its broadcast, and it is that packet |
| Servers.ConnectedTwice | src/server.c:149-159 | There is a run in which a client hears twice that another connected |
| Servers.NothingOfItsOwn | src/server.c:210-216 | No client gets its own packets |
| Servers.NoLostWakeup | src/server.c:307-338 | A send buffer is non-empty if and only if there is a pending byte in the pipe; when the thread comes to it, it can flush, and then all was sent and the pipe is empty |
| Servers.EveryThreadGoesOn | src/server.c:222-394 | No thread waits for anything but the context mutex and its input |
| Servers.HandshakeFirst | src/server.c:371-390 | What goes out to a client is its untagged handshake and then only tagged packets |
| Servers.HistoryIsInput | src/server.c:277-304 | When a thread waits for input its history is the packets of all bytes it received |
| Servers.HolderGoesOn | src/server.c:202-220 | The holder of the context mutex can always take a step, which leaves it less to do or releases the mutex |
| Servers.SpinsForEver | src/server.c:278-304 | The loop as written: a thread with more than two bytes of an incomplete packet never reads, records or sends again, in any run |
| Servers.BackAtSelect | src/server.c:278-304 | A thread without a whole packet can read, as written, if and only if it does not spin |
| Servers.ThreeBytesOfSeven | src/server.c:277-304 | Three bytes of a handshake make a thread spin |
| EndToEnd.SenderSurvives | src/server.c:124-142 | The id that is read from a tagged packet is the one put in, whatever the packet contains |
| EndToEnd.StreamIsRead | src/packets.c:78-119 | A receiver decodes the packets of one sender out of its mixed stream, in their order |
| EndToEnd.RunFits | src/server.c:124-142 | Everything a run puts in a send buffer can be tagged and sent |
| EndToEnd.InputIsLogged | src/server.c:276-304 | The history of a client whose bytes were all read is what it serialised |
| EndToEnd.Relayed | src/server.c:222-342 | From one client's payloads through framing, history, broadcast, flush and framing again in any chunks: the other finds its handshake, that the sender connected, and exactly the payloads in order, with at most one repeated, and none if it was there first |
| EndToEnd.SameEvents | src/game_timewarp.c:226-240 | The set of events heard from a sender is the set it sent |
| EndToEnd.HistoryIsPrefix | src/server.c:276-304 | At any moment of any run what a client is known to have said is a beginning of what it serialised |
| EndToEnd.RelayedSoFar | src/server.c:222-342 | At any moment of any run, for any beginning of the bytes in any chunks: a receiver can retrieve a beginning of what a sender said, in order, with at most one payload repeated |
| EndToEnd.RelayedFromOthers | src/server.c:202-220 | All that a client can retrieve is from other clients that there are |
| Games.OnlineIsLinked | src/server.c:144-342 | After any run of the server, with anything under way: what a client retrieved is a beginning of what each other player sent, and nothing else |
| Games.LinkedIsFaithful | src/game_timewarp.c:219-240 | Nobody gets its own events back, so every client sends exactly what it summoned |
| Games.LinkedIsAuthentic | src/game_timewarp.c:226-240 | Every event a client gets was summoned, as it is, by the player it names |
| Games.HeardBefore | src/game_timewarp.c:227-240 | Who has heard something a player summoned after a frame has heard all it summoned up to that frame |
| Games.LinkedIsComplete | src/game_timewarp.c:226-257 | A client that has heard from all others past what was summoned for frame `t` has everything for the frames up to `t`, although the game goes on |
| Games.SameGame | src/game_timewarp.c:174-285 | After any run of the server, with anything under way: two timewarp clients that have heard past what was summoned for frame `k` have equal states in their traces up to `k` |
| Games.SameFilm | src/game_fasteventordering.c:223-336 | And two clients of fast event ordering that have heard past picture `f` have equal worlds at `f` in their traces, each shifted by its lag to the reference |
| StaleCounts.AdvanceOff | src/balls/balls.c:75-176 | A step without resets, or with death counts that choose the same places, is the same step but for the count |
| StaleCounts.StaleCountsMatter | src/balls/balls.c:75-82 | Two death counts lead every world in play through the same step if and only if they differ by a multiple of nine and the stale one is not negative; a world in play is any that a client may be sent |
| DeadReckoning.StampedIsSummoned | src/game_deadreckoning.c:266-267 | The own events stamped for a step are those summoned the local lag before |
| DeadReckoning.StatesMembers | src/game_deadreckoning.c:246-249 | The received states are the payloads of the STATE packets |
| DeadReckoning.AllEventsMembers | src/dr_server.c:78-88 | The collected events are those of each player's EVENT packets, of all players |
| DeadReckoning.Predictor.constructor | src/game_deadreckoning.c:140-186 | A new client is valid for the empty log, and has sent its connection once |
| DeadReckoning.Predictor.FileOwn | src/game_deadreckoning.c:196-236 | Exactly the events of the pressed keys are added to the present frame's slot |
| DeadReckoning.Predictor.Send | src/game_deadreckoning.c:238-243 | All events of the present frame are sent |
| DeadReckoning.Predictor.Receive | src/game_deadreckoning.c:245-250 | The received states are remembered in order |
| DeadReckoning.Predictor.Load | src/game_deadreckoning.c:251-258 | At most one remembered state is loaded, the next, once its simulated arrival has come |
| DeadReckoning.Predictor.Predict | src/game_deadreckoning.c:260-272 | Going on from any base applies in each step exactly the own events stamped for it; the trace keeps what it holds |
| DeadReckoning.Predictor.Step | src/game_deadreckoning.c:191-286 | Every frame ends with the prediction for the present frame from the last loaded snapshot, the next being loaded exactly when its simulated arrival has come, and sends exactly the own events of the frame |
| DeadReckoning.Server.Step | src/dr_server.c:78-97 | The server advances by the events of all players together, and sends each player the state with the summon frame of its last event |
| DeadReckoning.SentIsSnapshot | src/dr_server.c:91-95 | What a client receives of a sent state is a snapshot, whatever death count it finds |
| DeadReckoning.SnapshotStays | src/dr_server.c:89-95 | A snapshot stays one when the server goes on |
| DeadReckoning.PredictionIsServer | src/game_deadreckoning.c:260-272 | If the server consumes in each step exactly the client's events stamped for it, up to a repeated connection, the prediction from any snapshot is the server's state but for the death count, while no ball was reset since or the stale count chooses the same places |
| DeadReckoning.ClientShowsServer | src/game_deadreckoning.c:252-272 | So a client shows the server's state of the present frame, whichever snapshots it loaded and when |

## Left out

- Windows, key polling, drawing and the wall clock: pressed keys are an arbitrary input of each frame.
- Sockets, `select`, pipes and threads themselves: reads are arbitrary chunks, sends append to an output sequence, a critical section is one step; send and allocation errors are not modelled.
- Rollback.Client.Step: does not model a client that goes on with a slot that has been moved away from its trace, because what it then reads is freed memory; runs are those whose slots have room (`SlotsFit`), see "Where the code differs from its design".
- Rollback.Client.MergeAndResync: requires room in the slots, as Rollback.Client.Step.
- Rollback.Play: requires room in the slots, as Rollback.Client.Step.
- DeadReckoning.Predictor.Step: requires room in the slot of the frame, as Rollback.Client.Step.
- Buffers.Buffer.PushAny: does not model the growing path, because `__buffer_push_any` moves the buffer without telling its caller; no serialiser needs it, as `PacketIO.PacketSerialize` shows.
- Framing.RecvPool.SectionAll: a packet with a size field of zero or less makes the loop as written turn for ever or move bytes backwards; the model stops there and returns `false`.
- Servers.StreamsKept: clients send only packets of 3 to 32763 bytes whose size field is true, and stay connected; disconnection, shutdown and the DISCONNECTED broadcast are not modelled.
- Servers.NoLostWakeup: a full notification pipe, on which the writer would block while holding the mutexes, is not modelled.
- The growth of byte vectors (src/bvec.c:12-24): they are sequences; that one growth per call is enough for a history copy is not claimed.
- The traces of the clients are maps from frames to sequences of events; `advance_state` sorts a copy of a slot that is then written back. Aliasing between slots is not modelled.
- The frame counter and event frames of a client are unbounded integers; only the event order, the seeds of `reset_ball` and the packet fields are related to machine integers.
- Remote events with an unknown player or an execution frame before 1, on which the C code would index out of its arrays, are excluded by `LegalInput`; connect events of unknown players by `Legal`.
- EndToEnd.Relayed: the stale death count found by the receiver is the same for all packets of one stream; no client of the broadcast server sends states.
- DeadReckoning.PredictionIsServer: other players are idle or absent, since the server consumes exactly what the one client assumes; what happens when others act is a correction by the next snapshot, about which nothing is claimed.
- `print_packet`, the float operations of the buffer, src/client.c, src/main.c and src/game.c: user interface or demonstrations.
- extra/java and extra/fast_event_ordering.py: a variant whose states draw random numbers, and an exploratory copy of `compute_delays`.
- Trailing State Synchronization: described in the documents, without code.
