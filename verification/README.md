# Helbreath backend: a model of its stateful core

A game server's wire codec, its gateway, the world coordinator with its map instances, its rate
limiters and two of its tools, as Dafny programs with proofs. Code that updates state in place is a
class or a method with loops, proved against a specification function; code that several tasks run
side by side is a machine of interleaved steps with an invariant that every step keeps; the laws are
lemmas about the functions, the reachable states and the whole runs.

| file | what it models |
|---|---|
| `Wrappers.dfy` | options, results, bytes, sequence facts |
| `Codec.dfy` | the run-length compressor and its inverse, the XOR stream |
| `Framing.dfy` | frames, wire frames, the incremental splitter, the capture tools' splitters |
| `Commands.dfy` | client commands, the per-state rules, the phase machine, the accepted language |
| `SessionLoop.dfy` | a connection's read loop: bytes in, enqueued commands out |
| `Gateway.dfy` | connections, FIFO queue and router as interleaved steps |
| `GatewayRecords.dfy` | the router's session records over whole runs |
| `GatewayLog.dfy` | the gateway's runs with a history of what becomes of each command |
| `Admission.dfy` | the per-address connection limit |
| `World.dfy` | the world coordinator and its counters |
| `MapServer.dfy` | one tick of a map instance, phase by phase, as functions |
| `MapLaws.dfy`, `MapRuns.dfy` | what ticks keep, and what holds over whole runs |
| `TickOrder.dfy` | a tick's whole output, phase by phase and in order |
| `CombatLaws.dfy` | combat and the skill budget told from the commands sent |
| `MapInstances.dfy` | the map instance as an object, proved to do what those functions say |
| `WorldService.dfy` | runtime manager, coordinator, router tasks and instances as interleaved steps |
| `MapManager.dfy` | the runtime manager as an object, one uninterrupted call at a time |
| `TokenBucket.dfy` | the token bucket and the window bound it is equivalent to |
| `LoginLimiter.dfy` | the fixed-window login limiter |
| `ReplayMerge.dfy` | the replay-case merger: merging by key, and the renaming pass |
| `Markdown.dfy` | the block machine of the documentation generator |

Conventions. A byte is a natural number below 256. Hash-map iteration orders are arbitrary: a tick
is told the orders it met and the laws hold for all of them. Instants are arguments. What a remote
service answers is chosen freely at each step. Messages sent to another task are appended to a
queue and are never refused.

Things worth knowing about the code that the proofs bring out:

- A frame's length field is a 16-bit cast, so a payload above 65533 bytes is encoded as a frame that
  always fails to decode, with `InvalidLength`.
- The branch of `FrameCollector.feed` that skips a byte can never run: 2 plus a 16-bit length is at
  most 65537.
- A `Logout` of a session the coordinator does not track lowers a counter (`World.StrayLogoutMiscounts`
  is such a run). `World.ExactUnlessStray` says that this is the one thing that makes exact counters
  inexact, and only when the named map has sessions.
- The runtime manager removes a runtime and sends its `UnregisterMap` in two steps. A map activated
  again in between ends up in the table but unregistered (`WorldService.ReactivationInTheGap`);
  `WorldService.UnregisterSendAgrees` says exactly when the send keeps the two in agreement.
- The login limiter admits at most 59 calls in any closed minute, one less than twice its limit, and
  59 is reached.
- The token bucket's equivalence needs the present instant among the refill instants: without it a
  bucket idle for long would seem to allow more than its burst.
- `Heartbeat` and `Logout` are routed without a guard and fall back to map 1 when the session's
  record is gone (`Gateway.UnguardedTarget`). A client that logs out and hangs up at once can thereby
  have its `Logout` sent to map 1 instead of its own (`Gateway.LogoutCanMissItsMap`, a complete run);
  `Gateway.ResolvedMapIsKept` says exactly when the map survives. What such a `Logout` does to the
  world is `WorldService.MisroutedLogoutLeavesPlayer`, a run in which a live instance keeps a player
  the books no longer track; `WorldService.RouteAgrees` says exactly which messages do that.
- `skill_id.abs()` of the least 32-bit integer is taken as it is in builds without overflow checks:
  the value itself. The damage is then 8 and the laws cover it; with overflow checks that one id
  stops the instance.

## Model

| member | source | states |
|---|---|---|
| Codec.Compress | crates/net/src/lib.rs:617-643 | the two nested loops write exactly the tokens of the payload's runs, each cut at 255 bytes |
| Codec.RunAtIsMaximal | crates/net/src/lib.rs:626-629 | the inner loop stops at the end of the run, of the payload, or at 255, and nowhere else |
| Codec.RunAtIsUnique | crates/net/src/lib.rs:626-629 | no other length has that property |
| Codec.WriteToken | crates/net/src/lib.rs:631-639 | runs of four or more and every run of 0xFF become an escape triple, other runs are written out |
| Codec.Decompress | crates/net/src/lib.rs:645-679 | the decoding loop yields what the stream stands for under the output limit, or the error of its first fault |
| Codec.InflateLiterals | crates/net/src/lib.rs:652-659 | plain bytes stand for themselves, one unit of the limit each |
| Codec.InflateToken | crates/net/src/lib.rs:661-675 | every token of the compressor stands for its run, or exceeds the limit |
| Codec.DecodedByPieces | crates/net/src/lib.rs:645-679 | a stream cut into pieces that fit the limit and a rest decodes to what the pieces mean if the rest is empty, and fails as malformed or as too large if the rest begins with such a piece |
| Codec.EveryStreamHasPieces | crates/net/src/lib.rs:645-679 | every stream can be cut in one of these three ways, so the decoder's answer is told by the pieces alone |
| Codec.RoundTrip | crates/net/src/lib.rs:617-679 | decompressing what was compressed gives the payload back exactly when the limit admits it, and otherwise the too-large error |
| Codec.LengthOfCompressed | crates/net/src/lib.rs:617-643 | the length of the output, token by token |
| Codec.LengthByMaximalRuns | crates/net/src/lib.rs:617-643 | the output's length is the sum over maximal runs of r equal bytes of 3*(r/255) + min(r%255, 3), or of 3*ceil(r/255) for 0xFF |
| Codec.DropFromRun | crates/net/src/lib.rs:617-643 | leaving out the first k bytes of a run never saves more than one token costs |
| Codec.OptimalFrom | crates/net/src/lib.rs:617-679 | no stream for the rest of a payload is shorter than the compressor's |
| Codec.Optimal | crates/net/src/lib.rs:617-679 | no byte string that decompresses to a payload, under any limit, is shorter than the compressor's output |
| Codec.SpelledInflates | crates/net/src/lib.rs:645-679 | spelling bytes out one by one is a valid stream of two extra bytes per 0xFF |
| Codec.ExpansionBound | crates/net/src/lib.rs:617-643 | compression adds at most two bytes per 0xFF in the payload |
| Codec.EscapesUnlessPlain | crates/net/src/lib.rs:631-639 | the output has an escape if and only if the payload has a 0xFF or a byte four times in a row |
| Codec.PlainStays | crates/net/src/lib.rs:617-643 | every other payload is left as it is |
| Codec.XorTwice | crates/net/src/lib.rs:601-610 | exclusive or with the same key undoes itself |
| Codec.XorBit | crates/net/src/lib.rs:607 | exclusive or sets exactly the bits in which its arguments differ |
| Codec.StreamKeySteps | crates/net/src/lib.rs:606 | the key is the seed at index 0 and 31 more, modulo 256, at each next index |
| Codec.ObfuscatedBit | crates/net/src/lib.rs:601-610 | each byte that goes out differs from the payload's in exactly the bits of its key |
| Codec.ObfuscateTwice | crates/net/src/lib.rs:601-615 | the seeded stream is its own inverse, wrapping index and all |
| Framing.FrameRoundTrip | crates/net/src/lib.rs:381-411 | a frame decodes to its opcode and payload exactly when the payload is at most min(65533, limit) bytes; each other size has its own error |
| Framing.DecodedFrameIsCanonical | crates/net/src/lib.rs:381-411 | every frame that decodes is the encoding of its opcode and payload |
| Framing.DecodedByBytes | crates/net/src/lib.rs:381-402 | a frame by its bytes: both numbers low byte first, the rest payload; and which of the three errors any other byte string gets |
| Framing.ClearEncodedPayload | crates/net/src/lib.rs:681-709 | undoing stream and compression gives the payload, or the too-large error beyond the limit |
| Framing.EncodedSize | crates/net/src/lib.rs:681-690 | the encoded payload is the compressed one, and bounded by two extra bytes per 0xFF |
| Framing.WireRoundTrip | crates/net/src/lib.rs:681-717 | for every opcode, payload, seed and compression flag, which of the four outcomes an encoded wire frame decodes to, by the two sizes alone |
| Framing.SplitIsCut | crates/net/src/lib.rs:756-775 | frames and residue concatenate to the input, every frame is as long as its first two bytes say, low byte first, and the residue is shorter than its own say |
| Framing.CutIsUnique | crates/net/src/lib.rs:756-775 | there is no other such cut |
| Framing.SplitAppend | crates/net/src/lib.rs:756-775 | bytes that arrive later never change a frame already cut |
| Framing.ChunkingIsIrrelevant | crates/net/src/lib.rs:756-775 | however a stream is cut into reads, frames and residue are those of the whole stream |
| Framing.ReadBuffer.Read | apps/gateway/src/main.rs:1007-1013 | a read appends to the session's buffer |
| Framing.ReadBuffer.SplitFrames | crates/net/src/lib.rs:756-775 | the loop takes every whole frame off the buffer and leaves the residue |
| Framing.FrameCollector.Feed | deploy/scripts/capture_replay_frames.py:43-60 | the collector writes the same frames, keeps the same residue and counts frames and bytes; its skip branch is dead |
| Framing.IterFrames | deploy/scripts/replay_fixture_from_bin.py:69-77 | the walk over a capture yields the splitter's frames with their offsets |
| Framing.LocatedAt | deploy/scripts/replay_fixture_from_bin.py:69-77 | each offset is the total length of the frames before it |
| Framing.CaptureKeepsFrames | deploy/scripts/capture_replay_frames.py:43-60 | splitting a collected file gives back the frames of the captured stream, with no residue |
| Commands.RunSnoc | apps/gateway/src/main.rs:1064-1077 | one more command is accepted exactly by the phase reached so far |
| Commands.WhyRejected | crates/application/src/lib.rs:146-219 | a command is turned away for its kind in the present state, else for a blank user name or chat or an empty password, and else accepted |
| Commands.OfferIsAccepted | apps/gateway/src/main.rs:1064-1082 | what gets enqueued is itself accepted in full, and equals what was offered exactly when all of it is accepted |
| Commands.AcceptedHasScript | crates/application/src/lib.rs:146-219 | every accepted sequence is a prefix of a session's life, and the phase is the one the prefix ends in |
| Commands.ScriptIsAccepted | crates/application/src/lib.rs:146-219 | every well-formed prefix of a session's life is accepted |
| Commands.EnqueuedInFull | crates/application/src/lib.rs:146-219 | commands are enqueued in full if and only if every login has a user name with a character that is not white space and a password, every chat and guild chat has such a character, and together they spell a prefix of Heartbeat* Login Heartbeat* C(C/Heartbeat)* EnterWorld (gameplay/EnterWorld/Heartbeat)*, C a character command, optionally cut after Login by one final Logout |
| Commands.EnqueuedIsInLanguage | apps/gateway/src/main.rs:1064-1132 | whatever is offered, what is enqueued is in that language |
| Commands.OneLoginAndLogoutIsLast | apps/gateway/src/main.rs:1119-1132 | hence at most one Login and nothing after Logout |
| SessionLoop.HandleFramesAppend | apps/gateway/src/main.rs:1029-1083 | handling frames read by read is handling them all |
| SessionLoop.Session.OnRead | apps/gateway/src/main.rs:1029-1083 | after any reads the buffer is the residue of all the bytes read, and what was enqueued, the phase and the protocol version are told from all the frames in them |
| SessionLoop.Session.TakeFrame | apps/gateway/src/main.rs:1030-1082 | a frame's command is enqueued if and only if the limiter grants the frame, it decodes within the limit, the parser of the present version makes a command of it and the present phase accepts that; otherwise it changes nothing |
| SessionLoop.FrameIsEnqueuedIff | apps/gateway/src/main.rs:1030-1082 | the same of the frame loop's body as a function, with the phase and version it leads to |
| SessionLoop.EnqueuedAreTold | apps/gateway/src/main.rs:1029-1083 | what a connection enqueues of its frames, told without its state: each granted frame's command joins those before it if the frame carries one under the version those before lead to and the whole is still accepted |
| SessionLoop.VersionOfLogin | apps/gateway/src/main.rs:1066-1068 | the protocol version is the one the enqueued Login announces, and the legacy one without a Login |
| SessionLoop.ToldIsOffer | apps/gateway/src/main.rs:1064-1077 | with a parser that ignores the version, that is what the command rules make of the commands of the granted frames |
| SessionLoop.ModernIffAnnounced | apps/gateway/src/main.rs:1134-1141 | the modern protocol is announced if and only if one of the two tokens stands somewhere in the version text, in any letter case |
| SessionLoop.ReadAllIsFeedAll | apps/gateway/src/main.rs:1006-1084 | a series of reads is one stream |
| SessionLoop.SessionIgnoresChunking | apps/gateway/src/main.rs:1006-1084 | enqueued commands, phase, protocol version and residue depend on the bytes and the limiter's answers, never on the reads |
| SessionLoop.EnqueuedFromBytes | apps/gateway/src/main.rs:1006-1084 | whatever reads the bytes come in, commands, phase and version are told from the frames of the whole stream in that way |
| SessionLoop.SentLeadsToPhase | apps/gateway/src/main.rs:1064-1077 | a connection's phase is always the one its enqueued commands lead to |
| SessionLoop.AnyStreamYieldsAScript | apps/gateway/src/main.rs:1006-1084 | whatever bytes arrive, the enqueued commands are in the accepted language |
| Gateway.ConnectKeepsInv | apps/gateway/src/main.rs:917-927 | accepting a connection keeps the invariant across connections, queue and router |
| Gateway.EnqueueKeepsInv | apps/gateway/src/main.rs:1064-1077 | so does enqueuing an accepted command |
| Gateway.HangupKeepsInv | apps/gateway/src/main.rs:1086-1092 | so does enqueuing the disconnect |
| Gateway.DequeueKeepsQueue | apps/gateway/src/main.rs:312-320 | the command at the head of the queue is one the session's routed phase accepts, and taking it off keeps queue and phases in step |
| Gateway.DequeueKeepsFrozen | apps/gateway/src/main.rs:312-320 | taking the first EnterWorld off freezes the record as it then is |
| Gateway.GuardKeepsRouter | apps/gateway/src/main.rs:352-411 | asking the guard keeps frozen choices, and a gameplay or EnterWorld command that passes is for a session already frozen, on its frozen map; an EnterWorld's session has account and character |
| Gateway.ForwardKeepsInv | apps/gateway/src/main.rs:823-839 | sending a request keeps the invariant, so an EnterWorld or gameplay request names the frozen map and carries the frozen character, or none without a record |
| Gateway.WorldReplyKeepsFrozen | apps/gateway/src/main.rs:385-398 | what the router does with the world's answer leaves the frozen choice alone |
| Gateway.AuthReplyKeepsInv | apps/gateway/src/main.rs:575-605 | no answer of the auth service touches a frozen record |
| Gateway.StepKeepsInv | apps/gateway/src/main.rs:308-339 | every step of every loop keeps the invariant |
| Gateway.StepKeepsFrozen | apps/gateway/src/main.rs:308-320 | a session is frozen by the dequeuing of its EnterWorld and by nothing else |
| Gateway.RecordsNeverReturn | apps/gateway/src/main.rs:1092 | a removed record never comes back |
| Gateway.CharacterAndMapFreeze | apps/gateway/src/main.rs:308-550 | in every interleaving, from the moment the router takes a session's EnterWorld off the queue its character and map stay the same while the record exists |
| Gateway.RequestsNameFrozenMap | apps/gateway/src/main.rs:823-852 | every gameplay or EnterWorld request ever sent names that map and carries that character, or none if the record was removed meanwhile |
| Gateway.InWorldMeansEntered | apps/gateway/src/main.rs:863-879 | a session in the world has account and character, and its connection's phase is InWorld or Closed |
| Gateway.UnguardedTarget | apps/gateway/src/main.rs:541-548 | what Heartbeat and Logout name: the record's map and character, or map 1 and none |
| Gateway.ResolvedMapIsKept | apps/gateway/src/main.rs:807-821 | for a session that has entered, a routed command names the session's map if and only if the record is still there when the map is looked up, or that map is 1 |
| Gateway.HangupOvertakesLogout | apps/gateway/src/main.rs:1086-1092 | a connection that hangs up before its Logout is routed removes its record first, and the Logout then names map 1 and no character |
| Gateway.LogoutCanMissItsMap | apps/gateway/src/main.rs:308-550 | a complete run in which a session enters map 7 and its Logout is sent to map 1 |
| GatewayRecords.AuthAnswerDoes | apps/gateway/src/main.rs:575-795 | what each answer of the auth service changes in the session's record, and that it changes nothing else |
| GatewayRecords.WorldAnswerDoes | apps/gateway/src/main.rs:377-398 | an accepted EnterWorld puts its session in the world; a refusal, and any answer to another command, changes no record |
| GatewayRecords.GuardAsks | apps/gateway/src/main.rs:341-550 | which fields of the record each command's guard asks for, command by command |
| GatewayRecords.RouterFinishes | apps/gateway/src/main.rs:308-550 | the router takes one message at a time and is done with it after at most five more steps of its own, which no connection disturbs |
| GatewayRecords.RouterGoesOn | apps/gateway/src/main.rs:308-339 | with a message in hand or queued the router always has a step to take |
| GatewayRecords.DropsAfterLogoutOrDisconnect | apps/gateway/src/main.rs:312-548 | the router goes to remove a record after the answer to a Logout, whatever it is, and after dequeuing a disconnect, and never else |
| GatewayRecords.ConnectionLife | apps/gateway/src/main.rs:1006-1095 | a connection's loop ends by a read error, or by enqueuing its disconnect and then removing its own record, and never runs again |
| GatewayRecords.RecordExistsIff | apps/gateway/src/main.rs:917-1092 | in every run a session has a record if and only if it has connected and neither its own loop nor the router has removed the record since |
| GatewayRecords.AccountIsLastLogins | apps/gateway/src/main.rs:570-600 | in every run a record's account is the one its session's last accepted login gave, or none |
| GatewayRecords.InWorldIffAccepted | apps/gateway/src/main.rs:377-398 | in every run a session with a record is in the world if and only if the world service has accepted an EnterWorld of it |
| GatewayLog.EveryRunHasATrace | apps/gateway/src/main.rs:308-339 | every run of the gateway extends to one with the history of its commands |
| GatewayLog.StepKeepsTrace | apps/gateway/src/main.rs:308-550 | every step keeps the history: what was enqueued is what was dequeued and what is queued, and each dequeued command has got as far as the router's hands say |
| GatewayLog.RequestsFollowCommands | apps/gateway/src/main.rs:312-320 | in every run messages leave the queue in the order they were enqueued and the requests sent are those of the dequeued commands, in order, at most one for each |
| GatewayLog.SentIffGuardHolds | apps/gateway/src/main.rs:341-550 | every command the router is done with was sent to the world service, for its session and as it is, if and only if its guard held when it was asked and it is not for the auth service |
| GatewayLog.GameplaySentIffInWorld | apps/gateway/src/main.rs:399-540 | a gameplay command was sent if and only if, when its guard was asked, the world service had accepted an EnterWorld of its session and the session's record was still there |
| GatewayLog.OthersSentIff | apps/gateway/src/main.rs:341-550 | an EnterWorld was sent if and only if its session then had account and character, a Heartbeat or Logout always, a login or character command never |
| GatewayLog.EachConnectionSpellsAScript | apps/gateway/src/main.rs:1064-1092 | in every run each connection's enqueued commands are in the accepted language and lead to its phase, and nothing of it follows its disconnect |
| Admission.ConnectionCounts.Accept | apps/gateway/src/main.rs:896-914 | a connection is admitted exactly when fewer than the limit are open from its address; the stored count is the number open and present exactly when positive |
| Admission.ConnectionCounts.Release | apps/gateway/src/main.rs:951-964 | the end of a connection lowers its address's count by one and removes it at zero |
| World.StepKeepsGap | crates/world/src/lib.rs:105-172 | one message widens the gap between a map's sessions and its counter only if it is a stray logout naming the map, and by one |
| World.CountersNeverExceed | crates/world/src/lib.rs:105-172 | no counter ever exceeds the sessions on its map, over every message sequence |
| World.CounterAccuracy | crates/world/src/lib.rs:105-172 | a counter falls short of its map's sessions by at most the stray logouts that named the map |
| World.ExactUnlessStray | crates/world/src/lib.rs:138-142 | exact counters stay exact if and only if the message is not a stray logout naming a map with sessions |
| World.StrayLogoutMiscounts | crates/world/src/lib.rs:138-142 | a run of three messages after which one session is on map 1 and its counter reads 0 |
| World.WhereSessionsAre | crates/world/src/lib.rs:113-144 | a session is on a map if and only if an EnterWorld of it named the map and since then it neither entered again nor logged out nor was the map unregistered |
| World.WhereMapsAre | crates/world/src/lib.rs:108-118 | a map's commands go to the channel of its last registration, if it was not unregistered since |
| World.RegisteredMapsAreCounted | crates/world/src/lib.rs:108-118 | every registered map has a counter; a new one starts at 0 and unregistering takes it away |
| World.TotalWithout | crates/world/src/lib.rs:159 | the sum of the counters does not depend on the order of summation |
| World.TotalNeverExceeds | crates/world/src/lib.rs:158-159 | the online total is at most the number of tracked sessions |
| World.OnlineTotal | crates/world/src/lib.rs:105-172 | it falls short of that number by at most the stray logouts so far, so with none it is that number |
| World.WorldCoordinator.RegisterMap | crates/world/src/lib.rs:108-112 | registration replaces the sender and keeps a counter already there |
| World.WorldCoordinator.UnregisterMap | crates/world/src/lib.rs:113-118 | unregistration drops sender, counter and every session on the map |
| World.WorldCoordinator.RouteToMap | crates/world/src/lib.rs:119-154 | the books move as the message says and the command goes to the named map's sender if it has one |
| World.WorldCoordinator.SaturatingAdd | crates/world/src/lib.rs:134-135 | the map's counter rises by one below 2^64 - 1 and stays there at that; no other changes |
| World.WorldCoordinator.SaturatingSub | crates/world/src/lib.rs:129-132 | the map's counter falls by one above zero and stays there at that; no other changes |
| World.WorldCoordinator.ReadStats | crates/world/src/lib.rs:158-169 | the reported total is the sum of the reported counters |
| World.WorldCoordinator.Run | crates/world/src/lib.rs:105-172 | the message loop, over any sequence, leaves the books and sends what the sequence says |
| MapLaws.AttacksHurt | crates/map_server/src/lib.rs:349-371 | an attack round takes from each session exactly the damage of the hits that name it, floored at 0 |
| MapLaws.CastsCharge | crates/map_server/src/lib.rs:405-424 | a round resolves each of a session's casts once, charges 10 for each of the first ten of its stay and answers every other "not enough mana" |
| MapLaws.SpellsHurt | crates/map_server/src/lib.rs:426-459 | spells take from each session exactly the damage of the events that name it |
| MapLaws.InputKeepsStays | crates/map_server/src/lib.rs:196-331 | the input phase keeps hp, mp and history of whoever stays and starts whoever comes in at 100 |
| MapLaws.TickKeepsStays | crates/map_server/src/lib.rs:158-180 | a whole tick keeps the account of every stay |
| MapServer.SkillDamage | crates/map_server/src/lib.rs:430 | a spell's damage is between 10 and 16, but 8 for the least 32-bit skill id |
| MapServer.SkillDamageIs | crates/map_server/src/lib.rs:430 | for every other 32-bit id it is 10 and what the id, without its sign, exceeds a multiple of seven by |
| MapServer.SkillDamageRepeats | crates/map_server/src/lib.rs:430 | it starts at 10, repeats every seven ids and ignores the sign |
| MapServer.AttackDamageIs | crates/map_server/src/lib.rs:359-361 | an attack's damage goes round 5, 6, 7, 8 as ticks pass |
| MapServer.NextTickIs | crates/map_server/src/lib.rs:120 | the tick index rises by one and goes from 2^64 - 1 to 0 |
| MapRuns.DrainConserves | crates/map_server/src/lib.rs:145-156 | one intake takes a prefix of the channel, as much as the budget allows, whatever arrives meanwhile |
| MapRuns.ServeConserves | crates/map_server/src/lib.rs:145-164 | between channel and ticks nothing is lost, duplicated or reordered |
| MapRuns.ServiceBound | crates/map_server/src/lib.rs:145-164 | with budget b a command with k ahead of it is processed in tick k/b from now, at place k mod b, whatever arrives later |
| MapRuns.TickKeys | crates/map_server/src/lib.rs:196-331 | a tick changes the roster exactly as its batch's EnterWorlds and Logouts say |
| MapRuns.HealthAndManaFromEvents | crates/map_server/src/lib.rs:196-460 | in every run, hp is 100 less the reported damage since entry floored at 0; mp and refusals follow from the tally of the stay's casts, which CombatLaws.CastsAreCounted counts in commands |
| MapRuns.CombatIsLogged | crates/map_server/src/lib.rs:373-459 | each CombatResult has one SaveCombatLog, in order, under the two sessions' characters |
| MapRuns.HitsAreLanded | crates/map_server/src/lib.rs:349-357 | the attacks that land are exactly those whose two sides are present |
| MapRuns.TickCombat | crates/map_server/src/lib.rs:346-460 | in a tick each blow is logged once, and the blows begin with the attacks whose two sides are online after the whole batch, wherever in it they stood; CombatLaws.TickBlows says what all of them are |
| MapRuns.CombatLogReplays | crates/map_server/src/lib.rs:373-459 | over a whole run the combat log repeats the damage of the CombatResult events in order |
| MapRuns.TickSchedules | crates/map_server/src/lib.rs:182-312 | a tick emits the texts due and no others, and its own requests become due next, unless the tick index is at its end |
| MapRuns.EachTextFiresOnce | crates/map_server/src/lib.rs:182-312 | over a run each NpcInteraction's text is emitted once, one tick later, in arrival order, and nothing else is ever scheduled |
| TickOrder.InputReplies | crates/map_server/src/lib.rs:231-321 | the input phase answers or relays exactly the batch's chats, whispers, guild chats and heartbeats, in order |
| TickOrder.InputSaves | crates/map_server/src/lib.rs:215-230 | it asks to persist exactly the moves of sessions online at that point, in order, under their characters |
| TickOrder.InputChanges | crates/map_server/src/lib.rs:271-299 | it notes exactly the batch's inventory commands, in order, under the character then played or the session itself |
| TickOrder.InputPlaces | crates/map_server/src/lib.rs:196-331 | a session's position after the input depends on its own commands alone |
| TickOrder.TickPlaces | crates/map_server/src/lib.rs:158-180 | and nothing later in a tick moves anyone |
| TickOrder.TickEventsInOrder | crates/map_server/src/lib.rs:158-180 | a tick's event stream, whole: texts due, replies, every position once, what the combat phases emit on the state after the input, non-player text, populations |
| TickOrder.TickPersistsInOrder | crates/map_server/src/lib.rs:158-180 | what a tick asks to persist, whole: moves, what the combat phases log on the state after the input, inventory changes |
| TickOrder.EveryTickInOrder | crates/map_server/src/lib.rs:113-180 | the same of every tick of every run |
| CombatLaws.InputCollectsCasts | crates/map_server/src/lib.rs:264-270 | the input phase collects exactly the batch's CastSkill commands, in order |
| CombatLaws.FirstTenArePaid | crates/map_server/src/lib.rs:405-424 | of an online session's casts those up to the tenth of its stay are paid for, in order, and all the others refused, in order |
| CombatLaws.ChargePaysFirstTen | crates/map_server/src/lib.rs:405-424 | the charging round pays for and refuses exactly those |
| CombatLaws.AttacksTold | crates/map_server/src/lib.rs:347-403 | an attack round puts out one blow and one log for each attack between online sessions, and a defeat text whenever the defender's damage in its stay comes to a hundred or more |
| CombatLaws.SpellsTold | crates/map_server/src/lib.rs:426-459 | a paid cast puts out one announcement without a target, one blow and one log of the skill's damage on an online target, and nothing on an absent one |
| CombatLaws.CombatTold | crates/map_server/src/lib.rs:346-460 | what the combat phases emit and log is told from attacks, casts, who is online as which character, and for each session the damage taken and casts made in its stay |
| CombatLaws.AccountAfterInput | crates/map_server/src/lib.rs:196-331 | whoever stays on brings its damage and casts into the combat, re-sent EnterWorlds included; whoever comes in, or leaves and comes back, brings none |
| CombatLaws.TickResolves | crates/map_server/src/lib.rs:405-424 | a tick resolves every CastSkill of its batch whose session is online after it, once |
| CombatLaws.TickBlows | crates/map_server/src/lib.rs:346-460 | a tick's blows are exactly the attacks whose two sides are online after the whole batch, followed by the paid casts whose target is |
| CombatLaws.CastsAreCounted | crates/map_server/src/lib.rs:196-424 | in every run the tally of a stay is the number of CastSkill commands its session has sent in the ticks of that stay |
| CombatLaws.SkillBudget | crates/map_server/src/lib.rs:196-424 | in every run a session's mp is 100 less 10 for each of the first ten CastSkill commands of its stay, and each later one was refused exactly once |
| CombatLaws.EveryBlowFromCommands | crates/map_server/src/lib.rs:346-460 | in every run every tick's blows are told from the batches alone, the attack damage from the tick index |
| CombatLaws.EveryTickFromCommands | crates/map_server/src/lib.rs:113-180 | every tick's event stream, whole and in order, told from the batches, the texts due, where each session stood and the damage reported against it |
| CombatLaws.EveryLogFromCommands | crates/map_server/src/lib.rs:113-180 | what every tick asks to persist, told from the batches and who plays which character |
| MapInstances.MapInstance.constructor | crates/map_server/src/lib.rs:93-111 | a new instance is empty, at tick 0 |
| MapInstances.MapInstance.DrainIncomingQueue | crates/map_server/src/lib.rs:145-156 | the receive loop moves that prefix from channel to pending commands |
| MapInstances.MapInstance.ProcessScheduledEvents | crates/map_server/src/lib.rs:182-194 | emits and removes what is due at the tick index |
| MapInstances.MapInstance.SystemInput | crates/map_server/src/lib.rs:196-331 | the input loop does to the state what the input phase says, for every command |
| MapInstances.MapInstance.TakeIn | crates/map_server/src/lib.rs:197-330 | the same for one command |
| MapInstances.MapInstance.Answer | crates/map_server/src/lib.rs:231-321 | chats, whispers, guild chats and heartbeats are answered or relayed at once |
| MapInstances.MapInstance.Track | crates/map_server/src/lib.rs:199-325 | EnterWorld, Logout and Move change the player table and persist positions |
| MapInstances.MapInstance.SetAside | crates/map_server/src/lib.rs:261-312 | attacks, casts, inventory commands and requests to non-player characters are kept for a later phase or tick |
| MapInstances.MapInstance.SystemMovement | crates/map_server/src/lib.rs:333-344 | reports every player's position once, in some order |
| MapInstances.MapInstance.SystemCombat | crates/map_server/src/lib.rs:346-460 | the four loops do what attack and cast phases say |
| MapInstances.MapInstance.LandAttacks | crates/map_server/src/lib.rs:347-371 | resolves every pending attack in order and leaves none |
| MapInstances.MapInstance.ReportHits | crates/map_server/src/lib.rs:373-403 | one CombatResult, one log and perhaps one defeat text per hit |
| MapInstances.MapInstance.ChargeCasters | crates/map_server/src/lib.rs:405-424 | takes the cost of every cast that can be paid and refuses the others |
| MapInstances.MapInstance.CastSpells | crates/map_server/src/lib.rs:426-459 | applies every paid spell to its target, or announces it |
| MapInstances.MapInstance.SystemAi | crates/map_server/src/lib.rs:462-475 | every hundredth tick one text, to some player, if there is one |
| MapInstances.MapInstance.SystemAoi | crates/map_server/src/lib.rs:477-491 | every fortieth tick the population to every player once |
| MapInstances.MapInstance.SystemInventory | crates/map_server/src/lib.rs:493-504 | persists every pending change in order and leaves none |
| MapInstances.MapInstance.ProcessTick | crates/map_server/src/lib.rs:158-180 | the systems run once each in their fixed order over all that is pending |
| MapInstances.MapInstance.RunTick | crates/map_server/src/lib.rs:113-143 | one turn of the loop is one tick over the intake of its budget |
| MapInstances.MapInstance.Run | crates/map_server/src/lib.rs:113-143 | the loop's states are a history of the batches the channel serves, so every law about histories is about the object |
| WorldService.UnregisterSendAgrees | apps/world-service/src/main.rs:185-198 | sending an UnregisterMap keeps manager and coordinator in agreement if and only if its map is not back in the table, or another call on it is under way |
| WorldService.ReactivationInTheGap | apps/world-service/src/main.rs:133-204 | a run in which an activation falls into the gap and the agreement is lost |
| WorldService.ControlStepKeepsPlan | apps/world-service/src/main.rs:133-224 | every step of activate, deactivate and shutdown keeps table, calls in progress and inbox in step |
| WorldService.ManagerAlwaysAgrees | apps/world-service/src/main.rs:133-224 | in every interleaving with no activation in a gap, replaying the inbox onto the registered maps gives the manager's table, apart from maps with a call in mid-step |
| WorldService.RouteAgrees | crates/world/src/lib.rs:119-154 | handling a routed message keeps books and instances in agreement if and only if an EnterWorld names a registered map, and neither it nor a Logout leaves behind a live instance of another map the session is on |
| WorldService.MisroutedLogoutLeavesPlayer | crates/world/src/lib.rs:138-153 | a complete run in which a session is taken in by map 7's instance, its Logout is routed to map 1, and the live instance keeps a player the books no longer track |
| WorldService.HandleRegisterKeeps | crates/world/src/lib.rs:108-112 | a registration brings an unused channel to an unregistered map, so it keeps the agreement |
| WorldService.HandleUnregisterKeeps | crates/world/src/lib.rs:113-118 | an unregistration keeps it for every other map |
| WorldService.RouterKeeps | apps/world-service/src/main.rs:162-172 | the router task moves commands along without changing what is in flight |
| WorldService.MapTickKeeps | crates/map_server/src/lib.rs:158-180 | a tick moves commands from in flight to the roster without changing who will be online |
| WorldService.CommandsArriveInOrder | crates/world/src/lib.rs:145-153 | in every run an instance processes exactly the commands of the handled messages that named its map while its channel was registered, in that order, with nothing lost, duplicated or overtaken on the way; and the books are those of the messages handled |
| WorldService.HandledInOrder | crates/world/src/lib.rs:105-107 | in every run the coordinator handles the messages sent to it in the order they were sent, each once |
| WorldService.PipeProgress | apps/world-service/src/main.rs:162-172 | each step of a router task brings one command one step nearer to its instance, and each tick takes its intake off the channel |
| WorldService.LiveHasHistory | crates/map_server/src/lib.rs:113-180 | in every run a live instance is what the ticks over exactly the commands its channel has delivered, in order, make of a new instance of its map, so every law of such histories holds of it |
| WorldService.LiveIffHeld | apps/world-service/src/main.rs:133-224 | in every run, gaps or not, an instance is live if and only if its handle is in the table or in the hands of a call, and it is in one place only |
| WorldService.StepKeeps | apps/world-service/src/main.rs:133-224 | every well-behaved step keeps the whole invariant |
| WorldService.SessionsAlwaysAgree | crates/world/src/lib.rs:105-154 | in every well-behaved run, applying what is in flight to a registered map's live instance makes its players exactly the sessions the coordinator tracks there, across any unregistering and registering again |
| MapManager.MapRuntimeManager.Activate | apps/world-service/src/main.rs:133-183 | registers and records a map that is not running, otherwise changes nothing; uninterrupted calls keep table and messages in agreement |
| MapManager.MapRuntimeManager.Deactivate | apps/world-service/src/main.rs:185-204 | removes, unregisters and aborts a running map, otherwise changes nothing |
| MapManager.MapRuntimeManager.Shutdown | apps/world-service/src/main.rs:211-224 | unregisters and aborts every running map exactly once, in some order |
| TokenBucket.PerSecondIsSteady | crates/net/src/lib.rs:748-753 | a constant rate earns additively over time |
| TokenBucket.LevelWithinWindows | crates/net/src/lib.rs:737-753 | the bucket's level is within what every window allows |
| TokenBucket.WindowsWithinLevel | crates/net/src/lib.rs:737-753 | and whatever every window allows is within the level |
| TokenBucket.GrantsIffEveryWindowFits | crates/net/src/lib.rs:737-753 | a cost is within what the limiter holds if and only if it is at most burst and, for every call and for the creation, the cost granted since plus this one is at most burst + (now - then) * ratePerSec |
| TokenBucket.WindowBound | crates/net/src/lib.rs:737-753 | so no stretch of calls is granted more than burst plus what its length earns |
| TokenBucket.WindowBoundInNumbers | crates/net/src/lib.rs:737-753 | from any call to the last the limiter grants at most burst + elapsed * ratePerSec |
| TokenBucket.TokenBucketRateLimiter.constructor | crates/net/src/lib.rs:727-735 | a new bucket is full |
| TokenBucket.TokenBucketRateLimiter.TryAcquire | crates/net/src/lib.rs:737-746 | the object grants exactly by that rule over its own history; at an instant that is not later than the last it grants exactly what is left |
| TokenBucket.TokenBucketRateLimiter.Refill | crates/net/src/lib.rs:748-753 | refilling adds the time since the last refill times ratePerSec, up to burst |
| LoginLimiter.WindowOfOpener | apps/auth-service/src/main.rs:395-405 | a window starts at the call that opened it and counts the calls since |
| LoginLimiter.AdmittedByPosition | apps/auth-service/src/main.rs:400-406 | a call is not limited exactly when it is among the first thirty of its window |
| LoginLimiter.WindowsFarApart | apps/auth-service/src/main.rs:400-403 | a call opens a new window if and only if it is over a minute after the opener of the window before; otherwise it falls in that window |
| LoginLimiter.OpenerLeftOut | apps/auth-service/src/main.rs:400-403 | a minute that reaches into a later window leaves out the call that opened the window before |
| LoginLimiter.AtMost59PerMinute | apps/auth-service/src/main.rs:389-407 | any closed minute holds at most 59 calls of a key that are not limited |
| LoginLimiter.BoundIsReached | apps/auth-service/src/main.rs:389-407 | and some minute holds 59 |
| LoginLimiter.RateLimiter.IsRateLimited | apps/auth-service/src/main.rs:389-407 | the answer to a call depends on its own key's calls alone, other keys interleaved at will |
| ReplayMerge.Merge | deploy/scripts/replay_merge_cases.py:102-112 | by frame, every case of either side has a merged case with its protocol, phase and frame, no two merged cases agree in all three, and each is the last case processed with its three; by name the same of the name; the preferred side wins; a case without a name stops it |
| ReplayMerge.LastSideWins | deploy/scripts/replay_merge_cases.py:102-112 | the side processed last wins every key it has a case for |
| ReplayMerge.MergedByFrame | deploy/scripts/replay_merge_cases.py:41-44 | which cases a merge by frame keeps, in the fields of the cases |
| ReplayMerge.MergedByName | deploy/scripts/replay_merge_cases.py:41-44 | which cases a merge by name keeps |
| ReplayMerge.OneValueEach | deploy/scripts/replay_merge_cases.py:102-112 | as many cases are kept as there are keys |
| ReplayMerge.DecimalReads | deploy/scripts/replay_merge_cases.py:68 | a numeral is written in decimal digits with no zero in front and reads as its number |
| ReplayMerge.PaddedReads | deploy/scripts/replay_merge_cases.py:60 | a padded one has eight digits at least and reads as its number |
| ReplayMerge.RenamedTo | deploy/scripts/replay_merge_cases.py:60-71 | what the pass makes of each name: the stripped name, or "replay_case_" and the index if blank; if taken, with protocol and origin after it; if that is taken, with the first free number from 2 |
| ReplayMerge.ChangedCounts | deploy/scripts/replay_merge_cases.py:57-73 | the number returned is the number of cases whose name is neither their own nor the one made of their index |
| ReplayMerge.CandidatesDiffer | deploy/scripts/replay_merge_cases.py:60-69 | the names tried for a case are all different |
| ReplayMerge.CandidatesRunOut | deploy/scripts/replay_merge_cases.py:67-69 | as many of them as are used names can be taken, so the suffix loop ends |
| ReplayMerge.FreeName | deploy/scripts/replay_merge_cases.py:60-72 | the loop ends with the first name tried that is free |
| ReplayMerge.EnsureUniqueNames | deploy/scripts/replay_merge_cases.py:56-73 | all names end up different, each the first free one, order and other fields as they were, and the number returned is the number of cases renamed |
| ReplayMerge.RenamingIsUnique | deploy/scripts/replay_merge_cases.py:56-73 | first-free names are pairwise different |
| ReplayMerge.DistinctNamesStay | deploy/scripts/replay_merge_cases.py:56-73 | cases with different names keep them |
| Markdown.Renderer.Feed | deploy/scripts/generate_docs_html.py:144-220 | one line moves the machine and puts out what its kind says, and at most one of code, paragraph, list and table is open before and after |
| Markdown.Renderer.FlushParagraph | deploy/scripts/generate_docs_html.py:99-104 | closes an open paragraph |
| Markdown.Renderer.FlushList | deploy/scripts/generate_docs_html.py:106-110 | closes an open list |
| Markdown.Renderer.FlushTable | deploy/scripts/generate_docs_html.py:112-142 | puts out an open table with the separator row left out |
| Markdown.Fit | deploy/scripts/generate_docs_html.py:134 | a row is cut or padded to the header's width, cell by cell |
| Markdown.SpacesLeftOut | deploy/scripts/generate_docs_html.py:85 | spaces in a separator's cell make no difference and all else stays |
| Markdown.RuleIff | deploy/scripts/generate_docs_html.py:82-85 | a separator's cell is three dashes or more with or without a colon before and after |
| Markdown.TableTold | deploy/scripts/generate_docs_html.py:112-142 | a table token by token: first row header, every other row but a separator in second place a body row, in order, cut or padded to the header's width; no body without rows |
| Markdown.StepKeepsRest | deploy/scripts/generate_docs_html.py:144-220 | each line moves output from what is to come to what is out and changes nothing else |
| Markdown.Renderer.MarkdownToHtml | deploy/scripts/generate_docs_html.py:88-226 | the one pass puts out exactly the document's groups: each maximal run of prose, rows or items of a kind is one block, each fence opens code up to the next one, unclosed code is lost |
| Markdown.OutputIsNested | deploy/scripts/generate_docs_html.py:88-226 | items stand only inside a list of their kind, every list and table is closed once, every body row is as wide as its header |

## Left out

- Payload field parsers and server packet decoders: fixed offsets; parsing is a function parameter of a session.
- The HTTP handlers, axum routes, admin pages and systemctl calls: plumbing with no state of its own.
- SQL, migrations and the jobs runner: their behaviour is the database's.
- Argon2, Redis, tracing, metrics and configuration: foreign calls. The Redis limiter enters as a possible source of a session's limiter answers.
- Requests to other services that fail: at the gateway an accepted or refused answer; for the auth service a failed request is the answer that changes nothing.
- Back-pressure and closed channels: sends are appended to unbounded queues and never fail.
- The disconnect handler's auth logout request and the world messages Broadcast and MoveCharacter: they change no modelled state.
- The "no players" check before a deactivation: it is made before the call and binds nothing.
- Rounding in the token bucket: TokenBucket works with exact reals where the source has 64-bit floats.
- TokenBucket.TokenBucketRateLimiter.TryAcquire: the window rule is stated for instants that never decrease, which the platform's monotonic clock gives; for an instant before the last one the contract says only that what is left is what counts.
- The abort of a map's two tasks: one step; what the router task does between the two aborts reaches no live instance.
- Normalizing and sorting replay cases: string formatting and a library sort. Stripping and lowering are function parameters, and the merged dictionary's insertion order, which the sort discards, is not kept.
- Sorting a Markdown line into its kind, inline rendering, escaping and joining the lines: regular expressions and string replacement; a line comes with its kind, and output is a sequence of tokens.
- RBAC tables, class and code enums, chat relay, ring buffers and report scripts: finite or easy.
