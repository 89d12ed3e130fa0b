# ReFramed server, modelled in Dafny

ReFramed is a plugin that runs inside the game. It watches matches and
training sessions and streams what happens to connected TCP clients:

- match and training start, resume and end events;
- one 30-byte fighter-state frame per fighter per frame while a session runs;
- on request, a "mapping info" dump of the game's name tables, with a
  CRC-32 checksum so a client can tell whether its cached tables are current.

The repository also holds an older crate, `uhrecorder`, with its own server
and constants dump. This project models the following parts of both crates.

- **Session records** (`training_info.dfy`, `game_info.dfy`). `TrainingInfo`
  and `GameInfo` are classes whose methods update their fields as the Rust
  setters do. Each has a value snapshot that the hooks reason about.
- **Hooks** (`hooks.dfy`). `handle_fighter_global_reset` and
  `once_per_frame_per_fighter` are given twice:
  - as step functions on the snapshots (`ResetStep`, `FrameStep`, and
    `Frames` for a run of frames);
  - as methods of `Plugin`, which change the two records in place and are
    proved to agree with the step functions.

  The lemmas state the session lifecycle:
  - an invariant both hooks keep;
  - exactly when start and end events go out;
  - no double start;
  - fighter frames only while a session runs.
- **Wire format** (`protocol.dfy`, `bytes.dfy`, `entries.dfy`, `wire.dfy`).
  Every server-to-client message is encoded byte for byte: tags, big-endian
  fields, truncating and saturating casts, and length-prefixed names. A
  client-side reader is the encoders' partner: each message reads back as its
  fields, and the encoding of the name-table rows is inverted exactly.
- **Mapping dump** (`mapping.dfy`). The checksum digest and the sequence of
  writes of `send_mapping_info`, including which writes happen when a write
  fails.
- **Sockets** (`io.dfy`). Writes are modelled by a `Stream` whose outcome
  oracle decides which calls fail. `SendAll` specifies "send these buffers
  in order and return the first error".
- **Servers**:
  - `server.dfy` models the client registry of `src/server.rs`: accepting
    clients, broadcasting over channels, one pass of a client thread's loop,
    and the accept loop.
  - `uh_server.dfy` and `uh_protocol.dfy` model the `uhrecorder` server:
    polling, broadcasting, the accept loop with its constants dump, and how
    I/O errors are mapped.

Two messages, `send_mapping_info` and the checksum message, leave the
checksum function abstract: it is a parameter `crc: seq<byte> -> u32`
applied to the exact byte stream the digest is fed.

Places where the code does something a reader might not expect, and the
model does the same:

- The scaled damage, hitstun and shield values are truncated toward zero
  and then saturated by `as u16`; they are not rounded.
- The dump is sent in the order fighters, fighter statuses, stages, hit
  statuses.
- The dump's first write carries the `MappingInfoRequest` tag, not
  `MappingInfoChecksum`.
- The checksum digests the tables in a different order: fighters, stages,
  statuses, hit statuses.

## Model

| member | source | states |
|---|---|---|
| Training.TrainingInfo.constructor | src/training_info.rs:10-18 | neither pending nor running, player/CPU kinds and stage unknown, so there is not enough information to start |
| Training.TrainingInfo.Stop | src/training_info.rs:20-25 | the session is no longer running and its kinds and stage are forgotten; the pending flag is untouched |
| Training.TrainingInfo.SetStartPending | src/training_info.rs:27-29 | raises the pending flag and changes nothing else |
| Training.TrainingInfo.Start | src/training_info.rs:35-38 | running and no longer pending, the recorded facts kept |
| Training.TrainingInfo.SetPlayerInfo | src/training_info.rs:44-46 | records the player's fighter kind only |
| Training.TrainingInfo.SetCpuInfo | src/training_info.rs:48-50 | records the CPU's fighter kind only |
| Training.TrainingInfo.SetStage | src/training_info.rs:52-54 | records the stage only |
| Game.GameInfo.constructor | src/game_info.rs:16-27 | no match running, both slots and the stage unknown, not enough information to start |
| Game.GameInfo.SetMatchEnd | src/game_info.rs:29-33 | no match running and both entry ids forgotten, so a new match needs both slots again |
| Game.GameInfo.SetMatchStart | src/game_info.rs:35-37 | the match is running, slots and stage kept |
| Game.GameInfo.SetPlayerInfo | src/game_info.rs:47-57 | fills slot 1 while its entry id is unknown, otherwise overwrites slot 2; the other slot, the stage and the running flag are kept |
| Game.GameInfo.SetStage | src/game_info.rs:59-61 | records the stage only |
| Game.FirstSlotStaysFilled | src/game_info.rs:47-57 | once slot 1 holds a known entry, no further call changes it, and slot 2 ends up with the last slot reported |
| Game.SameEntryFillsBothSlots | src/game_info.rs:39-57 | the same known entry reported twice fills both slots, and the record then has enough information to start a match |
| Hooks.DisplayName | src/lib.rs:199-204 | a player's nonempty tag is used as is; an empty tag gives "Player " followed by the decimal digits of entry id + 1, with no leading zero |
| Hooks.Plugin.constructor | src/game_info.rs:16-27 | the plugin starts with both records as created (`GameInfo::new` here, `TrainingInfo::new` at lines 10-18 of src/training_info.rs): nothing pending or running, no match running, every kind, stage and slot unknown, no broadcasts; this state satisfies the hooks' invariant |
| Hooks.Plugin.HandleFighterGlobalReset | src/lib.rs:120-142 | the records and the broadcasts change exactly as the reset step function says |
| Hooks.Plugin.OncePerFramePerFighter | src/lib.rs:144-276 | the records and the broadcasts change exactly as the frame step function says |
| Hooks.Plugin.TrainingFrame | src/lib.rs:154-185 | the training branch: record, then stop, then the fighter state while the session runs; the game record is untouched |
| Hooks.Plugin.RecordTraining | src/lib.rs:161-174 | while ready and pending, records the kind and stage and starts the session (broadcasting TrainingStart) once both kinds and the stage are known |
| Hooks.Plugin.StopTraining | src/lib.rs:176-180 | a running session on a frame that is not ready-go stops and broadcasts TrainingEnd |
| Hooks.Plugin.MatchFrame | src/lib.rs:186-222 | the match branch: ignored unless two fighters are entered; record a slot, start the match when complete, then the fighter state while it runs; the training record is untouched |
| Hooks.StepsKeepInvariant | src/lib.rs:120-276 | both hooks keep the invariant: never pending and running at once, and a running session or match has its facts |
| Hooks.ResetTraining | src/lib.rs:126-131 | a reset in training mode marks an idle session pending and leaves a running one alone; otherwise the training record is untouched |
| Hooks.ResetMatchEnd | src/lib.rs:133-139 | exactly when not in training mode, not ready-go, in result mode and with a match running, the reset broadcasts MatchEnd as its only message and the match is over; otherwise it broadcasts nothing and the game record is unchanged |
| Hooks.ResetIdempotent | src/lib.rs:126-139 | a second reset with the same signals changes nothing and broadcasts nothing |
| Hooks.TrainingRecording | src/lib.rs:161-180 | facts are recorded only while ready and pending (entry 0 gives the player's kind, entry 1 the CPU's); a not-ready frame stops a running session; otherwise nothing changes |
| Hooks.TrainingStartWhenComplete | src/lib.rs:161-174 | TrainingStart goes out exactly when a ready, pending frame completes the facts, and the session is then running and no longer pending |
| Hooks.TrainingShape | src/lib.rs:154-185 | all the messages of one training frame, case by case |
| Hooks.TrainingEndOnStop | src/lib.rs:176-180 | TrainingEnd goes out exactly when a running session sees a not-ready frame, and then it is the only message |
| Hooks.EntryCountGate | src/lib.rs:187-190 | outside training mode, a frame with other than two entries changes nothing and sends nothing |
| Hooks.MatchRecording | src/lib.rs:198-217 | a fighter is recorded only while ready with no match running: into slot 1 while it is free, else slot 2, with the stage; the match then runs exactly when the record is complete |
| Hooks.MatchStartWhenComplete | src/lib.rs:198-217 | MatchStart goes out exactly when a frame records a fighter and both slots and the stage are then known |
| Hooks.FighterStateOnlyWhileRunning | src/lib.rs:181-270 | a frame sends a FighterState exactly when its mode's session runs after that frame, and then it is the frame's last message and carries this fighter's sample |
| Hooks.NoStartWithoutPending | src/lib.rs:161-174 | frames never raise the pending flag, and without it no TrainingStart goes out |
| Hooks.NoMatchStartWhileRunning | src/lib.rs:198-222 | frames never end a match, and while one runs no MatchStart goes out |
| Hooks.TrainingFramesSendNoMatchStart | src/lib.rs:154-185 | a training frame leaves the game record alone and never sends MatchStart |
| Hooks.TrainingStartsOnce | src/lib.rs:161-174 | after a session has started, no run of frames sends another TrainingStart until a reset marks it pending |
| Hooks.MatchStartsOnce | src/lib.rs:198-222 | once a match runs, it keeps running through any run of frames and no second MatchStart goes out |
| Hooks.ResetEvents | src/lib.rs:126-139 | a reset never sends TrainingStart, TrainingEnd or MatchStart, and its MatchEnd ends a match that was running |
| Hooks.FrameEvents | src/lib.rs:154-222 | a frame never sends MatchEnd, and outside training mode it sends neither TrainingStart nor TrainingEnd |
| Hooks.TrackAppend | src/lib.rs:120-276 | following a session through a + b is following it through a, then through b from the state a left |
| Hooks.ResetTracks | src/lib.rs:126-139 | a reset's messages are in turn for the training session and for the match, and leave each in its new state |
| Hooks.FrameTracks | src/lib.rs:154-222 | a frame's messages are in turn for both sessions (a start only while idle, an end only while running) and leave each in its new state |
| Hooks.RunTracks | src/lib.rs:120-276 | over any interleaving of resets and frames the invariant holds, and each session's start and end messages alternate from its initial to its final state: never two starts without an end between them, never an end while idle |
| Hooks.TrackedEndsFollowStarts | src/lib.rs:120-276 | a stream in turn for a session that starts idle has every end message after some start message |
| Hooks.FreshPluginRuns | src/lib.rs:120-276 | from the plugin's initial records, over any interleaving of resets and frames, the invariant holds, starts and ends alternate beginning with a start, and no TrainingEnd or MatchEnd precedes its start |
| Protocol.Tag | src/protocol.rs:11-32 | every tag is a byte below 16 |
| Protocol.FromTag | src/protocol.rs:11-32 | a byte converts to a tag exactly when it is below 16, and that tag's byte is the byte |
| Protocol.TagRoundTrip | src/protocol.rs:11-32 | every tag converts back to itself |
| Protocol.TagInjective | src/protocol.rs:11-32 | two tags have the same byte exactly when they are the same tag |
| Protocol.VersionReply | src/protocol.rs:45-51 | three bytes under the ProtocolVersion tag |
| Protocol.SendProtocolVersion | src/protocol.rs:45-51 | one write of the version reply, whose error is returned |
| Protocol.MatchStartPayload | src/protocol.rs:102-125 | length 11 plus both names; starts with the stage as two big-endian bytes and the player count 2 |
| Protocol.MatchStartMessage | src/protocol.rs:127-137 | the MatchStart tag followed by the payload |
| Protocol.MatchResumeMessage | src/protocol.rs:139-153 | the MatchResume tag followed by the same payload |
| Protocol.MatchEndMessage | src/protocol.rs:155-158 | the MatchEnd tag alone |
| Protocol.SendMatchResume | src/protocol.rs:139-153 | while a match runs, one write of the resume message; otherwise no write and Ok |
| Protocol.TrainingStartPayload | src/protocol.rs:160-169 | four bytes: the stage's low 16 bits big-endian, then the low bytes of the player and CPU kinds |
| Protocol.TrainingStartMessage | src/protocol.rs:171-182 | the TrainingStart tag followed by the payload |
| Protocol.TrainingResumeMessage | src/protocol.rs:184-199 | the TrainingResume tag followed by the same payload |
| Protocol.TrainingEndMessage | src/protocol.rs:201-204 | the TrainingEnd tag alone |
| Protocol.SendTrainingResume | src/protocol.rs:184-199 | while a session runs, one write of the resume message; otherwise no write and Ok |
| Protocol.Flags | src/protocol.rs:206-270 | bit 0 is attack-connected, bit 1 facing right, bit 2 opponent in hitlag |
| Protocol.MotionBytes | src/protocol.rs:206-270 | the five low bytes of the motion hash, big-endian, worth the hash modulo 256^5 |
| Protocol.FighterStateMessage | src/protocol.rs:206-270 | 30 bytes under the FighterState tag |
| Bytes.U8 | src/protocol.rs:102-125 | `as u8` keeps the value modulo 256; a value already in range is unchanged |
| Bytes.U16 | src/protocol.rs:102-125 | `as u16` keeps the value modulo 65536; a value already in range is unchanged |
| Bytes.SatU16 | src/protocol.rs:206-270 | the float cast saturates: below 0 gives 0, above 65535 gives 65535, in range unchanged |
| Bytes.FromBEOfBE | src/protocol.rs:206-270 | reading n big-endian bytes back gives the value modulo 256^n |
| Bytes.U16BERoundTrip | src/protocol.rs:102-125 | a u16 field reads back as the value's low 16 bits |
| Bytes.U32BERoundTrip | src/protocol.rs:206-270 | a u32 field reads back as the same value |
| Bytes.ShiftMaskBytes | src/protocol.rs:160-169 | `(x >> 8) & 0xFF, x & 0xFF` on an i32 is the big-endian form of `x as u16` |
| Bytes.DigitsRoundTrip | src/lib.rs:199-204 | the decimal digits of n parse back to n |
| Bytes.DecimalText | src/lib.rs:199-204 | `{}` formatting: digits that parse back to n, or a '-' sign and the digits of -n, in either case without a leading zero (a lone "0" for zero) |
| Entries.Encode | src/protocol.rs:272-282 | a row is the tag, the code bytes, the name's length as one byte, then the name |
| Entries.DigestIsUnframedEntry | src/protocol.rs:53-79 | the checksum sees each row with its tag and length byte taken out |
| Entries.DecodeEncodeAll | src/protocol.rs:272-321 | when every name is shorter than 256 bytes, a client reads the rows written back to back exactly |
| Entries.EncodeAllCons | src/protocol.rs:272-321 | a table buffer is its first row followed by the rest |
| Entries.EncodeDecodeAll | src/protocol.rs:272-321 | whatever the reader accepts is exactly the encoding of the rows it returns |
| Wire.DecodeVersionReply | src/protocol.rs:45-51 | the version reply reads back as major 1, minor 1 |
| Wire.DecodeMatchMessages | src/protocol.rs:102-153 | a match start or resume reads back as the stage's low 16 bits, two players and both slots' low bytes and names, when the names are shorter than 256 bytes |
| Wire.DecodeTrainingMessages | src/protocol.rs:160-199 | a training start or resume reads back as the stage's low 16 bits and both kinds' low bytes |
| Wire.DecodeEndMessages | src/protocol.rs:155-158 | the end messages read back as themselves |
| Wire.DecodeFighterState | src/protocol.rs:206-270 | the fighter frame reads back field by field, with each cast applied |
| Io.Stream.Send | src/protocol.rs:34-43 | one write call: the buffer goes out whole, or the oracle's error is returned and nothing goes out |
| Io.SendAll | src/protocol.rs:88-100 | the run writes exactly the buffers before the first failing call and reports that call's error |
| Io.SendAllAppend | src/protocol.rs:88-100 | a run over a + b is the run over a, then the run over b when a went out whole |
| Io.SendEach | src/protocol.rs:297-309 | the loop "write each buffer, `?`" performs exactly SendAll's run |
| Io.PerformedThen | src/protocol.rs:88-100 | a run of a that went out whole followed by a run of b is the run of a + b (the meaning of `?` between two senders) |
| Io.PerformedStop | src/protocol.rs:88-100 | a run of a that failed is the run of a + b: nothing of b is attempted |
| Mapping.UpdateDigest | src/protocol.rs:53-79 | one table loop feeds the digest each row's code bytes and then its name |
| Mapping.CalcMappingInfoChecksum | src/protocol.rs:53-79 | the checksum is the CRC of fighters, stages, statuses and hit statuses, unframed, in that order |
| Mapping.ChecksumMessage | src/protocol.rs:81-86 | five bytes: the tag, then the checksum, big-endian |
| Mapping.SendMappingInfoChecksum | src/protocol.rs:81-86 | one write of the checksum message |
| Mapping.BuildRows | src/protocol.rs:272-282 | the buffer-building loop produces the table's rows back to back |
| Mapping.SendFighterKindConstants | src/protocol.rs:272-282 | the fighter table goes out in a single write |
| Mapping.SendStageConstants | src/protocol.rs:284-295 | the stage table, codes as big-endian u16, in a single write |
| Mapping.SendFighterStatusKindConstants | src/protocol.rs:297-309 | one write per status row, stopping at the first error |
| Mapping.SendHitStatusConstants | src/protocol.rs:311-321 | the hit-status table in a single write |
| Mapping.TableWrites | src/protocol.rs:94-97 | three writes plus one per status row: the fighter buffer first, then the status rows in table order, then the stage buffer, then the hit-status buffer |
| Mapping.SendTables | src/protocol.rs:94-97 | the four senders in turn; the first error ends the dump |
| Mapping.SendFightersAndStatuses | src/protocol.rs:94-95 | the fighter buffer, then the status rows only when it went out; the first error ends the run |
| Mapping.SendStagesAndHits | src/protocol.rs:96-97 | the stage buffer, then the hit-status buffer only when it went out; the first error ends the run |
| Mapping.SendTablesAndCompletion | src/protocol.rs:94-98 | the four tables and then the completion tag, as one run stopping at the first error |
| Mapping.MappingInfoWrites | src/protocol.rs:88-100 | the writes of a full dump, one by one: checksum under MappingInfoRequest, fighters, statuses, stages, hit statuses, completion tag |
| Mapping.SendMappingInfo | src/protocol.rs:88-100 | performs exactly those writes, stopping at and returning the first error |
| Mapping.StatusMessagesConcat | src/protocol.rs:297-309 | the status writes, read back to back, are framed like the other tables |
| Mapping.ClientRecomputesChecksum | src/protocol.rs:53-100 | a client holding a full dump decodes all four tables and gets back exactly the digest input and the checksum |
| Mapping.ChecksumIgnoresRowBoundaries | src/protocol.rs:53-79 | the digest has no length prefixes: two different tables can have the same checksum input |
| Server.ClientLoopDecision | src/server.rs:62-103 | the thread exits exactly on a failed read, a closed channel or a failed write of a queued message; it sleeps exactly when the queue was empty |
| Server.RecvOf | src/server.rs:62-103 | the channel gives the oldest queued message; with none, it is empty while the sender lives and disconnected once it is dropped |
| Server.Admitted | src/server.rs:112-132 | at most one client per item, and none without a connection whose set_nonblocking succeeds |
| Server.AdmittedStopsAtError | src/server.rs:112-132 | nothing after the first accept error is looked at |
| Server.AdmittedWithoutErrors | src/server.rs:112-132 | with no accept error, exactly the connections whose set_nonblocking succeeds are admitted |
| Server.BroadcastKeepsRegistry | src/server.rs:134-144 | broadcast keeps ids distinct and in range, every live client's written messages plus its queue equal what it was sent, and live clients in the list |
| Server.Server.constructor | src/server.rs:20-24 | no clients; the registry invariant holds |
| Server.Server.AcceptClient | src/server.rs:26-48 | when set_nonblocking succeeds, the next id with an empty queue is pushed at the end; otherwise nothing changes |
| Server.Server.Broadcast | src/server.rs:134-144 | senders to exited threads are dropped, survivors keep their order, and each survivor's queue gets one copy of the data |
| Server.Server.EnqueueToLive | src/server.rs:134-144 | the `retain` loop keeps exactly the senders whose threads have not exited, in order, and adds one copy of the data to each of their queues |
| Server.Server.ClientIteration | src/server.rs:55-108 | the decision is ClientLoopDecision on what the channel delivers; a taken message leaves the queue even when its write fails; an exit marks the thread exited |
| Server.Server.ListenForIncomingConnections | src/server.rs:112-132 | without a bind error, the admitted clients get the next ids in order with empty queues; with one, nothing changes |
| UhProtocol.Tag | uhrecorder/src/protocol.rs:6-11 | FighterKind is 0 and StageKind is 1 |
| UhProtocol.EntryMessage | uhrecorder/src/protocol.rs:114-117 | tag, kind as u8, name length as u8, then the name |
| UhProtocol.FighterMessages | uhrecorder/src/protocol.rs:21-120 | one entry per fighter, in table order |
| UhProtocol.StageMessages | uhrecorder/src/protocol.rs:122-143 | one entry per stage of the twelve-stage table, in order |
| UhProtocol.ConstantWrites | uhrecorder/src/protocol.rs:13-19 | all the fighter entries, then all the stage entries |
| UhProtocol.SendFighterConstants | uhrecorder/src/protocol.rs:21-120 | one write per fighter, stopping at the first error |
| UhProtocol.SendStageConstants | uhrecorder/src/protocol.rs:122-143 | one write per stage, stopping at the first error |
| UhProtocol.SendConstants | uhrecorder/src/protocol.rs:13-19 | the fighters, then the stages when the fighters all went out, as one run |
| UhProtocol.EmptyNameEntry | uhrecorder/src/protocol.rs:114-117 | an entry with an empty name is tag, kind, 0 |
| UhProtocol.StageKindsTruncate | uhrecorder/src/protocol.rs:124-135 | the kind byte folds stage 257 onto 1 (Final Destination's code) and 347 onto 91 |
| UhProtocol.FighterStreamDecodes | uhrecorder/src/protocol.rs:21-120 | with names shorter than 256 bytes, the fighter entries read back as the table, each kind as its low byte |
| UhProtocol.StageStreamDecodes | uhrecorder/src/protocol.rs:122-143 | the stage entries read back as the table's rows |
| UhServer.FromIoError | uhrecorder/src/server.rs:18-25 | AddrInUse maps to AddressInUse and every other kind to Other |
| UhServer.KeptByPoll | uhrecorder/src/server.rs:70-88 | a client is kept exactly when its read succeeds or fails with OS error 11 |
| UhServer.Polled | uhrecorder/src/server.rs:70-88 | the survivors are exactly the clients poll keeps; nothing written changes |
| UhServer.Advance | uhrecorder/src/server.rs:36-55 | one pass of the accept loop adds the constants dump as the new client's only record exactly when the connection got through |
| UhServer.PollKeepsOrder | uhrecorder/src/server.rs:70-88 | poll keeps the registry consistent and the survivors in their order |
| UhServer.AdvanceKeepsConsistent | uhrecorder/src/server.rs:36-55 | one pass keeps the registry consistent, and its clients are old or new |
| UhServer.ListeningKeepsConsistent | uhrecorder/src/server.rs:36-55 | the accept loop keeps the registry consistent, and its clients are old or new |
| UhServer.ListeningAdmitsAfterConstants | uhrecorder/src/server.rs:36-55 | existing clients' records are untouched, and every added client has been sent exactly the constants dump |
| UhServer.AcceptErrorsAreSkipped | uhrecorder/src/server.rs:36-55 | accept errors alone are only logged and never end listening |
| UhServer.ListeningErrorIsMapped | uhrecorder/src/server.rs:36-55 | a failed run reports the mapped error of a failed call of one of its connections |
| UhServer.RetainKeepsConsistent | uhrecorder/src/server.rs:57-68 | dropping clients keeps the registry consistent |
| UhServer.Server.constructor | uhrecorder/src/server.rs:30-34 | no clients |
| UhServer.Server.Poll | uhrecorder/src/server.rs:70-88 | the client list becomes the clients poll keeps, in order |
| UhServer.Server.Broadcast | uhrecorder/src/server.rs:57-68 | poll, then keep the clients whose write succeeds, in order; each of them gets one copy of the data |
| UhServer.Server.RetainWritable | uhrecorder/src/server.rs:57-68 | a failed write drops the client; each kept client gets one copy of the data |
| UhServer.Server.ListenForIncomingConnections | uhrecorder/src/server.rs:36-55 | a bind or address error is mapped and returned with nothing changed; otherwise the state and result are those of the accept loop |

## Left out

- Sockets, threads, mutexes and sleeping are not modelled. Every socket or
  channel call is an input: the `Stream` outcome oracle, or a per-call
  outcome parameter. The client threads are one pass at a time
  (`ClientIteration`), with no interleaving.
- The client thread's read goes into an empty buffer, so it never receives
  anything. The model keeps only whether the read succeeds.
- Floating point is not modelled. Positions arrive as their IEEE-754 bit
  patterns. Scaled damage, hitstun and shield arrive as products already
  truncated toward zero.
- The CRC-32 function is a parameter.
- The game's constant tables are parameters: fighter kinds, stage kinds,
  fighter status kinds and hit status kinds in the top crate, and fighter
  kinds in `uhrecorder`. Only `uhrecorder`'s literal stage table is written
  out.
- Partial writes are not modelled: a write either accepts the whole buffer
  or fails.
- The engine calls made by the hooks are inputs of `FrameSignals`.
  `player_tags::get_name_for_slot` is an input too.
- Logging is not modelled.
- `src/replay.rs` and `uhrecorder/src/lib.rs` are not part of this model.
- Hooks.DisplayName: the name is stated for entry id + 1 >= 0. Its 32-bit
  overflow at `i32::MAX` is not modelled; ids are unbounded integers.
- Game.GameInfo.SetPlayerInfo: assumes the skin fields.
  - The call in `src/lib.rs` passes a skin, and `match_start_payload` sends
    it.
  - `src/game_info.rs` declares neither the skin parameter nor the fields.
  - The model gives each slot a skin and records it together with the kind.
- Wire.DecodeMatchMessages, UhProtocol.FighterStreamDecodes and
  Entries.DecodeEncodeAll hold only for names shorter than 256 bytes. A
  longer name's length byte is its length modulo 256, and a client then
  misreads the stream.
- Server.Server.ListenForIncomingConnections and
  UhServer.Server.ListenForIncomingConnections take the items of
  `listener.incoming()` as a finite sequence. The source iterates forever.
- Training.TrainingInfo.HaveEnoughInfoToStart and
  Game.GameInfo.HaveEnoughInfoToStartMatch are definitions (the three facts
  are known). They have no contract of their own, and the lemmas use them.
