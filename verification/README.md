# Live media egress of neolink, verified

A model in Dafny of the path a camera frame takes through neolink on its way to a reader, and of the small state
machines beside it, with proofs of what their comments promise. `dafny verify dfyconfig.toml` checks all of it.

## What is modelled

- **The MPEG-TS muxer** (`TsMux`, `TsMuxer`, `TsPackets`, `Crc`) and, as its independent inverse, the strict
  demultiplexer of its tests (`TsReader`, `TsDemuxer`), written from ISO/IEC 13818-1 (sections 2.4.3.3, 2.4.3.5, 2.4.3.7,
  2.4.4 and Annex A). `PsiReading`, `FrameReading` and `RoundTrip` connect the two; `MuxProperties` has the rest. `Seams`
  is about a reader that is given the output of one muxer after another.
- **The fanout** (`Fanout`, `FanoutRuns`, `FanoutLaws`, `FanoutRefines`, `Backlog`, `WakeUps`): one producer, many consumers, a GOP
  cache, backlogs measured in stream time. Runs are lists of attach, push, next, drop and close events; each consumer
  carries the history positions of what it was delivered, has queued and lost.
- **The packer** (`Packer`, `PackerLaws`), which joins clock and muxer, and the end-to-end statements (`EndToEnd`). A
  fanout outlives its packers: its history is that of any number of camera sessions, each with a packer of its own.
- **The clock and the rate limiter** (`Timestamps`, `ClockLaws`, `GopLimit`, `GopBuckets`), alone and in the order the RTSP
  relay calls them.
- **The use counter** (`UseCounter`, `UseCounts`), **the connection-scoped cache** (`ConnCache`) and **the SOAP envelope
  scanner** (`Soap`, `Envelope`).
- **The IMA ADPCM decoder** (`Adpcm`, `AdpcmLaws`).

Code that changes things step by step is a class or a method with loops, proved equal to a function of its old state;
the properties are proved of those functions, over all inputs and all runs. What the outside world fixes (stream codes,
header bytes, the generator of the checksum, limits in microseconds) is stated in numbers, not through the constants of
the model. Concurrent parts are step systems: every
finite list of events is a run, an event that is not enabled does nothing, and what holds after every list holds in every
reachable state.

Integers are unbounded, and the source's widths are written out where they matter: 8-bit and 4-bit counters, 33-bit
clocks, saturating 64-bit products and sums, wrapping 32-bit subtraction, and 32-bit arithmetic in the decoder
(newtypes, so that Dafny checks every intermediate result).

## What the proofs showed

Where the code and what is said about it part ways, the model follows the code, and the condition under which a promise
is kept is proved in both directions.

- Within one camera session every stretch a reader is handed from a keyframe on reads back (`ConsumerReadsSession`). A
  new session restarts every continuity counter, so a stretch across a seam reads if and only if the streams are the same
  and every PID both sessions write happened to end on counter 15 (`AcrossOneSeam`, `SeamIff`). The GOP cache hands such
  a stretch to a reader that attaches between two sessions (`CachedSeamRefused`).
- A backlog is bounded by the limit and the disorder of the chunk times since the reader attached (`BacklogBounded`); the
  limit alone is a bound on exactly the histories `BoundedIff` describes. Without audio that is the case within a session
  (`SilentBacklogBounded`); with audio, or across a seam, it need not be (`AudioOutgrowsLimit`, `SeamOutgrowsLimit`).
- The conversion of microseconds to 90 kHz ticks saturates: it is the exact floor up to 2049638230412172411 us and
  frozen beyond (`TicksExactIff`, `TicksFreeze`).
- A restart of the camera clock is declared on two backward frames with nothing but duplicates between them
  (`RestartIff`); they come "in a row", as the comment has it, exactly if no duplicate does (`InARowIff`).
- An undecodable ADPCM block is dropped, but the audio clock has already moved (`TimeFrame`).
- The envelope scanner is misled exactly by a header that quotes a body with an element in it (`ExtentRightIff`,
  `FalseBodyFails`), and a token header behind the operation replaces the credentials in front of it exactly if it has a
  user and a password (`CredentialsFromFrontIff`, `TokenBehindCounts`).
- A username token that lacks user or password leaves its nonce and time behind for the next one (`TokenLeaves`,
  `StaleNonce`).
- A device read, failed or not, is reused for as long as its connection lasts exactly if, when it ends, no call that began
  under another token is around (`AnswerIsKeptIff`, `FailureIsKept`); such a call evicts it (`StrangerEvicts`).
- The use counter is right once drained exactly if as many activations as deactivations were cancelled between flag and
  message (`DrainedIsActiveIff`). It can go below zero exactly if more activations than deactivations were, or the
  messages already in the channel take it there (`UnderflowIff`); without cancelled activations neither is the case
  (`NeverUnderflows`).
- ADPCM state resumes from a header only if the index is clamped first (`RawIndexResumesIff`).

## Assumptions

- At most 33 tracks, so that the PMT fits one packet; the packer needs two.
- Each consumer is read by one task.
- Lock-protected sections are atomic steps. `Notify` is a stored permit, a parked task and a generation count; a channel is
  a FIFO sequence with a capacity.
- A connection is the number of its login; a weak reference matches only itself, and only while it lives.
- XML events carry the stretch of the document they were read from, whitespace in front of a tag included, one character
  to a byte; a reader checks that end tags match.

## Model

| member | source | states |
|---|---|---|
| EndToEnd.EveryConsumerReads | src/stream/fanout.rs:178-273 | over every run of the fanout, with any number of sessions behind it, and for every consumer: any gap-free stretch it was handed from a resync point on, live or out of the GOP cache, is accepted by a strict reader started on its first byte if and only if its sessions join on to each other, and then yields exactly its frames |
| EndToEnd.ConsumerReadsSession | src/stream/fanout.rs:178-273 | a gap-free stretch from a resync point on that lies within one session is always accepted, continuity check included, and yields exactly its frames |
| EndToEnd.NeverOverrunReadsWhole | src/stream/fanout.rs:244-272 | for a consumer that never overran the same holds of everything it was ever handed or has queued, from its first chunk to the last one pushed |
| EndToEnd.StretchReads | src/pipe/mod.rs:151-205 | the bytes of any stretch of a history of sessions, from a keyframe on, read exactly if its sessions join on, and then as its frames |
| EndToEnd.SessionReads | src/pipe/mod.rs:174-205 | within one session any stretch from a keyframe on is accepted and yields exactly its frames |
| EndToEnd.AcrossOneSeam | src/pipe/mod.rs:158-188 | a stretch over the end of one session and the start of the next is accepted if and only if both announce the same streams and the last counter of the first is 15 on every PID both write |
| EndToEnd.StretchIsTheCalls | src/stream/fanout.rs:33-35 | an accepted stretch as a statement about what was written: on each track, in order, payload, PTS and flag of every frame, whichever session it came from, with the tables in front of every keyframe |
| EndToEnd.CachedSeamRefused | src/pipe/mod.rs:151-205 | whenever the last reader leaves after a session of one keyframe and the next one is seeded from the cache before a new session starts, what it is handed without a gap or an overrun is refused by a strict reader |
| Seams.JoinReads | src/mpegts/mod.rs:158-194 | a reader in any state accepts a stretch that opens with the tables if and only if every PID written goes on from what it has seen and the program is one it knows or can take, and then gains exactly the frames |
| Seams.ChainReads | src/mpegts/mod.rs:158-194 | the same for the output of any number of muxers one after the other |
| Seams.SeamIff | src/mpegts/mod.rs:172-194 | a reader goes on from one muxer to a new one exactly if the streams are the same and every PID both write ended on counter 15 |
| Seams.LastSentIsBehind | src/mpegts/mod.rs:410-411 | the last counter sent on a PID is the counter the muxer holds, less one modulo 16 |
| Seams.SameStreamsSameKinds | src/mpegts/mod.rs:172-194 | two new muxers announce the same streams exactly if they were made for the same kinds in the same order |
| EndToEnd.JoinedAtKeyframe | src/mpegts/mod.rs:232-283 | a reader that knows nothing and starts on a keyframe in mid-stream accepts everything one muxer writes from there on and finds exactly its frames |
| Packer.CameraToReader | src/stream/pump.rs:308-391 | whatever the camera sent over any number of sessions, each with a packer of its own, and whatever the readers did, every gap-free stretch a consumer was handed from a keyframe on is accepted exactly if the sessions in it join on, and reads back as the access units the packers made |
| Packer.HistoriesAreFed | src/pipe/mod.rs:187-205 | what the packers of any sessions push is a history of lawful sessions: one chunk per non-empty access unit, keyframes as resync points |
| Packer.SilentPtsOrdered | src/stream/pump.rs:334-348 | without audio the chunk times of one packer never step back, whatever the camera clock does |
| Packer.SilentBacklogBounded | src/stream/fanout.rs:237-266 | without audio the limit bounds the backlog of every reader that attached during the session going on, whatever the camera sends and whatever sessions came before |
| Packer.SilentSessionsBounded | src/stream/fanout.rs:237-266 | a reader kept on from earlier sessions can be behind by no more than the limit and the latest time those sessions reached |
| Packer.AudioOutrunsVideo | src/stream/pump.rs:349-360 | a concrete run with audio, frame by frame, whose chunk times step back |
| Packer.AudioOutgrowsLimit | src/stream/fanout.rs:244-266 | over the history the packer makes of that run some reader ends up with more than the limit queued |
| Packer.SeamOutgrowsLimit | src/stream/fanout.rs:244-266 | without audio two sessions of two frames can do the same |
| Packer.PackedIsProduced | src/stream/pump.rs:310-391 | the chunks a packer hands over are one per non-empty access unit, in order, with exactly the keyframes as resync points |
| Packer.NeverNothing | src/stream/pump.rs:383-385 | a non-empty access unit never muxes to an empty chunk, so no frame is lost to the emptiness check |
| PackerLaws.UnitOfFrame | src/stream/pump.rs:329-391 | frame by frame: video as it is on track 0, only I-frames as keyframes; AAC as it is, or one A-law byte for each ADPCM sample, on track 1 if that is the plan; nothing else |
| PackerLaws.AudioKeepsTime | src/stream/pump.rs:349-379 | audio runs on from the last video PTS on the durations of all frames of the plan, decodable or not |
| PackerLaws.DeclaredKinds | src/stream/pump.rs:276-306 | a program is video, and AAC, A-law or nothing behind it |
| Packer.Packer.constructor | src/stream/pump.rs:276-306 | a new packer holds a fresh muxer for the video kind and the planned audio kind and a fresh clock, with the two tracks found where they were declared |
| Packer.Packer.TimeFrame | src/stream/pump.rs:334-379 | a frame is timed on the clock its kind belongs to and becomes the access unit of the plan or none; an ADPCM block advances the audio clock even when it turns out undecodable |
| Packer.Packer.FrameTs | src/stream/pump.rs:329-391 | packing one frame leaves the clock and muxer in the state that muxing its access unit gives, and returns exactly the chunk of that access unit, or none |
| Packer.Packer.FrameAnnexb | src/stream/pump.rs:313-328 | on a bare stream a video frame becomes a chunk of its own bytes under its PTS, a resync point if it is a keyframe; everything else gives nothing and moves no clock |
| TsMuxer.Chain.Take | src/mpegts/mod.rs:506-516 | moves exactly the next bytes of head then tail to the output and keeps the rest |
| TsMuxer.WriteTimestamp | src/mpegts/mod.rs:447-453 | the five bytes written are the standard form of the 33-bit timestamp under the prefix; FrameReading.TimestampRead shows what they mean |
| TsMuxer.WritePcr | src/mpegts/mod.rs:457-464 | the six bytes appended are the standard form of the 33-bit clock base; TsPackets.PcrRoundTrip shows what they mean |
| TsMuxer.WritePsiPacket | src/mpegts/mod.rs:362-376 | appends one packet holding the section, its CRC and filler, and steps the counter with 8-bit wrap |
| TsMuxer.WriteField | src/mpegts/mod.rs:412-432 | appends the adaptation field of the given size for the flags and clock |
| TsMuxer.WriteHeader | src/mpegts/mod.rs:405-410 | appends the four header bytes for the PID, start flag, field and counter |
| TsMuxer.EmitOne | src/mpegts/mod.rs:393-439 | one turn of the packet loop appends exactly one encoded packet with the next share of the data and steps the counter |
| TsMuxer.EmitPackets | src/mpegts/mod.rs:384-441 | terminates with the chain empty, having appended exactly the packets the split gives, with the counter advanced by their number modulo 256 |
| TsMuxer.BuildHeader | src/mpegts/mod.rs:258-279 | the fixed buffer ends up holding the PES header for the stream kind, length and PTS |
| TsMuxer.TsMuxer.constructor | src/mpegts/mod.rs:172-194 | a new muxer has consecutive PIDs in declaration order, the clock on the first video track or else the first, and nothing announced |
| TsMuxer.TsMuxer.TrackOf | src/mpegts/mod.rs:198-200 | finds the first track of a kind, or none exactly when there is none |
| TsMuxer.TsMuxer.PmtSectionBytes | src/mpegts/mod.rs:308-328 | builds the PMT section that lists every track and names the clock PID |
| TsMuxer.TsMuxer.WritePsi | src/mpegts/mod.rs:215-222 | appends a PAT and a PMT and steps both counters, changing nothing else |
| TsMuxer.TsMuxer.WriteTablesIfDue | src/mpegts/mod.rs:248-252 | appends the tables and remembers the clock exactly when they are due |
| TsMuxer.TsMuxer.WriteAccessUnit | src/mpegts/mod.rs:254-283 | appends exactly the packets of the PES packet and advances only that track |
| TsMuxer.TsMuxer.WriteFrame | src/mpegts/mod.rs:232-283 | appends the tables if due and the frame, nothing for an empty payload, and only the tables for an unknown track |
| RoundTrip.MuxerRoundTrip | src/mpegts/mod.rs:232-283 | for any track list of at most 33 and any interleaving of calls, the strict reader accepts the whole output and has on every PID exactly the frames expected of the calls, and every clock value sent |
| MuxProperties.RoundTripIsTheCalls | src/mpegts/mod.rs:232-283 | the same as a statement about the calls alone: per track and in order, each non-empty frame comes back with its exact payload, flag and PTS, long frames with a zero length included |
| MuxProperties.ExpectedIsWritten | src/mpegts/mod.rs:232-283 | what the reader is expected to find on a PID is, call by call, what was written to its track |
| RoundTrip.RunRead | src/mpegts/mod.rs:158-167 | from any muxer and reader in step, a run of calls reads back as its frames and leaves the two in step |
| RoundTrip.CallRead | src/mpegts/mod.rs:215-283 | one call, announced or not, is read without an assertion failing, keeps every continuity counter in step and delivers exactly its frame |
| RoundTrip.BytesAreBuilt | src/mpegts/tests.rs:59-76 | reading the encoded bytes of any sendable packets is reading the packets |
| MuxProperties.Packetisation | src/mpegts/mod.rs:384-441 | the packets are 188 bytes each, their payloads concatenate to the data, start flag, clock and random access ride on the first packet only, none of them is lost in the one-byte adaptation field, and the 4-bit counter steps by one modulo 16 across the 8-bit wrap |
| MuxProperties.ProgramComesFirst | src/mpegts/mod.rs:289-296 | whatever a muxer that has announced nothing writes begins with the PAT and the PMT |
| MuxProperties.TablesBeforeKeyframe | src/mpegts/mod.rs:285-296 | a keyframe always has a PAT and a PMT right in front of it |
| MuxProperties.TablesNeverStale | src/mpegts/mod.rs:289-296 | after any non-empty frame the last tables are less than one interval old, the 33-bit wrap included |
| MuxProperties.TicksExactIff | src/mpegts/mod.rs:245 | the 90 kHz ticks are the floor of 9/100 of the microseconds if and only if the time is at most 2049638230412172411 us, where the saturating product reaches its limit |
| MuxProperties.TicksFreeze | src/mpegts/mod.rs:245 | past that limit two instants a second apart give one and the same tick |
| MuxProperties.NoDrift | src/mpegts/mod.rs:245 | over any stretch the rounding error stays under one tick and never accumulates |
| MuxProperties.PtsLeadsPcr | src/mpegts/mod.rs:63-72 | PTS minus PCR is the lead modulo 2^33 on every frame |
| WireFormat.FrameOnTheWire | src/mpegts/mod.rs:232-296 | after any calls a frame goes out with the tables in front of it exactly if they are due by a reference written out in ticks, and then its own packets: PID, start code, 0xE0 or 0xC0, exact length, flags and clock on the first one only, the clock exactly on the first video track or else the first, no packet but the last short |
| WireFormat.ProgramAnnounced | src/mpegts/mod.rs:113-136 | once anything is out a strict reader has the PMT on PID 0x1000 and every declared track on 0x100 upwards under 0x1B, 0x24, 0x0F or 0x90 for its kind |
| WireFormat.PatOnTheWire | src/mpegts/mod.rs:300-376 | all 188 bytes of the PAT, checksum included |
| WireFormat.PmtOnTheWire | src/mpegts/mod.rs:308-376 | the bytes of the PMT: its head, the PID of the clock, five bytes for each track, filler |
| WireFormat.PacketOnTheWire | src/mpegts/mod.rs:384-432 | every packet byte for byte: header bits, adaptation field if there is room, the two flags, the clock with its reserved bits, 0xFF behind |
| TsPackets.DecodeEncode | src/mpegts/mod.rs:384-441 | the reader recovers every field of every packet the muxer can send |
| TsPackets.PcrRoundTrip | src/mpegts/mod.rs:457-464 | reading a written clock base gives it back below 2^33 |
| FrameReading.TimestampRead | src/mpegts/mod.rs:447-453 | reading a written timestamp under the same prefix gives it back below 2^33 |
| FrameReading.HeaderChecked | src/mpegts/tests.rs:160-172 | a PES packet is taken exactly if start code, flags, header length, prefix and all three marker bits are right |
| FrameReading.CompleteAtOnce | src/mpegts/tests.rs:366-379 | a frame short enough to declare its length is complete with its own last packet |
| FrameReading.WholeFrameRead | src/mpegts/mod.rs:384-441 | a frame split over any number of packets comes back as exactly that frame |
| PsiReading.SectionRead | src/mpegts/mod.rs:335-376 | any section packed into a packet is read back whole, CRC and filler checked |
| PsiReading.StrayFillerRefused | src/mpegts/tests.rs:220-247 | a table with anything but 0xFF behind it is refused |
| PsiReading.DamagedTableRefused | src/mpegts/tests.rs:220-247 | a table damaged within four bytes, anywhere behind its length, is refused |
| PsiReading.TablesRead | src/mpegts/mod.rs:300-328 | after the two tables the reader knows the PMT PID, the clock PID and every track in order |
| Crc.Crc32Mpeg2 | src/mpegts/mod.rs:468-481 | the bit loop computes the register of the polynomial division from all ones |
| Crc.ResidueIsZero | src/mpegts/mod.rs:373 | a section followed by its own big-endian CRC always leaves the register at zero |
| Crc.BurstDetected | src/mpegts/mod.rs:468-481 | two messages of equal length that differ only within four consecutive bytes never have the same CRC |
| Crc.ShiftLinear | src/mpegts/mod.rs:472-478 | any number of shifts is linear over exclusive or |
| Crc.UnshiftUndoesShift | src/mpegts/mod.rs:472-478 | the shift step is undone by a step back, so it is invertible |
| CrcDivision.ChecksumIsRemainder | src/mpegts/mod.rs:468-483 | the checksum is the remainder, by long division over the generator written as its fifteen powers, of the data with 32 zeros behind it and its first 32 coefficients complemented |
| CrcDivision.CheckValue | src/mpegts/tests.rs:268-272 | the digits 1 to 9 have the checksum 0x0376E6E7 |
| CrcDivision.PatChecksum | src/mpegts/mod.rs:300-376 | the PAT has the checksum 0x2AB104B2 |
| TsDemuxer.Demux | src/mpegts/tests.rs:59-199 | accepts a byte stream exactly when the packet-by-packet reading does, and then has, PID by PID, everything it delivers, with no frame left open, whatever order the final flush takes |
| TsDemuxer.Demuxer.TakePacket | src/mpegts/tests.rs:76-192 | one packet updates clocks, continuity and reassembly as specified and fails exactly on a broken continuity counter or payload |
| TsDemuxer.Demuxer.TakePayload | src/mpegts/tests.rs:127-191 | routes a payload to the PAT, the PMT named by it, or a listed stream, and ignores other PIDs |
| TsDemuxer.Demuxer.TakePat | src/mpegts/tests.rs:127-138 | reads the PAT and takes the PMT PID it names last, or fails |
| TsDemuxer.Demuxer.TakePmt | src/mpegts/tests.rs:139-156 | reads the PMT, fails if the program changed, and marks the tables fresh |
| TsDemuxer.Demuxer.OpenPes | src/mpegts/tests.rs:160-178 | closes the frame before and opens the next one with its parsed PTS, or fails on a bad header |
| TsDemuxer.Demuxer.FinishPes | src/mpegts/tests.rs:183-190 | a declared length closes the frame as soon as it is reached, at exactly that length |
| TsDemuxer.Demuxer.FlushPid | src/mpegts/tests.rs:201-214 | hands over the frame a builder holds, if it holds one |
| TsDemuxer.Demuxer.FlushAll | src/mpegts/tests.rs:194-196 | in any order, closes every builder and delivers what each PID still owed |
| Fanout.Consumer.Next | src/stream/fanout.rs:87-104 | takes the front chunk and one off the seeded count, or ends on a closed queue, or parks, changing nothing else |
| Fanout.Consumer.Receive | src/stream/fanout.rs:235-271 | the whole queue after a push, under the limit or past it, awaiting a resync point or not |
| Fanout.Deliver | src/stream/fanout.rs:229-272 | offers the chunk to every held reader and to no other, and keeps exactly those, in order |
| Fanout.Fanout.Attach | src/stream/fanout.rs:178-203 | adds one new consumer seeded with the whole cached GOP or waiting for a resync point, changing no other |
| Fanout.Fanout.KeepGop | src/stream/fanout.rs:210-227 | the cache after a push; FanoutRuns.CacheIsHistorySuffix says what it holds |
| Fanout.Fanout.Push | src/stream/fanout.rs:207-273 | updates the cache, gives the chunk to every attached reader and forgets the detached ones |
| Fanout.Fanout.CountConsumers | src/stream/fanout.rs:276-280 | counts the readers still held and forgets the others |
| Fanout.Fanout.Close | src/stream/fanout.rs:298-306 | empties the list and closes the queue of every held reader, keeping what is queued |
| FanoutRuns.EveryRunSound | src/stream/fanout.rs:207-273 | in every reachable state: delivered and queued are contiguous slices of the history at increasing positions, each opening with a resync point, and from the first chunk on history splits into delivered, queued and dropped |
| FanoutRuns.DeliveredDecodable | src/stream/fanout.rs:207-273 | a delivered or queued chunk that is not a resync point directly follows its predecessor in the history |
| FanoutRuns.NothingElseLost | src/stream/fanout.rs:244-272 | every position since the first is in exactly one of delivered, queued and dropped; dropped is empty if and only if there was no overrun, and always without a limit |
| FanoutRuns.CacheIsHistorySuffix | src/stream/fanout.rs:210-227 | the cache is whole if and only if a resync point was pushed and the bytes since the last one are at most the limit; it then is exactly that suffix, and otherwise empty with byte count zero |
| FanoutRuns.SinceResyncIsSuffix | src/stream/fanout.rs:210-227 | what the cache is compared with is a suffix of the history that opens with its last resync point |
| FanoutRuns.QueueShape | src/stream/fanout.rs:237-271 | in every reachable state the seeded count is at most the queue length, a queue awaiting a resync point is empty, and one that is not is up to date with the history |
| Backlog.BacklogBounded | src/stream/fanout.rs:244-266 | with disorder at most d among the chunks pushed since a consumer attached, in every reachable state its last queued chunk is at most the limit and d after its first live one |
| Backlog.AllBacklogsBounded | src/stream/fanout.rs:244-266 | with disorder at most d in the whole history this holds of every consumer; with ordered times the limit itself is the bound |
| Backlog.BoundedIff | src/stream/fanout.rs:244-266 | the limit bounds every backlog in every run over a history if and only if, for every chunk a reader can hold at the front, what fits behind it without an overrun also fits behind every chunk after it |
| Backlog.OrderedIsBounded | src/stream/fanout.rs:244-266 | so with times that never step back, every limit bounds every backlog |
| Backlog.CloseIsBounded | src/stream/fanout.rs:244-266 | and in any order at all, if the times lie within one limit of each other |
| Backlog.OverrunNeedsLive | src/stream/fanout.rs:58-65 | whenever a push adds to the overruns of a consumer, a chunk pushed after it attached is still queued and more than the limit old; the catch-up burst alone never causes one |
| FanoutRefines.Perform | src/stream/fanout.rs:163-306 | any list of events performed on the classes ends in objects that stand for the run of the step system over it |
| FanoutRefines.Push | src/stream/fanout.rs:207-273 | a push on the objects is the push of the step system, for the cache, every queue and the list |
| FanoutRefines.Attach | src/stream/fanout.rs:178-203 | so is an attach |
| FanoutRefines.Next | src/stream/fanout.rs:87-104 | so is a look at the queue, which returns the front chunk |
| FanoutRefines.Drop | src/stream/fanout.rs:77-82 | so is dropping a reader |
| FanoutRefines.Close | src/stream/fanout.rs:298-306 | so is closing |
| FanoutRefines.Count | src/stream/fanout.rs:276-280 | counting prunes the list and changes nothing a reader can see |
| FanoutRefines.TakeGuard | src/stream/fanout.rs:94-97 | in every sound state the positions queued run out exactly when the chunks do |
| FanoutRefines.JoinGuard | src/stream/fanout.rs:181-195 | in every run a new reader is handed no more than was pushed, and starts at once exactly if the cache is whole |
| FanoutRuns.Isolated | src/stream/fanout.rs:244-272 | a consumer ends in the state it would reach if no other consumer existed |
| FanoutLaws.PushTakes | src/stream/fanout.rs:244-273 | one push after any run, in terms of history positions: who waits passes over everything but a resync point, who is more than the limit behind loses the queue and restarts on the chunk itself if it is a resync point, and everybody else gets it at the end |
| FanoutLaws.ResyncLostOnlyToOverrun | src/stream/fanout.rs:253-273 | a resync point pushed while a reader is attached reaches it, and is only ever dropped by a later overrun |
| FanoutLaws.LateReaderStarts | src/stream/fanout.rs:178-227 | a reader attaching after any run is given everything since the last resync point if that is at most 16 MiB, and otherwise nothing and waits |
| FanoutLaws.ClosedDrains | src/stream/fanout.rs:298-306 | after a close a reader takes what was queued, nothing less and nothing more, and is then told of the end |
| WakeUps.NoLostWakeUp | src/stream/fanout.rs:87-104 | in every interleaving, cancellation included, a reader parked in next has an empty, open queue or a wake-up still on its way |
| WakeUps.ReadsWithinThree | src/stream/fanout.rs:87-104 | once no wake-up is owed, a reader with something to read gets it within three steps of its own |
| WakeUps.NotifyFirstLoses | src/stream/fanout.rs:268-270 | a concrete interleaving that loses a chunk if the wake-up came before the append |
| WakeUps.SleepingMissedNobody | src/stream/fanout.rs:286-294 | a task asleep in wait_for_consumer has missed nobody: who joined since it registered is still to be announced, and with nothing owed nobody has attached |
| WakeUps.AttachedIsNoticed | src/stream/fanout.rs:198-202 | with every announcement made, an attached consumer is noticed by every waiter within two steps of its own |
| Timestamps.TimestampTracker.NextVideoUs | src/common/timestamps.rs:81-138 | the new state for each verdict on a camera time, and the PTS returned |
| Timestamps.TimestampTracker.NextAudioUs | src/common/timestamps.rs:149-158 | anchors audio to video once, returns the audio PTS and advances it by at least one microsecond |
| Timestamps.Unwraps | src/common/timestamps.rs:87-138 | if the capture clock steps by 1 to 5,000,000 us a frame, the PTS is exactly the time elapsed, across any number of 32-bit wraps |
| ClockLaws.UnwrapsOn | src/common/timestamps.rs:87-138 | after any frame that set a baseline, restart and stall among them, the PTS is its own plus the clock time gone by since, if the clock ticks by 1 to 5,000,000 us |
| ClockLaws.StepByClock | src/common/timestamps.rs:87-138 | what one frame does, by the signed difference of the clock times: the step in microseconds, the new baseline and whether another step back would restart |
| ClockLaws.RebootedCamera | src/common/timestamps.rs:96-110 | a concrete reboot: 0, 1, 100001, 133001, 166001 |
| Timestamps.StepsForward | src/common/timestamps.rs:81-138 | for any input each PTS after the first grows by 1 to 5,000,000 us, and strictly exactly as long as it has not saturated |
| Timestamps.PtsIsLedger | src/common/timestamps.rs:81-138 | for any run the PTS is the accepted deltas plus tie-breaks plus 100,000 for each restart and clamp, up to saturation |
| Timestamps.ReorderIsForgotten | src/common/timestamps.rs:74-76 | a stray backward frame leaves the baseline alone, so the next good one lands one microsecond late and no more |
| Timestamps.RestartIff | src/common/timestamps.rs:96-110 | after any run a restart is declared if and only if the frame is backward and the last video frame that was not a duplicate was taken for a reorder |
| Timestamps.InARowIff | src/common/timestamps.rs:43-48 | so the two backward frames of a restart are next to each other exactly if no duplicate came right before it; otherwise nothing but duplicates lies between them |
| Timestamps.DuplicateDoesNotClear | src/common/timestamps.rs:43-48 | a concrete run with a duplicate between the two |
| Timestamps.AudioLeavesVideoAlone | src/common/timestamps.rs:149-158 | audio frames never move the video timeline |
| Timestamps.AudioRunsOnDurations | src/common/timestamps.rs:140-158 | once anchored to the video PTS, audio runs on the sum of its own durations, each at least one microsecond, whatever video does |
| GopLimit.GopLimiter.constructor | src/rtsp/factory.rs:824-834 | a limiter for a positive rate starts empty with the frame interval rounded down |
| GopLimit.NewLimiter | src/rtsp/factory.rs:824-834 | no limiter at all for an unset or zero rate |
| GopLimit.GopLimiter.Admit | src/rtsp/factory.rs:843-874 | the decision on a frame and the whole new state, with the saturating 64-bit steps written out |
| GopLimit.IntervalIsRate | src/rtsp/factory.rs:829 | the interval times the rate is at most a second, and one microsecond more would exceed it |
| GopLimit.CreditBounded | src/rtsp/factory.rs:765-774 | after any frames at all the allowance is between zero and the burst cap |
| GopLimit.WindowBound | src/rtsp/factory.rs:843-874 | over any window of any run with ordered times, forwarded P-frames times the interval are at most the burst cap plus the window duration |
| GopLimit.WindowCounts | src/rtsp/factory.rs:843-874 | a window counts exactly the P-frames the whole run forwards in it |
| GopLimit.NothingBeforeKeyframe | src/rtsp/factory.rs:861-863 | nothing is forwarded before the first keyframe |
| GopLimit.WithheldToNextKeyframe | src/rtsp/factory.rs:869-872 | once a frame is withheld everything up to the next keyframe is |
| GopLimit.SentIsDecodable | src/rtsp/factory.rs:783-801 | a forwarded frame has its keyframe and everything between forwarded too, so what is forwarded of each GOP is a prefix of it |
| GopLimit.LosslessBelowRate | src/rtsp/factory.rs:843-874 | a stream that starts on a keyframe with all gaps at least the interval loses nothing |
| GopLimit.FirstGapDecides | src/rtsp/factory.rs:843-874 | the frame after the first keyframe is forwarded if and only if the gap is at least the interval |
| GopLimit.SendToSources | src/rtsp/factory.rs:684-763 | the tracker takes every frame first, the limiter only video, and what goes to which sink under which PTS follows from both |
| GopLimit.ShownIsOrdered | src/rtsp/factory.rs:715-747 | whatever the camera clock does, the limiter is shown times that never step back |
| GopLimit.RelayForwards | src/rtsp/factory.rs:715-758 | a video frame leaves the relay exactly if the limiter admits it in that run, under the tracker PTS |
| GopLimit.RelayWindowBound | src/rtsp/factory.rs:843-874 | the rate bound over any window for arbitrary camera frames and times |
| GopBuckets.WindowBoundAll | src/rtsp/factory.rs:843-874 | with keyframes counted: over any window in which every keyframe found an interval banked, all forwarded frames times the interval are at most five seconds plus the duration |
| GopBuckets.ExactLedger | src/rtsp/factory.rs:843-874 | as long as nothing spills over and no keyframe is short, the bank is what it was plus the time gone by less one interval for each forwarded frame, exactly |
| GopBuckets.BanksElapsed | src/rtsp/factory.rs:843-850 | the time since the frame before is banked, up to five seconds in all, and none if the time steps back |
| GopBuckets.SentIff | src/rtsp/factory.rs:843-874 | a frame goes out if and only if it is a keyframe, or the one before it did and an interval is banked |
| GopBuckets.KeyframesDecide | src/rtsp/factory.rs:851-860 | after keyframes at any gaps a P-frame goes out if and only if what their charges left, and its gap, reach the interval |
| GopBuckets.SecondKeyframeIsCharged | src/rtsp/factory.rs:855-859 | at one frame a second, two keyframes a second apart leave nothing for a P-frame |
| GopBuckets.NewWithholds | src/rtsp/factory.rs:824-834 | a new limiter forwards nothing before the first keyframe and has nothing banked then |
| GopBuckets.AudioRelayed | src/rtsp/factory.rs:690-715 | every audio frame is forwarded, the first at the time of the last video frame and later ones behind the durations before them |
| GopBuckets.UnlimitedRelayed | src/rtsp/factory.rs:715-758 | without a limiter every video frame is forwarded under the tracker time |
| UseCounter.CountUsers | src/common/usecounter.rs:34-45 | the counting loop returns ups minus downs, with the decrement only ever taken above zero |
| UseCounter.Permit.Activate | src/common/usecounter.rs:110-116 | sends one message exactly if it was inactive, so what a permit has sent alternates and ends in what it is |
| UseCounter.Permit.Deactivate | src/common/usecounter.rs:118-124 | the same for deactivation |
| UseCounter.Permit.Drop | src/common/usecounter.rs:155-167 | a drop leaves the permit inactive and owes one message exactly if it was active |
| UseCounts.CounterIsLastCounted | src/common/usecounter.rs:34-45 | over every interleaving of calls that run to completion the counter is the number of permits whose last processed message was an activation, and so between zero and the number of permits |
| UseCounts.LagIsUncounted | src/common/usecounter.rs:110-167 | at any time of such a run a permit is counted wrongly exactly if an odd number of its messages is still out |
| UseCounts.LedgerHolds | src/common/usecounter.rs:34-45 | over every interleaving, cancelled calls included, the count and all messages on their way to it add up to the active permits plus cancelled deactivations less cancelled activations |
| UseCounts.DrainedIsActiveIff | src/common/usecounter.rs:34-45 | once every message is drained the counter is the number of active permits if and only if as many activations as deactivations were cancelled, so always when calls run to completion |
| UseCounts.NeverUnderflows | src/common/usecounter.rs:40-43 | as long as no activation was cancelled the counter has never been below zero, and is positive whenever a deactivation is about to be counted; this is the premise of the counting loop |
| UseCounts.UnderflowIff | src/common/usecounter.rs:34-45 | without further cancellation the counter can go below zero if and only if more activations than deactivations were cancelled, or counting what is in the channel takes it there |
| UseCounts.UnderflowOnCancelledUp | src/common/usecounter.rs:110-124 | with no deactivation cancelled that is the case if and only if some activation was |
| UseCounts.MoreUpsGoBelow | src/common/usecounter.rs:110-167 | from any run, letting every permit go and counting every message brings the counter to cancelled deactivations less cancelled activations |
| UseCounts.CancelledActivateUnderflows | src/common/usecounter.rs:110-116 | the shortest run to a counter of -1 |
| UseCounts.ChannelBounded | src/common/usecounter.rs:20-45 | the channel never holds more than a hundred messages |
| UseCounts.SendWaitsIff | src/common/usecounter.rs:110-124 | a sender waits exactly if the channel holds a hundred messages; otherwise its own goes in behind them |
| ConnCache.ConnScopedCache.GetOrInit | src/onvif/state.rs:149-169 | asks exactly on a miss, returns the kept value unchanged on a hit, and otherwise stores the answer under the token taken on entry |
| ConnCache.NeverStale | src/onvif/state.rs:127-169 | over every interleaving a returned value was read over a connection no older than the one current when the call began, and for a call begun while disconnected over one made since, by that call |
| ConnCache.UnaskedIsShared | src/onvif/state.rs:123-160 | a call that returns without asking took the lock when the slot held, under the very token it took on entry and for a connection then alive, an answer another call had read under that token |
| ConnCache.KeptWhileUp | src/onvif/state.rs:161-168 | while a connection stays up and no call under another token is under way, every call that returns gets the kept answer without asking |
| ConnCache.KeptIff | src/onvif/state.rs:149-169 | a stored answer is served, without asking, to every call of its connection over every continuation in which that stays up, if and only if no call under another token is waiting |
| ConnCache.AnswerIsKeptIff | src/onvif/services/device.rs:27-28 | over every run: what a read ends in, an answer or a failure, is reused for as long as the connection that is up lasts if and only if neither that call nor any waiting one began under another token |
| ConnCache.FailureIsKept | src/onvif/services/device.rs:34-35 | so for the neutral answer of a failed read, under the same condition |
| ConnCache.StrangerEvicts | src/onvif/state.rs:154-167 | a concrete run in which a caller that began while disconnected overwrites the answer, so that the next one asks again over the same living connection |
| ConnCache.OneReader | src/onvif/state.rs:134-137 | at most one call reads at a time, and it holds the lock |
| ConnCache.WaitersShareTheRead | src/onvif/state.rs:134-137 | a caller waiting under the same living token returns the value just read without asking |
| ConnCache.LateKeyIsStale | src/onvif/state.rs:162-167 | a concrete run in which keying by the token after the read would serve a value of the old connection under the new one |
| ConnCache.LockIsReader | src/onvif/state.rs:149-169 | over every run the lock is held by the call that reads, and by nobody once that has ended or was cancelled |
| ConnCache.NobodyStuck | src/onvif/state.rs:149-169 | after any run a waiting call gets the lock, and an answer, once the reader there may be gives up |
| Soap.ParseEnvelope | src/onvif/soap.rs:56-208 | the event loop returns exactly what the scan of the whole event list gives: the first XML error with its offset, a missing operation, or the request |
| Soap.Scanner.TakeStart | src/onvif/soap.rs:83-123 | the whole state after a start tag, inside the body or outside |
| Soap.Scanner.TakeEnd | src/onvif/soap.rs:124-163 | the whole state after an end tag: the child extent closed, the token completed, or a flag cleared |
| Soap.Scanner.TakeText | src/onvif/soap.rs:164-180 | a text goes to the token field that is open, and nowhere else |
| Soap.Scanner.TakeEmpty | src/onvif/soap.rs:181-186 | an empty element is the operation exactly inside a body with none found yet |
| Soap.HasDigestType | src/onvif/soap.rs:101-111 | a password is a digest exactly if a Type attribute under any prefix names PasswordDigest |
| Soap.LocalName | src/onvif/soap.rs:210-213 | the result has no colon and is the name itself or what follows a colon to its end |
| Envelope.LocalAfterPrefix | src/onvif/soap.rs:210-213 | the local name of a prefixed name is the name behind the prefix |
| Envelope.FindsOperation | src/onvif/soap.rs:78-207 | with a harmless header and one child in Body, of any depth and with any names inside it, the request has the local name of the child, exactly its text, and the credentials gathered before it |
| Envelope.ExtentRightIff | src/onvif/soap.rs:78-207 | the extent found is that of the operation if and only if nothing in front of Body is itself locally named Body and holds an element with content |
| Envelope.FalseBodyFails | src/onvif/soap.rs:120 | a concrete envelope with a body quoted in its header, whose extent starts in the header |
| Envelope.InsideIsInvisible | src/onvif/soap.rs:85-94 | a tree inside the operation changes nothing but the position |
| Envelope.SpanInRange | src/onvif/soap.rs:192-201 | for any events at all the extent lies within the document, so the range check never takes effect |
| Envelope.TokenRead | src/onvif/soap.rs:148-159 | a username token gives credentials exactly if it has a user and a password, with the later of two like fields |
| Envelope.UserAndPassword | src/onvif/soap.rs:99-117 | a user and a password in the usual place are the credentials, a digest exactly if the type attribute says so |
| Envelope.AuthenticatedRequest | src/onvif/soap.rs:56-208 | a whole request with a token header: its operation, the extent of that, and its credentials, whatever the names inside the operation |
| Envelope.AuthIsLastToken | src/onvif/soap.rs:148-159 | over any events the credentials are those of the last token completed outside a body, or else those there were |
| Envelope.CredentialsFromFrontIff | src/onvif/soap.rs:56-208 | with siblings behind the operation and behind Body, each a token header or without a token: whatever credentials the front gave survive if and only if no header the scanner sees there has both a user and a password |
| Envelope.CredentialsBehind | src/onvif/soap.rs:145-163 | over any events behind the operation the credentials are those of the last token completed there, and those of the front if none is |
| Envelope.SiblingsLeaveCredentials | src/onvif/soap.rs:145-163 | siblings without a UsernameToken element at any depth leave the credentials alone |
| Envelope.TokenBehindCounts | src/onvif/soap.rs:96-99 | a token header behind an element operation is believed, though nothing in front of it gave credentials |
| Envelope.WrapEnvelope | src/onvif/soap.rs:261-272 | the appends build the envelope around the body |
| Envelope.WrapRoundTrip | src/onvif/soap.rs:261-272 | scanning a wrapped one-element body gives the body back, with its operation and no credentials |
| Envelope.WrappedLiterally | src/onvif/soap.rs:261-272 | the text around a body, written out |
| Envelope.DigestToken | src/onvif/soap.rs:99-117 | the four fields of a digest token: each text ends up where its name says |
| Envelope.DigestByType | src/onvif/soap.rs:101-111 | a Type ending in #PasswordDigest behind any URI marks a digest, #PasswordText and other attributes do not |
| Envelope.OnlyInHeader | src/onvif/soap.rs:95-99 | over any events that open no header, or no security element, the credentials stay what they were, whatever tokens there are |
| Envelope.LateSecurityIgnored | src/onvif/soap.rs:145-147 | a security element behind complete elements, headers among them, gives no credentials |
| Envelope.TokenLeaves | src/onvif/soap.rs:148-159 | a complete token leaves nothing gathered, an incomplete one all but user and password |
| Envelope.StaleNonce | src/onvif/soap.rs:148-159 | so the nonce of a token without a user turns up in the credentials of the next one |
| Envelope.ErrorOffset | src/onvif/soap.rs:78-82 | a document that breaks off is refused with the length of what was sound |
| Adpcm.DecodeBlock | src/audio/adpcm.rs:106-207 | the nested loops compute the samples of the predictor, or fail exactly on a block of at most four bytes |
| Adpcm.DecodeNibble | src/audio/adpcm.rs:130-202 | one turn of the loop, in 32-bit integers with every intermediate result in range, gives the next predictor state and sample |
| Adpcm.Difference | src/audio/adpcm.rs:165-174 | the shift-and-add difference, in range for every table step |
| Adpcm.ScaleSample | src/audio/adpcm.rs:190-194 | the scaling to 16 bits changes nothing |
| Adpcm.Decode | src/audio/adpcm.rs:106-115 | fails exactly on a block of at most four bytes, and otherwise gives two samples for each byte behind the header |
| Adpcm.StepTable | src/audio/adpcm.rs:38-44 | every clamped index is in the table, whose entries run from 7 to 32767 |
| Adpcm.SamplesFit | src/audio/adpcm.rs:182-188 | every sample is a 16-bit value |
| Adpcm.IndexStaysNear | src/audio/adpcm.rs:132-137 | the step index stays between -1 and 96 |
| Adpcm.DiffApproximates | src/audio/adpcm.rs:161-174 | eight times the difference falls short of (2m + 1) steps by 0 to 17 |
| Adpcm.DiffBoundIsTight | src/audio/adpcm.rs:161-174 | the bound of 17 is met |
| Adpcm.DiffIsMonotone | src/audio/adpcm.rs:161-174 | a larger magnitude never gives a smaller difference |
| Adpcm.SplitsAnywhere | src/audio/adpcm.rs:90-97 | decoding A and B in one go is decoding A, then B under a header rebuilt from the state after A |
| Adpcm.RawIndexResumesIff | src/audio/adpcm.rs:116-118 | a header rebuilt with the unclamped index resumes at the right step if and only if that index is not negative |
| AdpcmLaws.HighNibbleFirst | src/audio/adpcm.rs:77-87 | up to the first of its two samples only the high nibble of a byte counts |
| AdpcmLaws.SampleMoves | src/audio/adpcm.rs:161-188 | a sample moves by (2m + 1) eighths of the step, at most 17 eighths short, up or down by the sign bit, or to the end of the 16-bit range |
| AdpcmLaws.SignDirects | src/audio/adpcm.rs:175-180 | with the sign bit clear the output never falls, with it set it never rises |
| AdpcmLaws.IndexMoves | src/audio/adpcm.rs:198-199 | the step index moves by -1, 2, 4, 6 or 8 from the clamped one, by the magnitude |
| AdpcmLaws.StepsGrow | src/audio/adpcm.rs:38-44 | every entry is a tenth more than the one before, as near as whole numbers come |
| AdpcmLaws.StepsTotal | src/audio/adpcm.rs:38-44 | the entries add up to those of the IMA table |
| AdpcmLaws.KnownBlock | src/audio/adpcm.rs:106-207 | a block with known samples |

## Left out

- GStreamer pipelines, RTSP mounts, negotiation and everything else in `src/rtsp/factory.rs` beyond the limiter and the
  order of calls that feeds it; errors of the sinks.
- Transport: pipes, sockets, HTTP, UDP and MQTT. A sink is a byte sequence.
- Camera connection, login and reconnect: only fresh connection numbers and their end are modelled. What a camera task
  does when it retries is not.
- Tokio itself: fairness, scheduling and timeouts.
- XML tokenising, base64, RFC 3339, SHA-1 and the verification of a token: the scanner takes events as given and calls
  the codecs as parameters.
- A-law encoding is a parameter of the packer; the per-sample table is not modelled.
- Learning the stream kinds and the audio probe (`src/stream/pump.rs`, `learn`): the packer starts from what was learned.
- Audio durations are read by a crate that is not part of this model; they come with the frame.
- The capability cache, the event queues, configuration and the command line: easy members or glue.
- 64-bit overflow of the overrun count and 32-bit overflow of the body depth and of the use count itself.
- OKI ADPCM, which the source keeps but does not use.
- TsDemuxer.Demux: the order of the frames flushed at the end is that of a hash map, so the result is stated PID by PID.
- EndToEnd.EveryConsumerReads: covers sessions in MPEG-TS; a bare elementary stream has no reader in the model.
- Packer.SilentBacklogBounded: is about readers that attached in the session going on, because across a seam the limit
  alone is no bound (Packer.SeamOutgrowsLimit); Packer.SilentSessionsBounded is what holds there.
- UseCounts.CounterIsLastCounted: is about calls that run to completion, because with a cancelled call it is false;
  UseCounts.LedgerHolds is what holds then.
- ConnCache.AnswerIsKeptIff: is about a read that ends while a connection is up; one that ends while the camera is
  disconnected has no connection to be kept for.
- Envelope.FindsOperation: covers a Body with exactly one child and nothing but blanks behind it, which is what the
  protocol sends; Envelope.CredentialsBehind is about the credentials with anything behind it.
- Envelope.CredentialsFromFrontIff: covers siblings that are token headers of the usual form or hold no token at all; for
  tokens in odd places there is Envelope.CredentialsBehind.
- ConnCache.NeverStale: says nothing of a neutral answer, which was read over no connection.
