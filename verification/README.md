# Models of the camera server's streaming, upload and control code

This directory holds Dafny models of six parts of the repository and proofs about them. It
verifies as a whole with `dafny verify dfyconfig.toml`.

| file | models |
|---|---|
| `index_ring.dfy`, `buffer_channel.dfy` | the ring of received buffers and the hand-built binary semaphore, one shared access per step |
| `record_walk.dfy`, `segments.dfy` | the two walks over the records of a file segment, on sizes and on bytes |
| `lap_order.dfy` | what a whole run of segments sends, against the order of the file |
| `streaming_pipeline.dfy` | callback, playing thread and peer together: requests, flow control, buffers, what is sent |
| `streaming_progress.dfy` | why the pipeline comes to rest between deliveries |
| `deliveries.dfy` | from the schedule to the buffers: what is pushed, and on which channel it is freed |
| `file_streaming.dfy`, `record_files.dfy` | the same on the bytes of a file of records; files and segments as they are written |
| `software_lock.dfy` | the lock between board and host |
| `byte_stream.dfy`, `file_source.dfy` | the NAL unit splitter and the sliding window that refines it |
| `frame_pacing.dfy` | the wait between frames, the same in both file sources |
| `multipart.dfy`, `upload_results.dfy` | stripping a multipart upload; where it is saved and why it is refused |
| `number_text.dfy`, `regions.dfy`, `region_texts.dfy` | regions of interest: text, grid, deletion, the mirrored parameter; what a text means |
| `encoder_control.dfy`, `sdk_manager.dfy` | the encoder state machine, as a specification and as the class that runs it |
| `encoder_rates.dfy` | frame rates, codecs and switches in the firmware |
| `encoder_start.dfy` | how the server gets into service, and what follows for the codec rule |
| `boot_loop.dfy` | the boot-loop detector |
| `common.dfy`, `wrappers.dfy` | bytes and words, strchr, remainders; Option and Result |

Code that changes state in place is a class or a method with loops, proved against the
functions that specify it; protocols between threads or processors are step systems, and
what is proved about them holds for every schedule. An exception of the source is a result
or an out-parameter `thrown`.

## What the proofs say about the code

Some promises do not hold as they are stated; each has its exact condition below.

* **The last record of a lap is lost.** `next_frame` subtracts the 16-byte segment header from
  a length that already excludes it, `get_next_fileOffset` does not. A record that ends within
  the last 16 bytes of a segment is stepped over by the requests and never sent
  (`RecordWalk.TwoBudgets`, `LapOrder.SentInFileOrder`); if the file ends with its last
  record, that record is never sent at all (`LapOrder.LastRecordIsNeverSent`).
* **A late frame waits for the next second.** The comment of `wait` promises frames exactly one
  period apart; that holds for a run in which no frame is late (`FramePacing.OnTimeIff`,
  `FramePacing.RunOnTimeIff`).
* **The closing delimiter of an upload is only counted**, never looked at
  (`Multipart.TrailerIff`).
* **A region can be accepted and stored, and then refused when the state file is read.** Snapping
  the lower edge may give 1088, above HEIGHT (`Regions.FullPicture`, `Regions.Restored`).
* **A set of regions that throws** empties the list and leaves the string
  (`Regions.MirrorsAfter`).
* **The codec of an enabled stream can be changed** when the stream was enabled before it was
  ever configured, against the rule of `src/common_include/dvr_common.h:3346-3349`
  (`EncoderControl.BreaksRuleIff`, `EncoderStart.StartWithoutStream`); it never is if and only if every
  stream that is on or whose settings ask for it has a codec before `enable_encoders`
  (`EncoderStart.SafeForeverIff`).

## Hypotheses

* Memory is sequentially consistent; there is one producer and one consumer; the peer answers
  every request exactly once, with at least 16 bytes of the file from the offset asked for, and
  sets the end flag only on a segment that reaches the end of the file.
* Received buffers have passed the checks of the receive callback and carry the bytes of the
  file; record headers in a segment claim at least a header and do not wrap at 32 bits. On bytes,
  the whole file is such records, then fewer bytes than a record header.
* For `FileSource`: units are not empty, each fits the buffer with the next start code, the file
  does not end in a zero byte, and the three bytes behind the buffer do not complete a start
  code begun inside it. `ByteStream.OverreadHarmlessIff` says when bytes behind a window matter.
* For an upload: header lines are clean (no CR, LF or NUL) and none is empty, as an empty line
  ends the headers.
* For regions: `strtof` is any function from text to a number and a length; a long has at least
  32 bits.
* Every SDK call succeeds or throws without effect.

## Model

| member | source | states |
|---|---|---|
| `StreamingPipeline.EndToEnd` | src/host/src/bin/rtsp_server/a2a_file_source.cpp:119-250 | For every interleaving of callback, playing thread and peer, and every choice of segments at the offsets asked for: the records sent are a subsequence of the records of the file in file order, repeated lap after lap, so none is reordered or sent twice in a lap. If fewer than 16 bytes follow the records, the last one is never sent; if no other record ends in the last 16 bytes of a segment without the end flag, nothing else is skipped; if none ends in the last 16 bytes of any segment, nothing is. |
| `StreamingPipeline.SentPositions` | src/host/src/bin/rtsp_server/a2a_file_source.cpp:119-250 | For every interleaving: the records sent stand at strictly increasing positions of the file's records repeated lap after lap. |
| `FileStreaming.FramesSent` | src/host/src/bin/rtsp_server/a2a_file_source.cpp:119-250 | The same on bytes, for every file of sound records: the frames sent are the payloads of the file, untorn, in file order, lap after lap; all of them, or all but the last of each completed lap, under the conditions above. |
| `RecordFiles.WrittenIsSent` | src/host/src/bin/rtsp_server/a2a_file_source.cpp:119-250 | From what was written to what is sent: for every list of records, every interleaving and every choice of segments, the frames sent are the payloads that were written, in order and lap after lap, without those that segments cut off. |
| `RecordFiles.FileReadsBack` | src/host/src/bin/rtsp_server/a2a_file_source.cpp:162-179 | Round trip of a file: written record by record (signature, sizes, payload, fill up to a multiple of 4), it is read as exactly those payloads, in order. |
| `RecordFiles.RecordReadsBack` | src/host/src/bin/rtsp_server/a2a_file_source.cpp:194-213 | Round trip of one record, byte by byte: its size and its payload. |
| `RecordFiles.SizeIsCeiling` | src/host/src/bin/rtsp_server/a2a_file_source.cpp:173-174 | The size a record is stepped over by is the least multiple of 4 that holds the header size and the payload size written in it. |
| `RecordFiles.WordReadsBack` | src/host/src/bin/rtsp_server/a2a_file_source.cpp:171-173 | A 32-bit word written least significant byte first is read back. |
| `RecordFiles.BufferReadsBack` | src/host/src/bin/rtsp_server/rtsp_arm_common.h:115-120 | Round trip of a segment: the header words the peer sends are what the receiver reads (offset, length, end flag, magic number), and the buffer carries the bytes of the file. |
| `FileStreaming.PlayBuffers` | src/host/src/bin/rtsp_server/a2a_file_source.cpp:142-250 | Playing the received buffers of a run one after the other gives exactly the payloads of the records its segments call for; every buffer starts at the offset asked for, so the mismatch message is never printed. |
| `FileStreaming.SoundAtAwaited` | src/host/src/bin/rtsp_server/a2a_file_source.cpp:142-180 | In a file of sound records such records begin at every offset a run asks for, so that what the readers of a buffer demand holds for each of its buffers. |
| `FileStreaming.OffsetsInFile` | src/host/src/bin/rtsp_server/a2a_file_source.cpp:233-238 | On the bytes of any file: offsets match, and those asked for are multiples of 4. |
| `LapOrder.SentInFileOrder` | src/host/src/bin/rtsp_server/a2a_file_source.cpp:142-250 | Whatever segments the peer chooses, what is sent is a subsequence of the completed laps and the lap under way, where a completed lap lacks its last record exactly if fewer than 16 bytes follow the records of the file; it is all of that if and only if no record ends in the last 16 bytes of a segment without the end flag. |
| `LapOrder.SentOfCovered` | src/host/src/bin/rtsp_server/a2a_file_source.cpp:162-248 | Exactly one covered record is skipped for every segment with a record that ends in its last 16 bytes. |
| `LapOrder.LastRecordIsNeverSent` | src/host/src/bin/rtsp_server/a2a_file_source.cpp:237-248 | When fewer than 16 bytes follow the records of the file, its last record is not sent in any lap of any run. |
| `LapOrder.LapsAreCompleted` | src/host/src/bin/rtsp_server/a2a_file_source.cpp:155-179 | Laps are completed: if every segment without the end flag holds a whole record, n completed laps and the one under way take at most n + (n + 1) * r segments, where r is the number of records of the file. |
| `StreamingPipeline.OffsetsMatch` | src/host/src/bin/rtsp_server/a2a_file_source.cpp:233-238 | The offset of every received buffer is the one asked for, so the mismatch branch is unreachable; every offset asked for is a multiple of 4. |
| `StreamingPipeline.OneCredit` | src/host/src/bin/rtsp_server/a2a_file_source.cpp:239-245 | Unanswered requests, the buffer in the callback's hands and the queued buffers are one in all, and none exactly before the first request and between a take and the next order; hence `num_in()` is 0 whenever it is tested and `push_buffer` never overflows. |
| `StreamingPipeline.BuffersConserved` | src/host/src/bin/rtsp_server/a2a_file_source.cpp:192-250 | In every reachable state each delivered buffer is in exactly one place (freed, held by the playing thread, in the ring, in the callback's hands), none is freed twice, and the frame about to be sent lies inside a buffer that is not freed. |
| `Deliveries.FreedWhereDelivered` | src/host/src/bin/rtsp_server/a2a_file_source.cpp:216-230 | For every interleaving: the segments delivered are those of the schedule, in order, and every buffer is freed on the channel it was delivered on. |
| `StreamingPipeline.NeverStuck` | src/host/src/bin/rtsp_server/a2a_file_source.cpp:222-248 | When neither thread can go on, every delivered buffer was played to its end and freed, everything its segments call for was sent, and the playing thread sleeps with an empty ring while exactly one answer is still to come: no deadlock, and nothing is held back. |
| `StreamingProgress.RunsAreBounded` | src/host/src/bin/rtsp_server/a2a_file_source.cpp:54-250 | No livelock: from every state that satisfies the invariant, so from every reachable one, no run of the whole system is longer than a rank of the state plus what its deliveries and spurious wake-ups cost. |
| `StreamingProgress.RunFromStart` | src/host/src/bin/rtsp_server/a2a_file_source.cpp:119-250 | Over whole runs from the start, however scheduled: the number of steps is bounded by the buffers delivered, the records they are played for and the spurious wake-ups. |
| `StreamingProgress.ThreadsComeToRest` | src/host/src/bin/rtsp_server/a2a_file_source.cpp:192-250 | Between deliveries the two threads come to rest within a bound given by the state, in whatever order they run, and then everything delivered was sent and freed. |
| `StreamingProgress.RestsIff` | src/host/src/bin/rtsp_server/a2a_file_source.cpp:222-228 | The rank is 0 exactly when neither thread can go on. |
| `StreamingProgress.CatchesUp` | src/host/src/bin/rtsp_server/a2a_file_source.cpp:192-250 | From every state that satisfies the invariant some run of the two threads alone leads to rest. |
| `StreamingPipeline.StepKeepsInv` | src/host/src/bin/rtsp_server/a2a_file_source.cpp:119-288 | Every step of the whole system (delivery, ring and semaphore accesses, spurious wake-ups, playing steps) keeps the joint invariant on order, credit, requests and content. |
| `StreamingPipeline.SentIsPrefix` | src/host/src/bin/rtsp_server/a2a_file_source.cpp:192-215 | The invariant on content implies that what was sent is a prefix of what the delivered segments call for. |
| `StreamingPipeline.PlaceOf` | src/host/src/bin/rtsp_server/a2a_file_source.cpp:216-231 | The places of the buffers are consecutive ranges of their delivery order. |
| `RecordWalk.TwoBudgets` | src/host/src/bin/rtsp_server/a2a_file_source.cpp:142-250 | The exact relation of the two walkers: walking 16 bytes short finds the same records if the long walk stops at least 16 bytes before the end, and otherwise all of them but the last. |
| `RecordWalk.NothingSkippedIff` | src/host/src/bin/rtsp_server/a2a_file_source.cpp:162-248 | Over a whole run of segments: nothing is skipped if and only if no record ends within the last 16 bytes of a segment. |
| `RecordWalk.LapLosesLastRecord` | src/host/src/bin/rtsp_server/a2a_file_source.cpp:237-248 | A segment with the end flag is sent without its last record when fewer than 16 bytes follow the records of the file. |
| `RecordWalk.CoverageIsCyclic` | src/host/src/bin/rtsp_server/a2a_file_source.cpp:155-179 | The segments cover the records of the file in file order, lap after lap, and the next request starts exactly where the coverage ends. |
| `RecordWalk.WalkResumes` | src/host/src/bin/rtsp_server/a2a_file_source.cpp:164-179 | A walk interrupted at any byte and resumed where it stopped meets the same records. |
| `RecordWalk.SegmentSkips` | src/host/src/bin/rtsp_server/a2a_file_source.cpp:237-248 | Of one segment everything it covers is sent, but for the last record exactly if that ends in the last 16 bytes. |
| `RecordWalk.AwaitedIsAligned` | src/host/src/bin/rtsp_server/a2a_file_source.cpp:155-179 | Requests ask for offsets that are multiples of 4. |
| `RecordWalk.StopBounds` | src/host/src/bin/rtsp_server/a2a_file_source.cpp:164-179 | The request after a segment lies inside it, and at its start only if no record fits. |
| `Segments.GetNextFileOffset` | src/host/src/bin/rtsp_server/a2a_file_source.cpp:142-180 | The loop over record headers returns the offset of the first record not wholly inside the segment, or 0 for a bad magic number or the end flag; it terminates. |
| `Segments.SkipRecords` | src/host/src/bin/rtsp_server/a2a_file_source.cpp:163-179 | The loop of get_next_fileOffset on the bytes of the buffer refines the walk over record sizes. |
| `Segments.PaddedIsCeiling` | src/host/src/bin/rtsp_server/a2a_file_source.cpp:173-174 | Without 32-bit wrap-around the padded size is the least multiple of 4 that holds header and payload. |
| `Segments.FindFrame` | src/host/src/bin/rtsp_server/a2a_file_source.cpp:194-215 | next_frame's inner loop finds a frame exactly if a whole record lies within its budget; the frame is the record's payload in the file. |
| `Segments.FrameInBuffer` | src/host/src/bin/rtsp_server/a2a_file_source.cpp:198-213 | A whole record of a received buffer holds the payload bytes of the file, untorn. |
| `Segments.FrameReader.LoadSegment` | src/host/src/bin/rtsp_server/a2a_file_source.cpp:229-247 | What next_frame does with a new buffer: it starts behind the header and subtracts the header's 16 bytes from a length that excludes them, modulo 2^32. |
| `Segments.FrameReader.TakeFrame` | src/host/src/bin/rtsp_server/a2a_file_source.cpp:194-215 | One frame is taken: `_frame` and `_frame_size` are the payload of the next record and the unread part moves on by its padded size. |
| `Segments.FrameReader.PlaySegment` | src/host/src/bin/rtsp_server/a2a_file_source.cpp:192-249 | The frames played from a segment of at least 16 bytes are exactly the payloads of the records within 16 bytes less than its length, in order. |
| `Segments.FrameReader.PlayMemory` | src/host/src/bin/rtsp_server/a2a_file_source.cpp:192-249 | The same for every length of the segment, with the memory behind the buffer as a parameter: below 16 bytes the budget wraps around, and the frames are those of whatever records lie behind the header in memory. |
| `Segments.BudgetInsideIff` | src/host/src/bin/rtsp_server/a2a_file_source.cpp:237-247 | The byte budget of a new buffer ends inside the buffer if and only if the segment has at least 16 bytes; below that it wraps around. |
| `BufferChannel.RingSafety` | src/host/src/bin/rtsp_server/a2a_file_source.cpp:222-231 | For every schedule of single accesses: what is taken is a prefix of what was accepted, at most 7 buffers are queued, the two threads never use one slot at once, and an advance after a successful get never fails. |
| `Deliveries.PushedIsAccounted` | src/host/src/bin/rtsp_server/a2a_file_source.cpp:274-287 | For every schedule: the deliveries pushed, channel and buffer, are in order those accepted, those dropped and the one in hand; with nothing dropped, what is taken is a prefix of exactly what was pushed. |
| `BufferChannel.DropsOnlyWhenFull` | src/host/src/bin/rtsp_server/a2a_file_source.cpp:274-283 | A pushed buffer is refused exactly when seven are queued. |
| `BufferChannel.NoLostWakeup` | src/host/src/bin/rtsp_server/a2a_file_source.cpp:66-86 | When the consumer sleeps in the condition wait and no post is under way, no signal is stored and no buffer is queued; spurious wake-ups, stale signals and signalling after unlocking included. |
| `BufferChannel.QueuedBufferIsTaken` | src/host/src/bin/rtsp_server/a2a_file_source.cpp:222-231 | However the threads are interleaved, they come to rest only after the oldest queued buffer was taken. |
| `BufferChannel.TakeTerminates` | src/host/src/bin/rtsp_server/a2a_file_source.cpp:222-231 | Until a take completes no run of the two threads is longer than a bound given by the state. |
| `BufferChannel.StepKeepsInv` | src/host/src/bin/rtsp_server/a2a_file_source.cpp:54-86 | Every access of either thread keeps the invariants of ring, mutex, flags and program positions. |
| `IndexRing.IndexTests` | src/host/src/bin/rtsp_server/a2a_file_source.cpp:22-51 | Both emptiness tests, the full test and `num_in` say exactly what the contents of the ring are. |
| `IndexRing.Masked` | src/host/src/bin/rtsp_server/a2a_file_source.cpp:27-51 | The index arithmetic is the masked arithmetic of the program. |
| `IndexRing.EndsDiffer` | src/host/src/bin/rtsp_server/a2a_file_source.cpp:33-47 | While both ends are in use they use different slots, and a store at one end leaves the other as it is. |
| `IndexRing.AdvanceReadKeepsValid` | src/host/src/bin/rtsp_server/a2a_file_source.cpp:27-32 | The slot at the read index holds the oldest queued buffer, and stepping over it keeps the ring in order. |
| `IndexRing.AdvanceWriteKeepsValid` | src/host/src/bin/rtsp_server/a2a_file_source.cpp:40-47 | Publishing the slot at the write index appends its buffer and keeps the ring in order. |
| `IndexRing.IndexFifo.GetRead` | src/host/src/bin/rtsp_server/a2a_file_source.cpp:22-26 | -1 exactly when nothing is queued, otherwise the slot of the oldest buffer. |
| `IndexRing.IndexFifo.AdvanceReadIndex` | src/host/src/bin/rtsp_server/a2a_file_source.cpp:27-32 | Fails exactly on an empty ring; otherwise takes exactly the oldest buffer. |
| `IndexRing.IndexFifo.GetWrite` | src/host/src/bin/rtsp_server/a2a_file_source.cpp:33-39 | -1 exactly when seven buffers are queued, otherwise a slot no queued buffer uses. |
| `IndexRing.IndexFifo.AdvanceWriteIndex` | src/host/src/bin/rtsp_server/a2a_file_source.cpp:40-47 | Fails exactly on a full ring; otherwise appends exactly the buffer stored in the slot. |
| `IndexRing.IndexFifo.CountIn` | src/host/src/bin/rtsp_server/a2a_file_source.cpp:48-51 | The masked index difference is the number of queued buffers, at most 7. |
| `SoftwareLock.MutualExclusion` | src/common_include/sct/sx-queue.h:160-175 | Board and host are never in the section together, for every interleaving of flag write, turn write, flag read and turn read. |
| `SoftwareLock.Progress` | src/common_include/sct/sx-queue.h:165-169 | From every reachable state in which somebody waits and nobody is inside, at most four accesses lead to an entry; if both spin, at most two accesses of one side do. |
| `SoftwareLock.BoundedBypass` | src/common_include/sct/sx-queue.h:165-169 | While a side spins the other enters at most once, and not at all if it wrote turn last. |
| `SoftwareLock.BoundedWaiting` | src/common_include/sct/sx-queue.h:165-169 | After five accesses of the rival and two of its own a spinning side has been let in. |
| `SoftwareLock.StepKeepsInv` | src/common_include/sct/sx-queue.h:160-175 | Every single access keeps the invariant that orders the two sides. |
| `SoftwareLock.EnterAlone` | src/common_include/sct/sx-queue.h:168-169 | A spinning side with the right of way enters by its own accesses alone. |
| `FileSourceModel.FileSource.PlayFile` | src/host/src/lib/rtsp/file_source.cpp:105-145 | Refinement of the simple splitter: whatever the buffer size and wherever refills cut the data, the frames sent are the NAL units of the whole file, in order, starting over after each rewind. |
| `FileSourceModel.FileSource.NextFrame` | src/host/src/lib/rtsp/file_source.cpp:116-145 | One call moves from any unit to the next one, or from the last to the first, through every branch (scan, end of file, rewind, refill). |
| `FileSourceModel.FileSource.Refill` | src/host/src/lib/rtsp/file_source.cpp:133-144 | memmove and refill leave a window that starts with the current unit and holds it whole. |
| `FileSourceModel.FileSource.Rewind` | src/host/src/lib/rtsp/file_source.cpp:124-132 | The end-of-file branch starts over with the first unit. |
| `FileSourceModel.FileSource.FirstFill` | src/host/src/lib/rtsp/file_source.cpp:53-82 | The constructor accepts a file if and only if it begins with a start code and an SPS that is closed inside the first window by a start code and followed by a PPS; where the window ends with that start code, the byte behind the buffer stands for the PPS. |
| `FileSourceModel.UnitTypes` | src/host/src/lib/rtsp/rtsp_source.cpp:24-25 | Whatever its priority bits, a unit is an SPS exactly if its type is 7 and a PPS exactly if it is 8 (section 7.3.1 of ITU-T H.264). |
| `FileSourceModel.FileSource.FrameSize` | src/host/src/lib/rtsp/file_source.cpp:84-90 | The scan loop returns the first position of a start code, or 0. |
| `FileSourceModel.ScanOfWindow` | src/host/src/lib/rtsp/file_source.cpp:84-90 | The scan of a window of the file finds the end of the unit exactly when the start code behind it lies inside the window. |
| `FileSourceModel.CycleAt` | src/host/src/lib/rtsp/file_source.cpp:105-132 | The i-th frame sent is unit number i modulo the number of units. |
| `ByteStream.SplitterIsExact` | src/host/src/lib/rtsp/file_source.cpp:84-90 | Splitting at 4-byte start codes loses nothing: the file is its units, each after a start code (section B.1 of Annex B of ITU-T H.264). |
| `ByteStream.JoinedSplits` | src/host/src/lib/rtsp/file_source.cpp:84-90 | And it finds what was put together: units without a start code inside, each after one, are split into exactly these units, whatever bytes they end in. |
| `ByteStream.UnitEndUnique` | src/host/src/lib/rtsp/file_source.cpp:84-90 | A position before which no start code begins, and where one begins or the file ends, is the end of the unit. |
| `ByteStream.ScanFinds` | src/host/src/lib/rtsp/file_source.cpp:84-90 | What the scan returns is the first start code below the size, or 0 when there is none or it stands at 0. |
| `ByteStream.OverreadHarmlessIff` | src/host/src/lib/rtsp/file_source.cpp:84-90 | The three bytes that the scan reads behind the window can fake a start code exactly if the window ends in a zero byte. |
| `FramePacing.Pacer.Wait` | src/host/src/lib/rtsp/file_source.cpp:148-162 | One wait moves the phase on by one period modulo a second and the timestamp by its step modulo 2^32; the sleep is less than a second and ends on the new phase. |
| `FramePacing.Pacer.Run` | src/host/src/bin/rtsp_server/a2a_file_source.cpp:253-267 | After any number of waits phase and timestamp are where as many single steps lead, and every wait ends on its phase less than a second after it looked at the clock, whatever the processing times were. |
| `FramePacing.AfterIs` | src/host/src/bin/rtsp_server/a2a_file_source.cpp:253-267 | No cumulative error: any number of steps, wrapping around each time, lead where all of them at once would. |
| `FramePacing.OnTimeIff` | src/host/src/bin/rtsp_server/a2a_file_source.cpp:261-266 | A wait ends when its frame is due exactly if the frame is not late and at most a second early; a late frame waits for the next second. |
| `FramePacing.RunOnTimeIff` | src/host/src/bin/rtsp_server/a2a_file_source.cpp:261-266 | Over a whole run: all frames go out exactly one period apart from the start on if and only if every frame is waited for at its due time or less than a second before it. |
| `BootLoop.WatchdogLoop` | src/host/src/bin/cgi_server/cgi_server.cpp:610-630 | True exactly when the log, without a final start that follows a watchdog reboot, ends in at least three start/reboot pairs each less than 15 seconds apart. |
| `BootLoop.LoopingIff` | src/host/src/bin/cgi_server/cgi_server.cpp:619-629 | In terms of the log: its last six lines, before a final start that follows a reboot, are three times a start and a watchdog reboot less than 15 seconds later. |
| `BootLoop.TrailingPairsIsLargest` | src/host/src/bin/cgi_server/cgi_server.cpp:621-629 | The counter of the loop is the largest number of such pairs the log ends in. |
| `BootLoop.NextLine` | src/host/src/bin/cgi_server/cgi_server.cpp:619-626 | What one more line of the log does to that number. |
| `Multipart.RoundTrip` | src/host/src/bin/cgi_server/gateway.cpp:80-118 | For every content, boundary, header lines and chunk size: saving an encoded part leaves exactly the content on file if the head of the part fits the first chunk, wherever the chunks cut content and closing delimiter; otherwise it throws (section 5.1.1 of RFC 2046). |
| `Multipart.HeadersAreRead` | src/host/src/bin/cgi_server/gateway.cpp:43-50 | The header loop reads exactly the encoded header lines and finds the content if the empty line is inside the chunk. |
| `Multipart.LineEndOfClean` | src/host/src/bin/cgi_server/gateway.cpp:43-50 | readline delivers a clean line exactly if its CR LF is inside the chunk. |
| `Multipart.TrailerIff` | src/host/src/bin/cgi_server/gateway.cpp:105-115 | The trailer is only counted: an upload with any other trailer is saved right if and only if the trailer is as long as a closing delimiter, or is empty behind a content shorter than one. |
| `Multipart.BoundaryOfContentType` | src/host/src/bin/cgi_server/gateway.cpp:53-68 | The delimiter is found in the content type of a multipart request, whatever the boundary. |
| `Multipart.Gateway.SaveMultipartFile` | src/host/src/bin/cgi_server/gateway.cpp:80-118 | The chunked program, with its cursors and the NULs it writes into the buffer, leaves and reports exactly what the specification says, for every request, malformed ones included. |
| `UploadResults.SavedAs` | src/host/src/bin/cgi_server/gateway.cpp:76-118 | An upload under a given name, with the texts written out: the content goes, whole and alone, to directory, slash and name, cut at 127 characters, whatever the headers say, if the head of the part fits the first chunk; otherwise it is refused. |
| `UploadResults.SavedByName` | src/host/src/bin/cgi_server/gateway.cpp:66-118 | The same for an upload that names its file: the name stands in the Content-Disposition line, from filename=" to the next quote, between any other header lines. |
| `UploadResults.RefusedName` | src/host/src/bin/cgi_server/gateway.cpp:68-74 | An upload is refused if no line names its file, if the Content-Disposition line gives no name, or if the closing quote is missing, each with its own error. |
| `UploadResults.RefusedDelimiter` | src/host/src/bin/cgi_server/gateway.cpp:93-95 | An upload whose first line is not the delimiter is refused, whatever follows. |
| `UploadResults.RefusedType` | src/host/src/bin/cgi_server/gateway.cpp:47-64 | Requests without content type, or without a boundary in it, are refused; one that is not multipart needs an empty first line. |
| `UploadResults.LineEndIsFirst` | src/host/src/bin/cgi_server/gateway.cpp:38-44 | A line ends at the first CR, or before the first LF, with one more character of the chunk behind it, for every content of the chunk. |
| `UploadResults.FindIff` | src/host/src/bin/cgi_server/gateway.cpp:67-68 | strstr finds the first place of the pattern, or none. |
| `Multipart.Gateway.ReadLine` | src/host/src/bin/cgi_server/gateway.cpp:43-50 | Delivers the next line of the chunk as a C string, in place, or throws when the chunk ends first. |
| `Multipart.Gateway.GetFilePath` | src/host/src/bin/cgi_server/gateway.cpp:71-78 | Ends the file name at its quote inside the buffer, without disturbing the lines still to come. |
| `Multipart.Gateway.ReadHeaderLines` | src/host/src/bin/cgi_server/gateway.cpp:96-101 | The header loop leads to the path of the header lines, or to the first error they cause. |
| `Multipart.Gateway.SaveContent` | src/host/src/bin/cgi_server/gateway.cpp:105-115 | All of the stream is written and exactly the trailer's length taken off. |
| `Multipart.Gateway.GetBoundary` | src/host/src/bin/cgi_server/gateway.cpp:53-68 | The scan of the content type finds the delimiter line or the error the specification names. |
| `Regions.RoundTrip` | src/host/src/bin/cgi_server/roi.cpp:28-101 | Print and parse: every non-empty list of rectangles on the grid is read back unchanged if every lower edge is at most HEIGHT, and refused otherwise. |
| `Regions.FullPicture` | src/host/src/bin/cgi_server/roi.cpp:48-60 | The whole picture is accepted and snapped to 1920 by 1088, which cannot be read back. |
| `Regions.EmptyIsRefused` | src/host/src/bin/cgi_server/roi.cpp:28-45 | The text of the empty list is refused. |
| `Regions.Restored` | src/host/src/bin/cgi_server/cgi_param_set.cpp:87-89 | After any run of commands without a throwing set, setting the region from the state file restores the list if and only if every lower edge is inside the picture; otherwise it throws. |
| `Regions.SnapIff` | src/host/src/bin/cgi_server/roi.cpp:52-58 | What snapping is, for all four corners in either order: position the last grid line at or before both, size the distance rounded up to the grid; this determines the rectangle. |
| `Regions.SideBounds` | src/host/src/bin/cgi_server/roi.cpp:52-58 | A snapped side starts and ends less than a cell off the two corners, inside the range rounded up, and is empty only for equal corners. |
| `Regions.SideReachesIff` | src/host/src/bin/cgi_server/roi.cpp:52-58 | Exactly when the snapped side reaches the larger corner. |
| `RegionTexts.ParsedList` | src/host/src/bin/cgi_server/roi.cpp:28-60 | What a text means: a list of coordinates in range, numbers in any notation or fractions of the picture, with or without a comma at its end, is read as the snapped rectangles of its corners, in order, if their number is a multiple of four, and refused otherwise. |
| `RegionTexts.FirstError` | src/host/src/bin/cgi_server/roi.cpp:28-45 | The error of the first bad coordinate is the error of the text. |
| `RegionTexts.TokenReads` | src/host/src/bin/cgi_server/roi.cpp:29-44 | One coordinate: a number is taken as it is, a fraction as that part of the range rounded down; out of range it is an error. |
| `RegionTexts.FractionStands` | src/host/src/bin/cgi_server/roi.cpp:34-37 | A fraction outside 0 to 1 is an error, and so is text behind it that is no comma. |
| `RegionTexts.NoCoordinate` | src/host/src/bin/cgi_server/roi.cpp:30-43 | A coordinate that is empty, begins with a blank or is no number is an error. |
| `Regions.NumberStands` | src/host/src/bin/cgi_server/roi.cpp:38-43 | A number, decimal, octal or hexadecimal, with sign and white space: what a 32-bit int keeps of it has to be in range, so a negative one is refused, and a comma or nothing has to follow. |
| `Regions.ParsedIsOnGrid` | src/host/src/bin/cgi_server/roi.cpp:48-60 | Whatever text is accepted, its rectangles are on the grid inside 1920 by 1088. |
| `Regions.SnapIsIdempotent` | src/host/src/bin/cgi_server/roi.cpp:52-58 | Snapping a rectangle of the grid leaves it as it is. |
| `Regions.IntersectsIff` | src/host/src/bin/cgi_server/roi.cpp:23-26 | The test is true exactly if the closed rectangles have a common point, and is symmetric. |
| `Regions.KeepExactly` | src/host/src/bin/cgi_server/roi.cpp:73-83 | After del exactly the rectangles that meet none of the given ones are left, as often as before. |
| `Regions.KeepTwice` | src/host/src/bin/cgi_server/roi.cpp:73-83 | Deleting one list and then another deletes both. |
| `Regions.DelTakesBackAdd` | src/host/src/bin/cgi_server/roi.cpp:68-83 | Deleting what was just added leaves of the old list what meets none of it. |
| `Regions.MirrorsAfter` | src/host/src/bin/cgi_server/roi.cpp:62-88 | Exactly when the string is the printed list after a command: always if it did not throw; after a throwing set only if the string was empty. |
| `Regions.RunKeepsMirror` | src/host/src/bin/cgi_server/roi.cpp:62-101 | Over every run of commands all rectangles stay on the grid inside 1920 by 1088, and without a throwing set the string is the printed list all along. |
| `Regions.Roi.ReadPoints` | src/host/src/bin/cgi_server/roi.cpp:28-46 | The parsing loop computes the points of the text or the error it throws. |
| `Regions.Roi.ReadRects` | src/host/src/bin/cgi_server/roi.cpp:48-60 | Appends exactly the parsed rectangles, or throws and appends none. |
| `Regions.Roi.WriteRects` | src/host/src/bin/cgi_server/roi.cpp:90-101 | The printing loop leaves the printed list in the parameter. |
| `Regions.Roi.Set` | src/host/src/bin/cgi_server/roi.cpp:62-66 | The new list and string, or an emptied list beside the old string when it throws. |
| `Regions.Roi.Add` | src/host/src/bin/cgi_server/roi.cpp:68-71 | The list extended by the parsed rectangles and its text, or no change when it throws. |
| `Regions.Roi.Del` | src/host/src/bin/cgi_server/roi.cpp:73-83 | The list without what meets a given rectangle and its text, or no change when it throws. |
| `Regions.Roi.EraseMeeting` | src/host/src/bin/cgi_server/roi.cpp:77-80 | The in-place erase loop keeps exactly, in order, the rectangles that do not meet the given one. |
| `Regions.Roi.Clear` | src/host/src/bin/cgi_server/roi.cpp:85-88 | Empties the list and the string. |
| `NumberText.ReadsBack` | src/host/src/bin/cgi_server/roi.cpp:39-43 | strtol in base 0 reads a written number back, with its sign, in every notation and behind any white space, clamped to a long, and stops right behind it. |
| `NumberText.NoNumber` | src/host/src/bin/cgi_server/roi.cpp:39-43 | Where no digit follows white space and a sign, strtol takes nothing. |
| `EncoderControl.SafeFromStart` | src/host/src/bin/cgi_server/sdk_manager.cpp:330-350 | From the start of the program, over every run of commands and every pattern of failing SDK calls: the cached enable flag and codec of every stream are the firmware's and no frame rate above the sensor rate is sent; and after a start that switches nothing on and ends with a codec for every stream, the codec of an enabled stream is never changed, whatever commands follow. |
| `EncoderControl.ApplyKeepsGiven` | src/host/src/bin/cgi_server/sdk_manager.cpp:330-350 | No command takes the codec of a stream away again, whatever fails. |
| `EncoderControl.RunIsSafe` | src/host/src/bin/cgi_server/sdk_manager.cpp:1005-1161 | The same from every state between commands: caches, rates, and the codec rule once every stream has a codec, or before that as long as only streams with a codec are switched on. |
| `EncoderControl.BreaksRuleIff` | src/host/src/bin/cgi_server/sdk_manager.cpp:337-348 | Exactly when set_stream changes the codec of an enabled stream: the stream is on without a codec and the calls before the change succeed. |
| `EncoderStart.SafeForeverIff` | src/host/src/bin/cgi_server/sdk_manager.cpp:337-348 | From every state in which the codec rule was kept so far, and for every set of streams whose settings ask to be on: every future in which only these streams are switched on by enable_encoders keeps the rule if and only if every stream of the set, and every stream that is already on, has a codec, as far as the board has encoders; the same for the futures that one run of the server can have. |
| `EncoderStart.StartWithoutStream` | src/host/src/bin/cgi_server/cgi_server.cpp:726-729 | A start that breaks the rule, whatever calls bringing the SDK up takes: no command names the stream, its own setting enables it, and the first command for it changes the codec while it is on. |
| `EncoderStart.StartByStateFile` | src/host/src/bin/cgi_server/cgi_param_set.cpp:82-85 | A state file whose commands do not throw and set every stream whose settings ask to be on: the codec rule is kept in every run behind it that switches on no others; if it sets every stream, in every run at all. |
| `EncoderStart.StartByReset` | src/host/src/bin/cgi_server/cgi_server.cpp:484-511 | The start by reset, service and enabling: exactly the streams that ask for it are on, each with its codec, if nothing throws; once the reset has not thrown the codec rule is kept in every run behind it. |
| `EncoderControl.SetStreamCalls` | src/host/src/bin/cgi_server/sdk_manager.cpp:1005-1153 | set_stream makes exactly the calls of its plan, in order, up to the first that fails, and succeeds exactly if the checks hold and all of them succeed; a rate above the sensor's is an error in service and is reduced before. |
| `EncoderRates.SetStreamSetsRate` | src/host/src/bin/cgi_server/sdk_manager.cpp:1047-1052 | The frame rate a set_stream leaves in the firmware is the one asked for, or the sensor rate if that is lower; the other streams keep theirs. |
| `EncoderRates.ResetDoes` | src/host/src/bin/cgi_server/sdk_manager.cpp:739-752 | After a reset that does not throw every stream has the codec of its setting, the lower of its rate and the sensor's, and in service the switch it asks for; the sensor rate is the image's if the SDK was not up. |
| `EncoderRates.SetImageCalls` | src/host/src/bin/cgi_server/sdk_manager.cpp:923-929 | An image command makes exactly the calls that bring the SDK up, once, and its own, up to the first that fails. |
| `EncoderRates.EnableEncodersCalls` | src/host/src/bin/cgi_server/cgi_server.cpp:726-729 | enable_encoders makes one call for every stream in turn, up to the first that fails. |
| `EncoderRates.RatesLegalIff` | src/host/src/bin/cgi_server/sdk_manager.cpp:1047-1050 | The rate rule over a whole log: no frame rate sent was above the sensor's at that time. |
| `EncoderRates.CodecsLegalIff` | src/host/src/bin/cgi_server/sdk_manager.cpp:337-348 | The codec rule over a whole log: every codec was set while its stream was off. |
| `EncoderControl.SetStreamDoes` | src/host/src/bin/cgi_server/sdk_manager.cpp:1005-1153 | After a successful set_stream the firmware has the codec asked for, only a server in service has switched the stream, and the other streams are as before. |
| `EncoderControl.ThrowNeverEnables` | src/host/src/bin/cgi_server/sdk_manager.cpp:1005-1153 | A set_stream that throws never switches its stream on; a codec change under way may have left it off. |
| `EncoderControl.ResetKeeps` | src/host/src/bin/cgi_server/sdk_manager.cpp:739-752 | A reset that does not throw leaves every stream with the codec it asks for, and keeps the invariants whether it throws or not. |
| `EncoderControl.EnableEncodersKeeps` | src/host/src/bin/cgi_server/cgi_server.cpp:726-729 | enable_encoders keeps what is cached in step with the firmware, and if it does not throw exactly the streams asked for are on. |
| `EncoderControl.ChangeEncoderKeeps` | src/host/src/bin/cgi_server/sdk_manager.cpp:330-350 | change_encoder_if_needed ends with the codec asked for unless it throws, and touches no other stream. |
| `EncoderControl.InitKeeps` | src/host/src/bin/cgi_server/sdk_manager.cpp:923-929 | Bringing the SDK up, successfully or not, keeps caches, sensor rate and firmware in step. |
| `SdkManagement.SdkManager.ChangeEncoderIfNeeded` | src/host/src/bin/cgi_server/sdk_manager.cpp:330-350 | Disables, changes the codec and updates its cache call by call, exactly as the specification says, wherever a call fails. |
| `SdkManagement.SdkManager.SetStream` | src/host/src/bin/cgi_server/sdk_manager.cpp:1005-1153 | The fields, the calls and the rate in the stream's parameters after set_stream are those of the specification, wherever it throws; without an error the rate is the one asked for, reduced to the sensor's before service. |
| `SdkManagement.SdkManager.EnableStream` | src/host/src/bin/cgi_server/sdk_manager.cpp:1155-1161 | One enable call, then the cache; nothing if the SDK is down or the stream does not exist. |
| `SdkManagement.SdkManager.EnableEncoders` | src/host/src/bin/cgi_server/cgi_server.cpp:726-729 | The loop over all streams, up to the first call that fails. |
| `SdkManagement.SdkManager.SetImage` | src/host/src/bin/cgi_server/sdk_manager.cpp:923-929 | Takes the sensor rate and brings the SDK up once, before anything else. |
| `SdkManagement.SdkManager.Reset` | src/host/src/bin/cgi_server/sdk_manager.cpp:739-752 | Image first, then every stream with its rate reduced to the sensor's, up to the first call that fails. |

## Left out

- Weaker memory models: the shared words of ring and lock are plain or volatile variables without barriers in the source; the models are sequentially consistent.
- The invalid-buffer paths of the receive callback, recovery from a bad record signature, and teardown of a blocked playing thread.
- `av_buffer->stream_id = 1`, byte counters, log messages, and the SPS/PPS copies kept for session descriptions; because of them a parameter-set frame is followed by the next frame without a wait, which the pacing model does not say.
- Segments.FrameReader.PlaySegment: is about segments of at least 16 bytes; Segments.FrameReader.PlayMemory covers shorter ones, for which the byte budget reaches beyond the buffer (Segments.BudgetInsideIff). Memory that cannot be read is not modelled.
- FileSourceModel.FileSource.FirstFill: the test for the PPS reads one byte behind the first window when the window ends with the start code before it; that byte is a parameter.
- Multipart.Gateway.SaveMultipartFile: does not model the fixed 80 characters of the delimiter array, failing writes, or why a non-empty path may fail to open; the file size is unbounded.
- Regions.Roi.ReadPoints: does not model a floating-point value that is not a number, nor rounding of the product with the range.
- EncoderControl.SetStreamCalls: stands for the encoder parameters by the frame rate; decimation, bit rates and codec-specific fields are not modelled, and a frame size is valid or not.
- EncoderControl.SafeFromStart: the sensor rate is the one the SDK was initialized with; the choice of a video standard for it is not modelled, and the cached frame rate, which is read back from the firmware before use, is not either.
- SdkManagement.SdkManager.SetImage: the calls for image properties are counted, not told apart.
- BootLoop.WatchdogLoop: works on parsed lines; parsing dates is not part of the model.
- Checkpoint and revert of parameter sets, argument checks of the command handlers, temperature, motion vectors, session descriptions, network recovery and firmware flashing: bound to libraries that are not in the repository, or finite tables.
- The queue functions declared next to the lock: only their prototypes are in the repository.
