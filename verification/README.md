# Verification of the annotation transport, the rendezvous and the node map

This project models three pieces of the repository in Dafny 4.11 and proves what they are for.

**The annotation transport** (`annotate/streamline_annotate.c`). Every annotating thread owns a 64 KiB ring into which
it prints frames: a marker byte, a four-byte length that is patched in last, and a payload whose integers are signed
LEB128 (section 7.6 of DWARF Version 5). One sender thread empties all rings into sockets. The model has these layers:

- `Bytes`, `Leb128`, `Ring`: fixed-width fields, the packing of integers, and the ring as a value. `Ring.Put` and
  `Ring.Slice` say what a writer leaves and a reader finds; the theorems relate them to an unbounded byte queue.
- `Messages`, `Reservations`, `Wire`: the sixteen messages as data, what is reserved for each, and a reader of the
  stream that is written against the format and not against the writer.
- `Writers`, `Drafts`, `Layouts`, `Gator`: the C functions in place on an array, in the order of their statements, wait
  loops included. While a caller waits, the sender takes its turns with whatever connection and socket. Each method
  states the whole new ring, and that the call as a whole is one append to the byte queue.
- `Sending`, `Images`: one call of `gator_send`, for every answer of the socket; and the image of a visual annotation
  against a sender that is at any point of a turn when the image is stored.
- `Turns`: the sender's turn for one thread, step by step and as a whole, and any number of turns.
- `Transport`, `Fidelity`, `Progress`: one annotating thread and the sender interleaved at single loads, stores and
  copied bytes, with short and failed sends, stops and restarts; and the properties of every run.
- `ThreadList`, `Flush`, `Resend`: the lock-free list of threads with unlinking, freeing and reuse of addresses; the
  flush semaphores; the lists of saved state and the flag that makes one thread send them again.

**The rendezvous** (`My_test/synchronization2.cpp`) is the machine `Rendezvous`: one mutex, one condition variable with
spurious wakeups, three flags, and any number of rounds on either side.

**The node map** (`My_test/map.cpp`) is the class `NodeMaps.NodeMap` with its insertion and look-up loops.

Run `dafny verify dfyconfig.toml` in this directory to check everything.

## What the code does not do

Some properties one would expect do not hold of the code. For each of them the condition under which it holds is proved.

- A thread that waits for space is not always released. The capture is tested once per call, and the thread that sends
  the saved entries again, after a stop and a new start, writes many frames after that test. If a second stop comes in
  between, nobody sends any more and nobody posts the thread: once the posts of the two stops are used up it stays in
  `sem_wait` until the capture starts again (`Progress.ResendStrands`). With the capture on the space does come, in every
  long enough run of the sender's steps (`Progress.SpaceComes`). In general a waiting producer can get on without a new
  start exactly when the capture is on, or a stop has yet to load the write position, or its space is there once the stop
  under way has stored the read position (`Progress.ProceedsIff`); for a call as a whole, exactly when the capture is on
  or the space is there at its beginning (`Gator.GatorThread.WaitBytes`).
- `gator_send` cannot tell an empty ring from a full one. Called with the two positions equal it sends old ring bytes: it
  is first in, first out exactly when they differ (`Sending.SendFifoIff`). A short image send leads there
  (`Sending.ShortImageGoesStale`).
- A turn loads the write position first and looks for an image only behind its ring sends. If the header and the image
  of a visual annotation are stored in between, the image goes out ahead of its header (`Images.ImageAheadOfHeader`). A
  call with such an old copy is first in, first out for every image and answer exactly when the copy is still current,
  or is slot 0 with unread bytes up to it (`Images.LateCopyIff`). Over the whole wait, from any point of a turn, an image
  goes out whole and in order exactly when the sender comes to it just when all of the ring is sent and the socket takes
  it in one piece (`Images.ImageOrderIff`). A turn that sends the last of the ring before the image is stored misses it,
  and the next one sends old ring bytes.
- A send that the socket accepts in full still fails, and stops the capture, exactly when the write position is slot 0
  (`Sending.CompleteSendFailsIff`).
- The reservation of a counter leaves out the NUL after each activity name. It suffices exactly when the twelve integers
  leave a byte for every activity (`Reservations.CounterReservationIff`). Among the counts that are let through, exactly
  up to twenty activities are safe with the enumerators the header declares (`Reservations.DeclaredActivityCount`), and
  exactly up to four if the four enumerator arguments may be any `int` (`Reservations.SafeActivityCount`).
- Reservations are cut to 32 bits. A message that is let through by the cut alone does not keep its reservation
  (`Reservations.ReservationSuffices`), and there is one (`Reservations.CutReservation`).
- A stop closes positive descriptors only. A live connection stays faithful exactly when its descriptor is positive or
  nothing was left to drop (`Progress.StopKeepsFaithIff`), and a run is faithful in all its states exactly when no stop
  of it drops bytes and leaves their connection open (`Fidelity.FidelityIff`). It is enough that no connection attempt
  yields descriptor 0 (`Fidelity.PositiveDescriptorsSuffice`).
- A flush does not always return. The capture is tested before the post, and a stop leaves the sender at the top of its
  loop: a caller that has passed the test then waits for the next start (`Flush.StopBehindTest`). A flush that has
  posted can return without one exactly when the capture is on, or a completion is posted or carried by a pass
  (`Flush.ReturnsIff`); then one is there after a bounded number of the sender's steps (`Flush.CompletionComes`).
- A flush may return with its caller's bytes dropped: a stop in the pass that carries it empties the ring, and the
  completion is posted all the same (`Flush.ReturnsUnsent`). While the capture stays on, exactly the bytes the socket
  takes in the caller's turns leave its ring (`Flush.TurnsSend`); a stop drops the rest (`Flush.StopDrops`).
- A pass over the thread list need not free every thread that has exited. It leaves at most one, and none if nobody is
  pushed during the pass (`ThreadList.PassFreesExited`).
- Flush completions carry no name. A flush waits for a pass of its own, whatever other callers do, exactly when no
  completion is under way when it posts (`Flush.OwnPassIff`); it is enough that nobody else is in flush
  (`Flush.AloneIsEnough`), and two that overlap may lose it (`Flush.CompletionsAreAnonymous`).
- The rendezvous comes to rest in its final state exactly when both sides run the same number of rounds
  (`Rendezvous.RestIff`).
- A stored key can look absent, (-1,-1), exactly when that very pair is its earliest image in graph -1
  (`NodeMaps.LooksAbsentIff`).

## Model

| member | source | states |
|---|---|---|
| Bytes.Uint32RoundTrip | annotate/streamline_annotate.c:284-293 | the four length bytes, lowest first, give back every 32-bit value |
| Bytes.ColorRoundTrip | annotate/streamline_annotate.c:295-304 | the rotated colour bytes give back every colour |
| Bytes.NamedColors | annotate/streamline_annotate.h:71-80 | the named colours go out as red, green, blue and the ESC byte, and the length lowest byte first |
| Leb128.RoundTrip | annotate/streamline_annotate.c:306-354 | an independent decoder reads every encoded integer back and leaves what follows untouched |
| Leb128.StandardExamples | annotate/streamline_annotate.c:306-354 | the encodings are those of the examples in the standard |
| Leb128.LengthIff | annotate/streamline_annotate.c:306-354 | an encoding has at most n bytes if and only if the value lies in the range of n seven-bit groups |
| Leb128.PackedSizes | annotate/streamline_annotate.c:83-84 | 32-bit integers take at most 5 bytes and 64-bit integers at most 10 |
| Leb128.ShortestAndUnique | annotate/streamline_annotate.c:306-354 | no valid encoding of a value is shorter than the one written, and no other is as short |
| Ring.Used | annotate/streamline_annotate.c:712-715 | the masked 32-bit difference is the distance from read to write position around the ring |
| Ring.Free | annotate/streamline_annotate.c:707-710 | used and free bytes always add up to one less than the ring |
| Ring.PutPut | annotate/streamline_annotate.c:276-293 | two writes in a row are one write of the joined bytes, also across the wrap point |
| Ring.PutPatch | annotate/streamline_annotate.c:744-748 | patching bytes in afterwards is the same as having written them in place |
| Ring.PutIsCopy | annotate/streamline_annotate.c:361-375 | the split copy equals the byte-at-a-time modular write |
| Ring.SliceBeforePut | annotate/streamline_annotate.c:361-375 | a write behind the unread region that fits leaves it unchanged |
| Ring.CommitIsAppendIff | annotate/streamline_annotate.c:707-748 | committing bytes appends them to the byte queue if and only if they fit the free space |
| Ring.ConsumeIsDrop | annotate/streamline_annotate.c:430-456 | moving the read position takes exactly the bytes passed over off the front of the queue |
| Writers.WriteByte | annotate/streamline_annotate.c:276-282 | in place: one byte at the position, nothing else changed, position moved on |
| Writers.WriteUint32 | annotate/streamline_annotate.c:284-293 | in place: the four bytes in modular order, nothing else changed |
| Writers.WriteColor | annotate/streamline_annotate.c:295-304 | in place: the four colour bytes in modular order, nothing else changed |
| Writers.WritePacked | annotate/streamline_annotate.c:306-354 | the packing loop ends, leaves exactly the LEB128 encoding in modular order and returns its length |
| Writers.WriteInt | annotate/streamline_annotate.c:306-329 | the 32-bit packing, of at most 5 bytes |
| Writers.WriteLong | annotate/streamline_annotate.c:331-354 | the 64-bit packing, of at most 10 bytes |
| Writers.WriteBytes | annotate/streamline_annotate.c:361-375 | one or two copies leave the data in modular order and nothing else changed |
| Drafts.Close | annotate/streamline_annotate.c:734-753 | patching the length of what was written after it into the gap makes the frame of the message |
| Drafts.AddDeps | annotate/streamline_annotate.c:1153-1155 | the dependency loop appends one packed integer per dependency and sums their sizes into the length |
| Drafts.ActivitySize | annotate/streamline_annotate.c:921-926 | the loop computes what the reservation counts for the activities |
| Drafts.AddActivities | annotate/streamline_annotate.c:948-953 | the activity loop appends name, NUL and colour of each and is one byte per activity longer than the size reserved |
| Drafts.AddSettings | annotate/streamline_annotate.c:935-944 | the first ten integers of a counter, in order, and their sizes |
| Drafts.AddTexts | annotate/streamline_annotate.c:954-960 | the four texts of a counter, NUL after all but the last |
| Reservations.ReservationSuffices | annotate/streamline_annotate.c:717-1248 | no message but a counter ever writes more ring bytes than the sum it reserves; of those let through by the 32-bit comparison exactly those whose sum is not cut keep their reservation |
| Reservations.CutReservation | annotate/streamline_annotate.c:717-724 | a job with 858993453 dependencies reserves 4 bytes and is let through; with one dependency less it is refused |
| Reservations.ActivitySizes | annotate/streamline_annotate.c:921-953 | the activities of a counter write exactly one byte each more than is reserved for them |
| Reservations.CounterReservationIff | annotate/streamline_annotate.c:915-963 | a counter stays within its reservation if and only if its packed integers and its number of activities are together at most 60, and the sum is not cut |
| Reservations.CounterOverrun | annotate/streamline_annotate.c:923-953 | a counter writes at most one byte per activity more than it reserved, so never too much without activities |
| Reservations.WideCounterOverflows | annotate/streamline_annotate.c:915-963 | for every five or more activities a concrete counter, with enumerator arguments the header does not declare, exceeds its reservation, and is let through up to 8174 |
| Reservations.SafeActivityCount | annotate/streamline_annotate.c:915-963 | whatever integers the arguments are, a number of activities is safe in every counter that is let through uncut if and only if it is at most 4, or so large that none is |
| Reservations.DeclaredActivityCount | annotate/streamline_annotate.h:187-211 | with the enumerators the header declares, a number of activities is safe in every counter that is let through uncut if and only if it is at most 20, or so large that none is |
| Wire.FieldRoundTrip | annotate/streamline_annotate.c:284-375 | each kind of field is read back from its bytes, and what follows is left |
| Wire.FieldsRoundTrip | annotate/streamline_annotate.c:755-963 | a run of fields is read back from the concatenation of their bytes |
| Wire.PayloadRoundTrip | annotate/streamline_annotate.c:755-1248 | for all sixteen messages the payload, image included, is parsed back to the message |
| Wire.FrameShape | annotate/streamline_annotate.c:734-753 | the patched length of every frame is the number of payload bytes after it, image included, and sits where a reader looks |
| Wire.FirstFrame | annotate/streamline_annotate.c:734-753 | a reader takes exactly the first frame off any stream that starts with one |
| Wire.TornFrame | annotate/streamline_annotate.c:734-753 | a frame that is cut anywhere is not read at all |
| Wire.StreamRoundTrip | annotate/streamline_annotate.c:734-753 | a stream of frames with an incomplete rest parses to exactly the messages and that rest |
| Wire.CutStream | annotate/streamline_annotate.c:430-456 | wherever a stream is cut, a reader recovers exactly the frames that lie whole before the cut |
| Sending.SendIsFifo | annotate/streamline_annotate.c:430-469 | with unread bytes a call is first in, first out for any socket answers; image bytes go only behind every ring byte, and the image advances by what was accepted |
| Sending.SendFifoIff | annotate/streamline_annotate.c:430-469 | the call is first in, first out for all socket answers if and only if the positions differ |
| Sending.CompleteSendFailsIff | annotate/streamline_annotate.c:441-456 | with a socket that accepts everything the call fails if and only if the write position is 0; else everything is sent |
| Sending.SendProgress | annotate/streamline_annotate.c:430-456 | a call never adds used bytes, and a successful one has fewer |
| Sending.ImageProgress | annotate/streamline_annotate.c:448-466 | a successful call with an image waiting shortens the image, or leaves it whole with ring bytes to send |
| Sending.ShortImageGoesStale | annotate/streamline_annotate.c:441-466 | a short image send leaves equal positions and image bytes; the next call then fails and stops the capture, or sends an old ring byte |
| Sending.FreshTurn | annotate/streamline_annotate.c:430-469 | a turn that does not fail keeps ring and image in order, or leaves part of the image behind an empty ring |
| Sending.StaleTurn | annotate/streamline_annotate.c:430-469 | once part of an image is left behind an empty ring, more bytes go out than there were to send |
| Images.RestIsSend | annotate/streamline_annotate.c:430-469 | what is left of a turn that has only loaded the write position, with an image waiting, is the call of gator_send on the loaded copy |
| Images.TurnGoesOn | annotate/streamline_annotate.c:434-456 | from its first send on a turn does what it does from the point behind that send, after the bytes sent: behind the ring if it has sent up to the copy, on from slot 0 if it has reached the end of the ring, short otherwise |
| Images.RingRestIsSlice | annotate/streamline_annotate.c:430-456 | from every point of a turn the ring bytes that still go out are those from the read position on, committed since the load or not, and the read position moves past them |
| Images.LateCopyIff | annotate/streamline_annotate.c:546-549 | a call on an older copy of the write position is first in, first out for every image and answer if and only if the copy is still current, or is slot 0 with unread bytes up to it |
| Images.ImageAheadOfHeader | annotate/streamline_annotate.c:458-466 | with an older copy a socket that takes everything gets the image in front of what was committed since; no image is left, and those bytes still are in the ring |
| Images.Judge | annotate/streamline_annotate.c:862-871 | the wait for one image, from any point of a turn, ends with ring and image sent in order, or comes to the image too early, or sends more bytes than there were |
| Images.JudgeEarly | annotate/streamline_annotate.c:862-871 | a turn that comes to the image too early sends an image byte in place of a ring byte; taken in one piece, the image is gone with ring bytes left |
| Images.ImageOrderIff | annotate/streamline_annotate.c:862-871 | while the capture stays on, ring and image go out whole and in order for every image of that length if and only if the sender comes to the image just when all of the ring is sent and the socket takes it in one piece |
| Turns.StepsAreTurn | annotate/streamline_annotate.c:542-553 | the steps of a turn, up to its first return, are the turn as a whole: copy, bytes, read position and verdict of one gator_send, and a post after success |
| Turns.TurnIsUnderWay | annotate/streamline_annotate.c:542-553 | before that the turn has not returned |
| Gator.GatorState.StartCapturing | annotate/streamline_annotate.c:408-412 | capture that comes on raises the resend flag; capture that was on leaves it alone |
| Gator.GatorThread.constructor | annotate/streamline_annotate.c:655-673 | a new thread record has an empty ring, no image, no connection and a semaphore at 0 |
| Gator.GatorThread.MsgBegin | annotate/streamline_annotate.c:734-742 | the marker is in place and four slots are left for the length |
| Gator.GatorThread.Publish | annotate/streamline_annotate.c:747-748 | length patched and position stored, the ring holds the frame, and the queue has grown by it if and only if it fits the free space |
| Gator.GatorThread.MsgEnd | annotate/streamline_annotate.c:744-753 | as Publish; the call as a whole is one append to the queue, and the sender is woken when the ring is at least three quarters full |
| Gator.GatorThread.Reserve | annotate/streamline_annotate.c:717-724 | a message whose cut sum is over half the ring is refused without effect, any other waits for its space |
| Gator.GatorThread.WaitBytes | annotate/streamline_annotate.c:726-732 | the wait for space ends with the space there if and only if the capture was on or the space was there; it takes as many whole turns as are needed and no more, exactly the sent bytes have left the queue, and the sender is woken once before every wait on the semaphore |
| Gator.GatorThread.AnnotateStr | annotate/streamline_annotate.c:755-774 | text frame: the whole call, wait included, is one append to the byte queue; nothing happens if the message is too large; it waits for a start of the capture if and only if that is off and the space missing; a wait wakes the sender first |
| Gator.GatorThread.AnnotateColor | annotate/streamline_annotate.c:776-796 | coloured text frame: the whole call, wait included, is one append to the byte queue; nothing happens if the message is too large; it waits for a start of the capture if and only if that is off and the space missing |
| Gator.GatorThread.AnnotateNameChannel | annotate/streamline_annotate.c:798-818 | channel name frame: the whole call, wait included, is one append to the byte queue; nothing happens if the message is too large; it waits for a start of the capture if and only if that is off and the space missing |
| Gator.GatorThread.AnnotateNameGroup | annotate/streamline_annotate.c:820-839 | group name frame: the whole call, wait included, is one append to the byte queue; nothing happens if the message is too large; it waits for a start of the capture if and only if that is off and the space missing |
| Gator.GatorThread.Step | annotate/streamline_annotate.c:430-456 | the step in place is the step of Turns; with any commits since the load the bytes go out in order and the free space does not shrink |
| Gator.GatorThread.Steps | annotate/streamline_annotate.c:542-554 | every step of the list is taken, in order, until the capture is off; the byte order is kept |
| Gator.GatorThread.FinishTurn | annotate/streamline_annotate.c:441-466 | the rest of a turn under way, with the image in place, does what the function of Images says from that point, and posts after success |
| Gator.GatorThread.AnnotateVisual | annotate/streamline_annotate.c:841-872 | with the sender stepping in before, between and after the commit of the header and the store of the image: the whole frame is delivered if the sender comes to the image just when the ring is sent and the socket takes it whole; else too much goes out, or image bytes go ahead of the header; undisturbed, one piece is enough; if the capture went off before the image was offered it waits for a start |
| Gator.GatorThread.WaitImage | annotate/streamline_annotate.c:868-871 | the wait for the image ends if the capture was on; what goes out from the given point of the turn on, and the ring left, are what the function of Images says, for which the exact condition is proved; the sender is woken once before every wait on the semaphore |
| Gator.GatorThread.AnnotateMarker | annotate/streamline_annotate.c:874-892 | marker frame: the whole call, wait included, is one append to the byte queue; nothing happens if the message is too large; it waits for a start of the capture if and only if that is off and the space missing |
| Gator.GatorThread.AnnotateMarkerColor | annotate/streamline_annotate.c:894-913 | coloured marker frame: the whole call, wait included, is one append to the byte queue; nothing happens if the message is too large; it waits for a start of the capture if and only if that is off and the space missing |
| Gator.GatorThread.WriteCounter | annotate/streamline_annotate.c:915-963 | counter frame: the frame is in the ring, and one append to the queue whenever it fits the free space, also when it exceeds its reservation; refusal and waiting as for the other messages |
| Gator.GatorThread.AnnotateCounterValue | annotate/streamline_annotate.c:1040-1059 | counter value frame: the whole call, wait included, is one append to the byte queue; nothing happens if the message is too large; it waits for a start of the capture if and only if that is off and the space missing |
| Gator.GatorThread.AnnotateActivitySwitch | annotate/streamline_annotate.c:1061-1081 | activity switch frame: the whole call, wait included, is one append to the byte queue; nothing happens if the message is too large; it waits for a start of the capture if and only if that is off and the space missing |
| Gator.GatorThread.WriteCamTrack | annotate/streamline_annotate.c:1083-1100 | track frame: the whole call, wait included, is one append to the byte queue; nothing happens if the message is too large; it waits for a start of the capture if and only if that is off and the space missing |
| Gator.GatorThread.WriteCamJob | annotate/streamline_annotate.c:1128-1159 | job frame with all dependencies: the whole call, wait included, is one append to the byte queue; nothing happens if the message is too large; it waits for a start of the capture if and only if that is off and the space missing |
| Gator.GatorThread.WriteCamJobStart | annotate/streamline_annotate.c:1161-1184 | job start frame: the whole call, wait included, is one append to the byte queue; nothing happens if the message is too large; it waits for a start of the capture if and only if that is off and the space missing |
| Gator.GatorThread.WriteCamJobSetDeps | annotate/streamline_annotate.c:1186-1212 | dependencies frame: the whole call, wait included, is one append to the byte queue; nothing happens if the message is too large; it waits for a start of the capture if and only if that is off and the space missing |
| Gator.GatorThread.WriteCamJobStop | annotate/streamline_annotate.c:1214-1232 | job stop frame: the whole call, wait included, is one append to the byte queue; nothing happens if the message is too large; it waits for a start of the capture if and only if that is off and the space missing |
| Gator.GatorThread.WriteCamName | annotate/streamline_annotate.c:1234-1248 | view name frame: the whole call, wait included, is one append to the byte queue; nothing happens if the message is too large; it waits for a start of the capture if and only if that is off and the space missing |
| Gator.GatorThread.GatorSend | annotate/streamline_annotate.c:430-469 | the call in place does what the function of Sending says, for which order and progress are proved |
| Gator.GatorThread.Serve | annotate/streamline_annotate.c:543-552 | connect if need be and one send if there is work; success advances the queue in order and posts once |
| Gator.StopCapturing | annotate/streamline_annotate.c:414-428 | every ring and image is emptied, every thread posted once, every positive descriptor closed; nothing if capture was off |
| Gator.SenderTurn | annotate/streamline_annotate.c:542-554 | a turn is one send exactly when connected with work; it goes on with order kept, fewer used bytes and one post, or stops with every thread released |
| Transport.StepInv | annotate/streamline_annotate.c:414-456 | every load, store, copy, commit, stop and start of both threads, with any descriptor and with frames begun after a stop, keeps the invariant of ring, stream, marks and wakeups |
| Transport.CopiedByte | annotate/streamline_annotate.c:430-456 | the byte a send copies next is the next byte of the stream, whatever the producer has stored meanwhile |
| Transport.SilentWithoutCapture | annotate/streamline_annotate.c:647-648 | with the capture off and no call under way nothing is committed before the next start |
| Transport.OneFrameEach | annotate/streamline_annotate.c:685-698 | until the flag is raised no call commits more than one frame |
| Transport.OneFrameAfterOther | annotate/streamline_annotate.c:685-698 | nor does one after another thread has taken the flag down |
| Transport.NothingBehindLeave | annotate/streamline_annotate.c:717-724 | a call whose message is too large commits nothing |
| Fidelity.StreamFidelity | annotate/streamline_annotate.c:430-456 | in every reachable state the bytes taken by the live connection and the unread bytes are the frames committed since its start, as long as no stop has dropped bytes of a connection it left open |
| Fidelity.FidelityIff | annotate/streamline_annotate.c:408-428 | a run is faithful in every one of its states if and only if no stop of it drops bytes and leaves their connection open |
| Fidelity.PositiveDescriptorsSuffice | annotate/streamline_annotate.c:418-425 | a run in which no connection attempt yields descriptor 0 is faithful in every one of its states |
| Fidelity.EveryConnectionIsFramed | annotate/streamline_annotate.c:408-428 | over any number of stops and starts every connection took a prefix of whole frames, beginning with the first byte of one |
| Fidelity.EveryConnectionCounts | annotate/streamline_annotate.c:418-425 | the connections made in a run are those it has closed and the live one: none is used again after a stop has closed it |
| Fidelity.ReaderFidelity | annotate/streamline_annotate.c:539-556 | a reader of any connection recovers exactly the messages whose frames are complete, in order |
| Fidelity.ReservedStaysReserved | annotate/streamline_annotate.c:726-753 | no slot of a frame being written is ever a published slot or the slot being sent |
| Progress.BoundedWait | annotate/streamline_annotate.c:541-553 | while a producer is blocked the turns completed are at most the bytes that left the ring, and fewer than half the ring while its space is missing |
| Progress.ReleasedWhenRoom | annotate/streamline_annotate.c:726-732 | between turns a blocked producer whose space is there can wake and goes on to write |
| Progress.BlockedGivesWork | annotate/streamline_annotate.c:546-548 | a blocked producer that lacks space leaves the sender bytes to send |
| Progress.StopReleases | annotate/streamline_annotate.c:414-427 | a stop of the capture releases a blocked producer with its space free |
| Progress.SpaceComes | annotate/streamline_annotate.c:539-556 | from a state with the capture on, every run of the sender longer than six steps for each used byte and seven more passes a state in which the waiting producer has its space |
| Progress.SenderCanStep | annotate/streamline_annotate.c:539-556 | and the sender always has a step to take |
| Progress.ProceedsIff | annotate/streamline_annotate.c:726-732 | a waiting producer can get on without a new start of the capture if and only if the capture is on, a stop has yet to load the write position, or its space is or will be there |
| Progress.ResendStrands | annotate/streamline_annotate.c:685-696 | a run from the start, with a stop, a new start, and a second stop between two saved entries, that leaves the resending thread waiting with a start of the capture as the only possible step |
| Progress.StopKeepsFaithIff | annotate/streamline_annotate.c:418-425 | a stop keeps the live connection faithful if and only if its descriptor is positive or nothing is dropped; a closed one holds every byte up to the read position, and the next one begins at the frame boundary that is moved to |
| Progress.DescriptorZeroLoses | annotate/streamline_annotate.c:414-428 | a run in which a connection on descriptor 0 outlives the frames it never got |
| Progress.TurnRefinesSend | annotate/streamline_annotate.c:430-469 | an undisturbed turn of the machine is one gator_send: same bytes, same position, same verdict |
| Progress.EmissionRefinesPut | annotate/streamline_annotate.c:734-753 | an undisturbed emission of the machine leaves the ring and position that the in-place methods leave |
| ThreadList.StepInv | annotate/streamline_annotate.c:539-568 | every push, exit, turn, unlink and free keeps the list a chain without repetition that holds each thread once |
| ThreadList.LiveThreadsAreReachedOnce | annotate/streamline_annotate.c:681-683 | a pushed thread that has not exited is reached from the head at exactly one place, and the list ends |
| ThreadList.AllocatedIffInUse | annotate/streamline_annotate.c:557-567 | in every reachable state the allocated nodes are exactly those in the list, those being pushed and the one taken out last; none is a freed thread's |
| ThreadList.NothingFreedIsTouched | annotate/streamline_annotate.c:556-567 | no node of a freed thread is left in memory, the walking sender holds allocated nodes as predecessor, node and next, and only exited, unlinked nodes are freed |
| ThreadList.AddressIsReused | annotate/streamline_annotate.c:557-567 | a run in which the next thread gets the address of a freed one |
| ThreadList.PassFreesExited | annotate/streamline_annotate.c:539-568 | a pass frees every thread that had exited when it began, except for at most one, and all of them if nobody is pushed meanwhile |
| ThreadList.PushesUnlessHeadMoved | annotate/streamline_annotate.c:681-683 | whatever other threads do, a push succeeds, and its node comes first, if the head is what it was when the node was linked |
| ThreadList.UndisturbedPushEnds | annotate/streamline_annotate.c:681-683 | a pushing thread always has a step, and undisturbed it is in the list after three at the latest |
| ThreadList.PassReachesEveryone | annotate/streamline_annotate.c:539-568 | a finished pass has given every thread that was listed at its beginning a turn |
| Flush.FlushConservation | annotate/streamline_annotate.c:217-227 | returns, posts, drained requests and requests are ordered, and between iterations everything drained is posted |
| Flush.FlushIsSynchronous | annotate/streamline_annotate.c:535-571 | a flush that posts while no completion is under way returns only after a whole later pass, in which its caller's ring had a turn, whatever other callers do, and also if a stop fell between its test and its post; a full turn in such a pass sees the caller's earlier bytes out |
| Flush.OwnPassIff | annotate/streamline_annotate.c:217-227 | a flush waits for a pass of its own in every continuation if and only if no completion is posted, or carried by a pass that has begun, when it posts |
| Flush.AloneIsEnough | annotate/streamline_annotate.c:217-227 | that is so whenever nobody is in flush |
| Flush.ReturnsIff | annotate/streamline_annotate.c:217-227 | a flush that has posted can return without a new start of the capture if and only if the capture is on, or a completion is posted, drained or carried by a pass |
| Flush.CompletionComes | annotate/streamline_annotate.c:504-571 | such a flush finds a completion to take within eight steps of the sender and one for every pending or new request, whatever other callers do, unless the capture is turned off |
| Flush.SenderCanStep | annotate/streamline_annotate.c:504-571 | the sender is held up nowhere but at the top of its loop with the capture off |
| Flush.StopBehindTest | annotate/streamline_annotate.c:219-225 | a run in which the capture goes off between the test and the post, and the caller cannot return before the next start |
| Flush.StartHelps | annotate/streamline_annotate.c:504-514 | and a start takes such a caller to its return |
| Flush.TurnsSend | annotate/streamline_annotate.c:542-553 | while the capture stays on, exactly the bytes taken in the owner's turns leave its ring |
| Flush.StopDrops | annotate/streamline_annotate.c:414-427 | a stop drops what is unread, and nothing is sent until the next start |
| Flush.ReturnsUnsent | annotate/streamline_annotate.c:535-571 | a run in which a stop during the pass drops the caller's bytes and the flush returns all the same |
| Flush.NobodyWaitsWithoutCapture | annotate/streamline_annotate.c:219-225 | while the capture is and stays off nobody comes to wait in flush |
| Flush.CompletionsAreAnonymous | annotate/streamline_annotate.c:535-571 | two overlapping flushes lead to a run in which the later one returns before any pass of its own |
| Resend.StepInv | annotate/streamline_annotate.c:685-696 | every step of the savers, the resending thread and the sender keeps lists, logs and flag in agreement |
| Resend.NoEntryIsLost | annotate/streamline_annotate.c:1019-1021 | each list holds every entry ever pushed of its kind, latest first |
| Resend.ListsAreUnique | annotate/streamline_annotate.c:685-696 | the entries met by following a list are determined by the memory |
| Resend.ResendIsComplete | annotate/streamline_annotate.c:685-698 | before its own message the winner commits all listed entries that are not too large, list by list, in list order |
| Resend.EverySavedEntryIsResent | annotate/streamline_annotate.c:685-696 | every entry saved before the flag was taken down and not too large is sent again |
| Resend.SessionHasEveryEntry | annotate/streamline_annotate.c:408-412 | from a start on and while the capture stays on, every saved entry that is not too large has been committed since by some thread, at any point at which the flag has been raised and is down and no call is under way |
| Resend.FirstSession | annotate/streamline_annotate.c:579-583 | and so it is from the beginning of the program on, without a resend |
| Resend.ResendIsOrdered | annotate/streamline_annotate.c:686-695 | in what the winner commits every counter comes before every track and every track before every view name |
| Resend.OwnMessagesOnly | annotate/streamline_annotate.c:685-698 | from a state with the flag down and no resend under way, until the next start, each thread commits the messages of its own calls that found the capture on, each once, and nothing else |
| Resend.OneWinnerEach | annotate/streamline_annotate.c:686 | the threads that begin a resend are at most as many as the raises of the flag |
| Resend.FirstClaimWins | annotate/streamline_annotate.c:686 | the first thread that looks at a raised flag begins a resend |
| Resend.ResendsAreBounded | annotate/streamline_annotate.c:408-412 | over a whole run there are at most two resends for a start command and one for a new connection |
| Resend.NothingWhileStopped | annotate/streamline_annotate.c:647-648 | between a stop and the next start no thread commits anything, unless its call had found the capture on before |
| Resend.PushesUnlessHeadMoved | annotate/streamline_annotate.c:1019-1021 | whatever other threads do, an entry is saved if the head of its list is what it was when the entry was linked |
| Resend.SavedBeforeWritten | annotate/streamline_annotate.c:1019-1029 | no thread goes on to write its entry before it is in the list |
| Resend.UndisturbedPushEnds | annotate/streamline_annotate.c:1019-1021 | a saving thread always has a step, and undisturbed its entry is saved after three at the latest |
| Rendezvous.StepInv | My_test/synchronization2.cpp:8-45 | every step, spurious wakeups included, keeps mutual exclusion and the phases of a round |
| Rendezvous.Lockstep | My_test/synchronization2.cpp:8-45 | receives and sends differ by at most one; the data flag is never up with a request flag; the request flags agree when the mutex is free |
| Rendezvous.NoLostWakeup | My_test/synchronization2.cpp:14-38 | with the mutex free no thread waits for a flag that is up |
| Rendezvous.SpuriousWakeupsAreHarmless | My_test/synchronization2.cpp:14-38 | a thread woken for nothing goes back to where it was |
| Rendezvous.RestIff | My_test/synchronization2.cpp:105-123 | a run at rest has done the smaller number of rounds on both sides, and is final if and only if the numbers are equal |
| Rendezvous.RunsAreBounded | My_test/synchronization2.cpp:105-123 | the length of every run is bounded by its rounds and its spurious wakeups |
| NodeMaps.NodeMap.Insert | My_test/map.cpp:31-50 | the scanning insertion in place is the insertion of the relation |
| NodeMaps.NodeMap.Find | My_test/map.cpp:52-86 | the two scanning loops find the prioritised image |
| NodeMaps.HoldsFirstOccurrences | My_test/map.cpp:31-50 | after any insertions a key holds the values inserted for it, each once, in order of first insertion |
| NodeMaps.FirstOccurrencesAreDistinct | My_test/map.cpp:35-43 | no key holds a value twice |
| NodeMaps.InInsertionOrder | My_test/map.cpp:41-48 | of two values the one held earlier was first inserted earlier |
| NodeMaps.LookUpIsEarliest | My_test/map.cpp:52-86 | a look-up gives the first inserted pair of the target graph, else of the key's graph, else (-2,-2); (-1,-1) for a key never inserted |
| NodeMaps.SpecialAnswers | My_test/map.cpp:52-86 | with non-negative numbers (-1,-1) means exactly an absent key and (-2,-2) exactly a key without an image in either graph |
| NodeMaps.LooksAbsentIff | My_test/map.cpp:54-56 | a stored key answers (-1,-1) for some target if and only if that pair is its earliest image in graph -1 |

## Left out

- Gator.GatorThread.AnnotateStr and the other emitting methods: start where `gator_get_thread` has returned the thread; its test of the capture is part of `Transport` and `Resend`, its making of the record part of `ThreadList`. They require that a message let through is not let through by the 32-bit cut alone (`Safe`): what the code then writes goes over the whole ring again and again, or past its end.
- Gator.GatorThread.WaitBytes and Gator.GatorThread.WaitImage: have the sender's turns on this one thread as their environment, and end where only a new start of the capture would help; stops caused by other threads, and new starts, are in `Transport`.
- Gator.GatorThread.WriteCamJob: requires a job that is not let through by the 32-bit cut alone, which takes about 859 million dependencies; such a job goes over the whole ring again and again (`Reservations.CutReservation`).
- Gator.GatorThread.WriteCamJobSetDeps: the same for its dependency list.
- Gator.GatorThread.AnnotateVisual: a wait for space consists of whole turns; a turn that is under way when the call begins is followed step by step only if there is no such wait, one that is under way behind the wait in any case.
- Gator.StopCapturing and Gator.SenderTurn: have the thread list as a sequence of distinct records; the list in memory is `ThreadList`, which leaves out that a stop walks the same list, since only the sender does so and unlinks nothing then.
- Fidelity.StreamFidelity and the other whole-run theorems: leave out visual messages, because a short image send makes the next call send old ring bytes (`Sending.ShortImageGoesStale`) and an image may go ahead of its header (`Images.ImageAheadOfHeader`), and counters that exceed their reservation. For visual messages the condition is `Images.ImageOrderIff`, for such counters `Reservations.CounterReservationIff`.
- Progress.ProceedsIff: says when some run takes the producer on; that with the capture on the space comes in every long enough run of the sender is `Progress.SpaceComes`, how many turns that takes `Progress.BoundedWait`, and that the sender has work and loses no wakeup `Progress.BlockedGivesWork` and `Progress.ReleasedWhenRoom`.
- Flush.FlushIsSynchronous: takes a pass as one turn of the caller's thread between its beginning and its end; that a pass reaches every thread is `ThreadList.PassReachesEveryone`. A flush that begins while capture is off returns at once and is not a step.
- Wire.PayloadRoundTrip: requires sizes that the 32-bit length and count fields can carry.
- Sockets, semaphores, mutex and clock: a send accepts any number of bytes up to what it is given or fails, semaphores are counters, times are arguments. The handshake of a new connection (lines 392-403) is not part of the stream.
- The memory model: loads and stores of the shared fields are taken as sequentially consistent, although no barrier stands between the bytes of a frame and the store of the write position.
- NULL texts: they are the empty text, which is what they look like on the wire.
- Fork handling, process exit, logging, allocation failures and the 100 ms period of the sender.
- What is left in the ring when a thread exits: the sender may free its record after a short send.
- The output of the rendezvous and the node map on the error stream, the random delays, and the comments in `My_test/map.cpp` about nodes to be created.
- `annotate/Sr_ann.c` (the same transport with the header pasted in), `annotate/streamline_annotate.h` but for the values of its enumerators, `annotate/StreamlineAnnotate.java` (an older format), the other programs in `My_test/`, `examples/` and `scripts/`.
