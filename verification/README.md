# Verification of netramesh

A Dafny model of the protocol cores of netramesh, a transparent TCP/HTTP sidecar that carries its own
fork of Go's HTTP stack, with proofs that hold for every input and every run. `dafny verify
dfyconfig.toml` checks all of it.

The project follows the program. Code that changes state step by step is modelled by classes and
methods with loops, each proved against a function of the old state; what the program is for is then
proved about that function, as invariants of whole runs, round trips and refinements. Protocols
between goroutines are step relations in which any enabled step may come next.

| files | what they model |
|---|---|
| `FlowControl`, `WriteQueue`, `SendRuns`, `RandomScheduler` | the sending side of HTTP/2: `int32` windows, the DATA splitter, queues, and all runs of window updates, settings, openings, pushes and pops |
| `PriorityTree`, `PriorityPop`, `PriorityRemove`, `PriorityAdjust` | the priority tree as linked objects in the heap: reparenting, the walk that pops a frame, the removal of a node, and PRIORITY for any stream |
| `Frames`, `Framer`, `HeaderBlocks` | frame printers and parsers, the HEADERS/CONTINUATION order check, and header blocks split over frames |
| `DataBuffer`, `Pipe` | the chunked body buffer with its recycled chunks, and the pipe over it |
| `StreamTable`, `StreamRuns`, `StreamLaws`, `ServerConn` | the server's table of streams with its queued frames and the one in flight, all runs of the serve loop, what each event means for the streams, and the same with stream objects in the heap |
| `Punycode` (with `Arith`, `Int32`) | the cookie jar's Punycode encoder against a decoder of RFC 3492 |
| `MutexQueue`, `Routing`, `RoutingRuns` | the FIFO lock, the routing value, and the handshake of request loop, dial loop and response worker |
| `IdlePool` (with `Sequences`) | idle HTTP/1 connections: per-key lists that agree with one LRU list |
| `CookieJar`, `CookieLaws`, `CookieHeader` (with `Strings`) | cookies filed by domain, which requests get them back, and the Cookie header printed and read |

Where the code does not do what its documentation or the standard suggests, the model follows the code
and states exactly when the property holds:

* `PriorityRemove.RemoveNode`: the loop follows a link it has just changed, so only the first kid of a
  removed node is moved. The rest is a tree if and only if the node had at most one kid; in any case the
  links stay consistent and without cycles (`PriorityRemove.Detach`, `PriorityAdjust.OneTreeIff`).
* `CookieJar.BucketIff`: without a public suffix list, a cookie for a domain without a dot is filed
  where later requests do not look. Searching one bucket equals searching all entries, for all named
  hosts, if and only if there is no such cookie.
* `Frames.RoundTrip`: the framer accepts writes that are not read back as they were sent. A HEADERS
  frame with an empty fragment and an illegal initial window size are refused; a stream id with the
  reserved bit set comes back with the bit cleared; a raw frame of a known type comes back as the frame
  of that type (`Frames.RawIsSame`). An accepted write within the reader's limit is read back as sent if
  and only if it is none of these.
* `HeaderBlocks.PromiseBlock`: a PUSH_PROMISE block longer than 16384 bytes is continued by
  CONTINUATION frames although the order check of this framer does not treat PUSH_PROMISE as the start
  of a block, so the same framer refuses to read it back. A promise of more than 16380 bytes also
  exceeds the smallest legal frame size, since its id is not counted (`HeaderBlocks.FullPromiseTooLarge`).
* `Punycode.Encode`: the result decodes to the label if and only if every delta of the label fits in
  int32, which all labels of up to 1927 code points do. A longer one may be refused
  (`Punycode.LongerIsRefused`), or be given the encoding of another label without an error
  (`Punycode.LongerIsMistaken`).
* `CookieLaws.IdIsTriple`: the jar joins domain, path and name by semicolons, so two cookies may share an
  id when a domain or a path holds one (`CookieLaws.IdsCollide`), and otherwise never do.
* `CookieHeader.AddCookieReads`: adding a cookie keeps the first Cookie line and drops any others.

## Model

| member | source | states |
|---|---|---|
| `Punycode.VarRoundTrip` | pkg/http/cookiejar/punycode.go:74-88 | the digits written for a delta decode to that delta and leave the following bytes untouched, for every bias |
| `Punycode.RunDelta` | pkg/http/cookiejar/punycode.go:74-92 | decoding one emitted delta performs exactly one insertion of the decoder's main loop |
| `Punycode.DoneInsert` | pkg/http/cookiejar/punycode.go:63-93 | inserting the next occurrence of n into what was decoded so far gives the label restricted to what the encoder has handled |
| `Punycode.DeltaFits` | pkg/http/cookiejar/punycode.go:58-69 | for a label of at most 1927 code points the distance between decoder and encoder positions fits in int32 |
| `Punycode.LinkedInsert` | pkg/http/cookiejar/punycode.go:71-92 | inserting the code point found keeps the count equal to the decoder's distance |
| `Punycode.LinkedSkip` | pkg/http/cookiejar/punycode.go:64-70 | passing another code point keeps it |
| `Punycode.LinkedNext` | pkg/http/cookiejar/punycode.go:94-95 | the end of a pass keeps it |
| `Punycode.DeltasBuild` | pkg/http/cookiejar/punycode.go:51-96 | the deltas of a label, counted without the shortcut, build the label in the decoder of section 6.2 of RFC 3492 |
| `Punycode.BuildInjective` | pkg/http/cookiejar/punycode.go:51-96 | different delta sequences build different labels, so a label has exactly one |
| `Punycode.JumpDeltas` | pkg/http/cookiejar/punycode.go:52-62 | the jump by (m - n) * (h + 1) counts what passes over the skipped values would, and skips only counts that are not checked |
| `Punycode.NextDelta` | pkg/http/cookiejar/punycode.go:63-70 | a count on the way to an occurrence grows by at most the length of the label |
| `Punycode.ComputeAdapt` | pkg/http/cookiejar/punycode.go:111-124 | the loop computes the bias adaptation of section 6.1 of RFC 3492 with no int32 overflow |
| `Punycode.EmitDelta` | pkg/http/cookiejar/punycode.go:74-88 | every digit is in [0, 36) and the digits are the variable-length integer for delta |
| `Punycode.MinAtLeast` | pkg/http/cookiejar/punycode.go:52-57 | the scan finds the least code point of the label that is at least n |
| `Punycode.CopyBasic` | pkg/http/cookiejar/punycode.go:38-50 | the basic code points are copied in order and the rest are counted |
| `Punycode.Pass` | pkg/http/cookiejar/punycode.go:63-95 | one pass emits the deltas of n in int32 and keeps what is written decodable, or stops at a count that is negative as int32 |
| `Punycode.Round` | pkg/http/cookiejar/punycode.go:51-96 | the same for one turn of the outer loop with its jump |
| `Punycode.ShortFits` | pkg/http/cookiejar/punycode.go:58-69 | every delta of a label of at most 1927 code points fits in int32 |
| `Punycode.LowBuilds` | pkg/http/cookiejar/punycode.go:74-92 | deltas cut to int32 build the label if and only if nothing was cut |
| `Punycode.Encode` | pkg/http/cookiejar/punycode.go:34-98 | for every label: the result decodes to it if and only if all its deltas fit in int32; an error is returned if and only if some count, while a value of the label is gone through, is negative as int32, and then a delta lies at most the label's length further; and what is returned always decodes to what the deltas cut to int32 build |
| `Punycode.NegativeRefuses` | pkg/http/cookiejar/punycode.go:58-69 | a label with a delta that is negative as int32 is refused |
| `Punycode.LongerIsRefused` | pkg/http/cookiejar/punycode.go:58-61 | 1927 is the best bound: 1927 letters and U+10FFFF are refused |
| `Punycode.LongerIsMistaken` | pkg/http/cookiejar/punycode.go:58-69 | 3855 letters and U+10FFFF are not refused and get the delta of another label |
| `FlowControl.Flow.Take` | pkg/http/h2_bundle.go:1308-1316 | taking within the available window lowers stream and connection alike and leaves both non-negative |
| `FlowControl.Flow.Add` | pkg/http/h2_bundle.go:1318-1327 | the wrap test succeeds exactly when the true sum fits in int32, and failure changes nothing |
| `FlowControl.SendConn.ProcessWindowUpdate` | pkg/http/h2_bundle.go:5181-5211 | acts as the window update of section 6.9.1 of RFC 7540 on all windows, with the four verdicts: ids above the largest seen are errors, lower ones that are not open are ignored |
| `FlowControl.UpdateVerdict` | pkg/http/h2_bundle.go:5181-5211 | a window above 2^31 - 1 is an error of its stream, or of the connection; an idle stream is an error of the connection, a closed or skipped one is ignored; errors change no window, and otherwise only the window named grows |
| `FlowControl.SendConn.TakeFrom` | pkg/http/h2_bundle.go:1308-1316 | spends from one stream and the connection only |
| `FlowControl.SendConn.NewStream` | pkg/http/h2_bundle.go:5667-5702 | a new stream starts with the current initial window and shares the connection's window |
| `FlowControl.SendConn.GrowAll` | pkg/http/h2_bundle.go:5337-5350 | in any iteration order the loop succeeds exactly when every open stream's window fits after the change |
| `FlowControl.SendConn.ProcessInitialWindowSize` | pkg/http/h2_bundle.go:5326-5351 | accepted exactly when all open windows fit, and then all of them move by the difference |
| `FlowControl.SendConn.ProcessMaxFrameSize` | pkg/http/h2_bundle.go:5311-5312 | only values from 2^14 to 2^24 - 1 are taken |
| `WriteQueue.Consume` | pkg/http/h2_bundle.go:9540-9592 | a frame with DATA goes whole if and only if its size is at most the stream's window, the connection's, the limit and the frame size; it is blocked if and only if one byte is more than one of these; otherwise the piece fits all four and one byte more would not, and exactly its bytes are spent |
| `WriteQueue.ConsumeRequest` | pkg/http/h2_bundle.go:9540-9592 | consuming on the window objects is the function above on their values; it yields no frame, one or two exactly as the four bounds decide |
| `WriteQueue.DeliversPush` | pkg/http/h2_bundle.go:9626-9628 | a frame appended to both sides keeps "the pieces deliver the frames" |
| `WriteQueue.DeliversPopPiece` | pkg/http/h2_bundle.go:9646-9660 | popping a piece of the first frame keeps the relation |
| `WriteQueue.DeliversContents` | pkg/http/h2_bundle.go:9540-9592 | pieces carry the same bytes, answer the same channels and end the stream as often as the frames |
| `WriteQueue.DeliversOne` | pkg/http/h2_bundle.go:9560-9591 | END_STREAM and the done channel ride on the last piece only; other frames are never split |
| `WriteQueue.Queue.Shift` | pkg/http/h2_bundle.go:9630-9640 | takes the first frame and leaves the others in order |
| `WriteQueue.Queue.ConsumeFirst` | pkg/http/h2_bundle.go:9646-9660 | fails exactly on an empty queue or a blocked first frame, and then changes nothing; else a whole frame leaves or its rest stays first |
| `SendRuns.StepSound` | pkg/http/h2_bundle.go:5326-5352 | every event keeps the shape of the state: open streams have windows, queues hold their own stream's frames, the settings are in range |
| `SendRuns.StepConserved` | pkg/http/h2_bundle.go:1287-1327 | every event keeps: each stream window is what was granted minus DATA bytes popped, between (initial - (2^31 - 1)) and 2^31 - 1, and the connection window the same over all streams and never negative |
| `SendRuns.StepPieces` | pkg/http/h2_bundle.go:9549-9561 | no popped DATA piece exceeds the peer's frame size at that time |
| `SendRuns.StepDeliveredOn` | pkg/http/h2_bundle.go:9626-9660 | every event keeps: popped pieces followed by the queue deliver what was pushed since the last close |
| `SendRuns.RunInvariant` | pkg/http/h2_bundle.go:9540-9592 | in every run windows are conserved and bounded, pieces fit the frame size, and each stream's frames are delivered in order, DATA only split |
| `SendRuns.EventsTakeEffect` | pkg/http/h2_bundle.go:5181-5211 | in every state of a run: window updates within bounds are granted, and above them fail as they should; a frame pushed, a stream closed and a control frame popped are logged |
| `SendRuns.OpenTakesEffect` | pkg/http/h2_bundle.go:5326-5352 | a stream opens with the initial window; a new initial window fails if and only if it is above 2^31 - 1 or makes an open window so |
| `SendRuns.PopTakesEffect` | pkg/http/h2_bundle.go:9646-9660 | a pop takes the first frame whole, or the largest part that may be sent, or nothing if and only if not one byte may be sent |
| `SendRuns.SettingsFailOnlyAbove` | pkg/http/h2_bundle.go:5338-5350 | after every run a legal settings change fails exactly by pushing some open window above the maximum, never by going too low |
| `SendRuns.PoppedContents` | pkg/http/h2_bundle.go:9646-9660 | after every run popped and waiting frames together carry the pushed bytes, channels and stream ends |
| `RandomScheduler.RandomWriteScheduler.GetQueue` | pkg/http/h2_bundle.go:9676-9686 | a queue from the pool is empty and belongs to no stream |
| `RandomScheduler.RandomWriteScheduler.CloseStream` | pkg/http/h2_bundle.go:10155-10162 | the stream's frames are dropped, the others keep theirs, and the queue goes back to the pool emptied |
| `RandomScheduler.RandomWriteScheduler.Push` | pkg/http/h2_bundle.go:10168-10180 | the frame is appended to its stream's queue only, or to the control queue; no queue is shared |
| `RandomScheduler.RandomWriteScheduler.Pop` | pkg/http/h2_bundle.go:10182-10194 | control frames first; otherwise a pop is a step of the run model on some stream, and nothing is returned exactly when every queue is empty or held back |
| `PriorityTree.LiftedIsForest` | pkg/http/h2_bundle.go:10029-10041 | moving a dependency out of the subtree of n keeps a forest with the same roots and breaks the cycle, as section 5.3.3 of RFC 7540 asks |
| `PriorityTree.ReparentedIsForest` | pkg/http/h2_bundle.go:10029-10059 | the parents after any adjustment form a forest over the same nodes with the same roots, so a tree stays one tree |
| `PriorityTree.ReparentedIs` | pkg/http/h2_bundle.go:10029-10059 | node by node: n under the dependency, a dependency that was below n in n's place, its other dependents under an exclusive n, and all others as before |
| `PriorityTree.SetParent` | pkg/http/h2_bundle.go:9784-9817 | parent, kids, prev and next stay mutually consistent, and only n's parent changes |
| `PriorityTree.DependsOn` | pkg/http/h2_bundle.go:10036-10041 | the climb finds n exactly when n is an ancestor |
| `PriorityTree.AdoptSiblings` | pkg/http/h2_bundle.go:10046-10055 | all other kids of the parent move under n, although the list changes while it is walked and n may be above the parent meanwhile |
| `PriorityTree.Lift` | pkg/http/h2_bundle.go:10036-10041 | the dependency takes n's place under n's parent when it was below n, and otherwise stays |
| `PriorityTree.Adjust` | pkg/http/h2_bundle.go:10015-10059 | for every dependency, also a descendant, and either exclusive flag: a well-formed tree (or forest with the same roots) over the same nodes, n under the dependency with the weight, and its sole child when exclusive |
| `PriorityPop.ReorderKids` | pkg/http/h2_bundle.go:9866-9876 | unlinking, permuting and relinking the kids keeps the same kids and every parent, for any permutation |
| `PriorityPop.NeedSort` | pkg/http/h2_bundle.go:9849-9856 | the scan finds whether the kids' weights differ |
| `PriorityPop.StuckEverywhere` | pkg/http/h2_bundle.go:9832-9883 | if everything below the root is stuck then every queue of the tree is |
| `PriorityPop.AddBytes` | pkg/http/h2_bundle.go:9819-9825 | the bytes are added to the node and to the subtrees of it and of all its ancestors, and to no other |
| `PriorityPop.PriorityWriteScheduler.NextThrottle` | pkg/http/h2_bundle.go:10096-10103 | the int32 throttle limit stays in [1024, 2^31 - 1] and grows by 1024 up to that |
| `PriorityPop.PriorityWriteScheduler.ConsumeNode` | pkg/http/h2_bundle.go:10084-10091 | a node gives nothing exactly when its queue is empty or headed by DATA without window |
| `PriorityPop.PriorityWriteScheduler.WalkKids` | pkg/http/h2_bundle.go:9857-9883 | the walk over kids visits every subtree until one gives a frame |
| `PriorityPop.PriorityWriteScheduler.Walk` | pkg/http/h2_bundle.go:9832-9883 | the walk keeps tree and parents, finds a frame unless the whole subtree is stuck, and knows whether a stream above is open |
| `PriorityPop.PriorityWriteScheduler.Pop` | pkg/http/h2_bundle.go:10082-10107 | returns nothing if and only if every queue of the tree is empty or headed by DATA with no window; a popped frame comes from a node all of whose ancestors are stuck, under the throttle limit if and only if a stream it depends on is open; then the limit grows by 1024 or falls back, the bytes are charged to the node's ancestors, and only its queue changes |
| `PriorityRemove.RemovedIsTree` | pkg/http/h2_bundle.go:10123-10129 | taking out a node whose only kid moves up keeps a tree |
| `PriorityRemove.MoveKids` | pkg/http/h2_bundle.go:10124-10126 | the loop moves the first kid and no other |
| `PriorityRemove.Orphan` | pkg/http/h2_bundle.go:10123-10129 | a kid left behind makes the remaining nodes no tree |
| `PriorityRemove.DetachedIsForest` | pkg/http/h2_bundle.go:10123-10129 | whatever kids a removed node has, the links stay without cycles, with that node as one more root |
| `PriorityRemove.Detach` | pkg/http/h2_bundle.go:10123-10128 | the links after removeNode on any forest: consistent, the first kid under the old parent, the others still under the removed node |
| `PriorityRemove.RemoveNode` | pkg/http/h2_bundle.go:10123-10129 | the remaining nodes form a well-formed tree if and only if the removed node had at most one kid |
| `PriorityAdjust.LeafIsForest` | pkg/http/h2_bundle.go:10010-10011 | a new node under a root keeps a forest |
| `PriorityAdjust.Attach` | pkg/http/h2_bundle.go:10004-10010 | a new node becomes the first kid of the root, and links stay consistent |
| `PriorityAdjust.PriorityNodes.AddIdle` | pkg/http/h2_bundle.go:10109-10121 | a full list drops its oldest node from list and index, and the links are those of removeNode, whatever kids it had |
| `PriorityAdjust.PriorityNodes.AddNode` | pkg/http/h2_bundle.go:10003-10013 | an idle stream gets a new node under the root, with the exact parents after the eviction it may cause |
| `PriorityAdjust.PriorityNodes.AdjustAny` | pkg/http/h2_bundle.go:9990-10059 | for any stream and in any state such calls can reach: a forgotten stream changes nothing; an idle one gets a new node first; then the parents are those of the dependency rules; the links stay consistent and without cycles, with evicted nodes as further roots, and the index and the idle list stay in step |
| `PriorityAdjust.OneTreeIff` | pkg/http/h2_bundle.go:10109-10129 | the scheduler's nodes form one tree if and only if nothing hangs from an evicted node |
| `Frames.WordRoundTrip` | pkg/http/h2_bundle.go:1705-1707 | big-endian packing of 32 bits is undone by reading |
| `Frames.ReadWire` | pkg/http/h2_bundle.go:1544-1556 | the nine header bytes come back as type, flags, length and stream id with the reserved bit cleared, the payload follows, and nothing after it is touched |
| `Frames.SettingsRoundTrip` | pkg/http/h2_bundle.go:2059-2065 | settings come back in order |
| `Frames.PriorityRoundTrip` | pkg/http/h2_bundle.go:2439-2477 | dependency, exclusive bit and weight come back |
| `Frames.DataBack` | pkg/http/h2_bundle.go:1902-1931 | DATA comes back through its padding |
| `Frames.HeadersBack` | pkg/http/h2_bundle.go:2302-2337 | HEADERS comes back through padding and priority, and is refused exactly when the fragment is empty |
| `Frames.PromiseBack` | pkg/http/h2_bundle.go:2566-2600 | PUSH_PROMISE comes back through its padding |
| `Frames.GoAwayBack` | pkg/http/h2_bundle.go:2186-2199 | GOAWAY comes back with code and debug data |
| `Frames.RawBack` | pkg/http/h2_bundle.go:2226-2228 | a raw payload is kept as an unknown frame exactly for types above CONTINUATION |
| `Frames.ReadsAs` | pkg/http/h2_bundle.go:1798-1831 | what any accepted write is read as under any limit: too large, or its payload parsed under its header with the reserved bit cleared |
| `Frames.RawIsSame` | pkg/http/h2_bundle.go:2657-2661 | a raw frame has the bytes of the frame whose type, flags, id and payload it repeats |
| `Frames.RoundTrip` | pkg/http/h2_bundle.go:1798-1831 | every accepted write is read back with the same type, flags, stream id and fields, leaving what follows, if and only if it is readable and within the reader's limit |
| `Frames.HeaderLayout` | pkg/http/h2_bundle.go:1544-1556 | length, type, flags and stream id are at bytes 0 to 8 of a frame and the payload follows |
| `Frames.LegalIs` | pkg/http/h2_bundle.go:1966-1997 | the arguments that are accepted: stream ids of 31 bits but 0, padding of at most 255 zeros, increments from 1 to 2^31 - 1 |
| `Frames.TypesAndFlags` | pkg/http/h2_bundle.go:1337-1402 | the type of every frame and its flags by their numbers in section 6 of RFC 7540 |
| `Frames.PayloadLayout` | pkg/http/h2_bundle.go:2462-2477 | where dependency, weight, codes, increments, promised ids and settings stand in the payload |
| `Frames.RefusedFrames` | pkg/http/h2_bundle.go:2009-2040 | which frames are refused with PROTOCOL_ERROR, FRAME_SIZE_ERROR, FLOW_CONTROL_ERROR or as cut short |
| `Frames.WindowLegalIs` | pkg/http/h2_bundle.go:2031-2055 | settings are refused exactly when the first initial window size among them is 2^31 or more |
| `Framer.Framer.EndWrite` | pkg/http/h2_bundle.go:1659-1679 | the frame goes out with its length filled in exactly when it is at most 2^24 - 1 long |
| `Framer.Framer.WriteDataPadded` | pkg/http/h2_bundle.go:1966-1997 | output grows by the frame's bytes exactly when the write is accepted |
| `Framer.Framer.WriteHeaders` | pkg/http/h2_bundle.go:2374-2409 | the same for HEADERS with padding and priority |
| `Framer.Framer.WritePriority` | pkg/http/h2_bundle.go:2462-2477 | the same for PRIORITY |
| `Framer.Framer.WriteRSTStream` | pkg/http/h2_bundle.go:2500-2507 | the same for RST_STREAM |
| `Framer.Framer.WriteSettings` | pkg/http/h2_bundle.go:2117-2124 | the same for SETTINGS |
| `Framer.Framer.WriteSettingsAck` | pkg/http/h2_bundle.go:2130-2133 | the same for the acknowledgement of SETTINGS |
| `Framer.Framer.WritePing` | pkg/http/h2_bundle.go:2158-2166 | the same for PING |
| `Framer.Framer.WritePushPromise` | pkg/http/h2_bundle.go:2631-2653 | the same for PUSH_PROMISE |
| `Framer.Framer.WriteGoAway` | pkg/http/h2_bundle.go:2201-2207 | the same for GOAWAY |
| `Framer.Framer.WriteWindowUpdate` | pkg/http/h2_bundle.go:2264-2272 | the same for WINDOW_UPDATE, whose increment must be legal |
| `Framer.Framer.WriteContinuation` | pkg/http/h2_bundle.go:2536-2547 | the same for CONTINUATION |
| `Framer.Framer.WriteRawFrame` | pkg/http/h2_bundle.go:2657-2661 | the same for raw frames |
| `HeaderBlocks.CheckOrderIsInOrder` | pkg/http/h2_bundle.go:1845-1879 | the order check accepts a frame if and only if the sequence of frames with it still has every header block contiguous on one stream and no CONTINUATION elsewhere |
| `HeaderBlocks.ReadsInOrder` | pkg/http/h2_bundle.go:1798-1831 | in every run of ReadFrame the returned frames are in order and the reader's state names the open block |
| `HeaderBlocks.NextIsContinuation` | pkg/http/h2_bundle.go:2844-2859 | after an unfinished HEADERS or CONTINUATION the next frame returned is a CONTINUATION, so the reader's type assertion holds |
| `HeaderBlocks.BlockShape` | pkg/http/h2_bundle.go:9237-9259 | the fragments concatenate to the block, have 1 to 16384 bytes, start with HEADERS, and only the last has END_HEADERS |
| `HeaderBlocks.WriteHeaderBlock` | pkg/http/h2_bundle.go:9237-9259 | the loop sends exactly the frames of the block |
| `HeaderBlocks.WriteFragment` | pkg/http/h2_bundle.go:9321-9332 | one fragment is sent as HEADERS or CONTINUATION |
| `HeaderBlocks.BlockRoundTrip` | pkg/http/h2_bundle.go:2844-2859 | every non-empty response header block, split, written, parsed and order-checked, is accepted and reassembles to the same bytes, under any limit from 16384 |
| `HeaderBlocks.PromiseBlock` | pkg/http/h2_bundle.go:9370-9381 | under any limit from 16388, a PUSH_PROMISE block is read back if it fits one frame; otherwise its first CONTINUATION is refused as a protocol error |
| `HeaderBlocks.FullPromiseTooLarge` | pkg/http/h2_bundle.go:9370-9381 | at the limit 16384 the first frame is too large exactly for blocks of more than 16380 bytes |
| `DataBuffer.ClassFor` | pkg/http/h2_bundle.go:1053-1062 | the smallest of 1024, 2048, 4096, 8192 and 16384 that holds the bytes, else the largest |
| `DataBuffer.ChunkPool.Get` | pkg/http/h2_bundle.go:1053-1061 | a chunk of a size class that the pool no longer holds |
| `DataBuffer.ChunkPool.Put` | pkg/http/h2_bundle.go:1063-1071 | a chunk of a size class returns to the pool; callers never offer another length, so the panic is not reached |
| `DataBuffer.PendingFill` | pkg/http/h2_bundle.go:1128-1146 | bytes copied to the write position are appended to the contents |
| `DataBuffer.PendingSkip` | pkg/http/h2_bundle.go:1090-1113 | advancing the read position, and dropping a used-up first chunk, removes bytes from the front |
| `DataBuffer.Buffer.LastChunkOrAlloc` | pkg/http/h2_bundle.go:1148-1159 | the last chunk if it has room, else a new one of the right size; the contents stay the same |
| `DataBuffer.Buffer.Write` | pkg/http/h2_bundle.go:1128-1146 | all bytes are appended, over as many chunks as needed |
| `DataBuffer.Buffer.FirstBytes` | pkg/http/h2_bundle.go:1115-1120 | a non-empty prefix of the contents |
| `DataBuffer.Buffer.Read` | pkg/http/h2_bundle.go:1090-1113 | as many bytes as fit leave the front, and an error comes exactly on an empty buffer |
| `DataBuffer.Buffer.Len` | pkg/http/h2_bundle.go:1123-1125 | the length of the contents |
| `PipeModel.RunInv` | pkg/http/h2_bundle.go:3715-3796 | for every interleaving: what was written is what was read plus what is buffered, until a break |
| `PipeModel.ReadReply` | pkg/http/h2_bundle.go:3715-3738 | a read returns the next written bytes; the close error only after all of them, with its callback the first time; the break error at once |
| `PipeModel.ReadsArePrefix` | pkg/http/h2_bundle.go:3704-3738 | reads are a prefix of writes, the callback runs at most once, the length is exact |
| `PipeModel.WriteReply` | pkg/http/h2_bundle.go:3744-3758 | a write is stored while open, refused once closed, swallowed once broken |
| `Pipe.Pipe.Len` | pkg/http/h2_bundle.go:3704-3711 | the number of buffered bytes |
| `Pipe.Pipe.Read` | pkg/http/h2_bundle.go:3715-3738 | refines the read of the byte FIFO over the chunked buffer |
| `Pipe.Pipe.Write` | pkg/http/h2_bundle.go:3744-3758 | refines its write |
| `Pipe.Pipe.Close` | pkg/http/h2_bundle.go:3765-3796 | refines its close |
| `Pipe.Pipe.Break` | pkg/http/h2_bundle.go:3770-3796 | refines its break |
| `StreamRuns.NoWrap` | pkg/http/h2_bundle.go:5690-5697 | ids are 31 bits wide, so fewer than 2^31 streams of each kind exist and no uint32 counter is near wrapping |
| `StreamRuns.NewStreamKeeps` | pkg/http/h2_bundle.go:5667-5702 | opening an unused id keeps ids increasing, frames in place and both counters right |
| `StreamRuns.CloseEntryKeeps` | pkg/http/h2_bundle.go:5232-5254 | closing a stream that is in the table keeps both counters right; one that is closed panics |
| `StreamRuns.DropKeeps` | pkg/http/h2_bundle.go:5255-5264 | once the scheduler forgets the stream, every queued frame belongs to a stream in the table again |
| `StreamRuns.PushKeeps` | pkg/http/h2_bundle.go:4800-4851 | a frame is queued only for a stream in the table, or is a reset |
| `StreamRuns.StartKeeps` | pkg/http/h2_bundle.go:4856-4897 | a frame that starts belongs to a stream in the table, or starting it panics |
| `StreamRuns.InLoopKeeps` | pkg/http/h2_bundle.go:4906-4958 | the end of a frame keeps the invariant when its stream is in the table or closed |
| `StreamRuns.CascadeNotCaught` | pkg/http/h2_bundle.go:4972-5008 | a stream that is closed while its own DATA is processed leaves no frame in flight that could close it again |
| `StreamRuns.HeadersKeep` | pkg/http/h2_bundle.go:5500-5613 | HEADERS keeps the invariant; a stream opened without a body is one that a stream error is about to reset |
| `StreamRuns.TrailersKeep` | pkg/http/h2_bundle.go:5615-5643 | trailers end the body only where there is one |
| `StreamRuns.DataKeeps` | pkg/http/h2_bundle.go:5354-5446 | DATA keeps the invariant: the missing-body panic is not reached, and a declared length is not exceeded |
| `StreamRuns.StepKeeps` | pkg/http/h2_bundle.go:5069-5157 | every turn of the serve loop keeps the invariant, whatever frames are written meanwhile |
| `StreamRuns.RunInv` | pkg/http/h2_bundle.go:5500-5613 | in every run ids of each kind are opened in increasing order, none twice; an Open stream with no reset queued has a body; the counters equal the odd and even ids in the table; the panics for a missing body and for id 0 do not happen |
| `StreamRuns.WithinAdvertised` | pkg/http/h2_bundle.go:5555-5566 | in every run curClientStreams is the number of odd ids in the table and at most the limit advertised at the start, and curPushedStreams the number of even ones |
| `StreamRuns.MiscountIff` | pkg/http/h2_bundle.go:5232-5246 | a finished frame makes a counter differ from the table if and only if it ends or resets a stream that is out of the table but not closed, which no run does |
| `StreamRuns.OpensIff` | pkg/http/h2_bundle.go:5500-5573 | HEADERS opens a stream if and only if no GOAWAY is due, the id is odd and larger than any client id before, and the table holds fewer client streams than advertised |
| `StreamRuns.PromisesIff` | pkg/http/h2_bundle.go:6558-6602 | a promise opens the next even id if and only if push is on, the table holds fewer pushed streams than the client allows, and ids are left |
| `StreamRuns.PanicIff` | pkg/http/h2_bundle.go:4916-4952 | the end of a frame makes the serve loop panic if and only if it is a handler's panic reset for a stream already closed |
| `StreamRuns.DeadIff` | pkg/http/h2_bundle.go:4862-4876 | starting a frame panics if and only if its stream is just being closed, or its response has ended and the frame is one more of the response |
| `StreamRuns.ClosedIsFinal` | pkg/http/h2_bundle.go:4348-4370 | a stream that is closed after some run is closed after every longer run, as section 5.1 of RFC 7540 asks |
| `StreamLaws.CascadeOwed` | pkg/http/h2_bundle.go:4972-5008 | whatever the scheduler writes meanwhile, a stream whose reset is due leaves the table or its reset stays due |
| `StreamLaws.ConnectionErrorIff` | pkg/http/h2_bundle.go:5069-5119 | a frame ends the connection with an error if and only if it breaks a rule of the connection: no SETTINGS first, an even or old id for HEADERS, second trailers, DATA on stream 0, DATA, RST_STREAM or WINDOW_UPDATE on an idle stream, PUSH_PROMISE, bad settings, a connection window that overflows; the code is FLOW_CONTROL_ERROR for the last and PROTOCOL_ERROR for the others, and a shutdown that has begun keeps its code |
| `StreamLaws.StreamErrorResets` | pkg/http/h2_bundle.go:5058-5067 | every stream error (over the limit, a bad request, bad trailers or none ended, DATA that the stream cannot take, a window that overflows, a dependency on itself) takes the stream out of the table or leaves it marked with its reset due; with nothing written meanwhile the reset is queued last |
| `StreamLaws.ClientResets` | pkg/http/h2_bundle.go:5213-5230 | RST_STREAM ends a stream in the table: it is gone, none of its frames waits, a connection without keep-alive ends with its last one; on a stream that is gone it does nothing |
| `StreamLaws.DataTaken` | pkg/http/h2_bundle.go:5354-5446 | DATA that an open stream can take is counted in its body; with END_STREAM the stream is half-closed by the client; padding is given back; nothing else changes |
| `StreamLaws.RequestOpens` | pkg/http/h2_bundle.go:5555-5613 | HEADERS of a good request makes exactly one stream, open with a body of the declared length or half-closed by the client without one |
| `StreamLaws.TrailersEnd` | pkg/http/h2_bundle.go:5615-5643 | trailers that end the request leave the stream half-closed by the client |
| `StreamLaws.Disregarded` | pkg/http/h2_bundle.go:5121-5157 | frames without effect: HEADERS during a shutdown or for a stream being reset, DATA once the connection fails, WINDOW_UPDATE for a stream that is gone, PRIORITY that is no error |
| `StreamLaws.SettingsApply` | pkg/http/h2_bundle.go:5267-5324 | SETTINGS sets what it names and leaves the rest; GOAWAY begins a shutdown and ends pushing |
| `StreamLaws.ThenScheduled` | pkg/http/h2_bundle.go:5181-5211 | larger windows and new settings let the scheduler go on |
| `StreamLaws.FrameWritten` | pkg/http/h2_bundle.go:4906-4958 | a reset that is written, and the end of a response whose request has ended, end the stream; an earlier end of the response leaves its reset due; other frames have no effect |
| `StreamLaws.WakesInTurn` | pkg/http/h2_bundle.go:4972-5008 | the scheduler's choices act one after the other |
| `StreamLaws.ChoiceStarts` | pkg/http/h2_bundle.go:4972-5008 | a chosen frame leaves the queue and is in flight, and writing it at once is the same as finishing it then; frames are held back while one is in flight and once the connection fails |
| `StreamLaws.PieceStarts` | pkg/http/h2_bundle.go:4972-5008 | a piece in flight leaves its frame in the queue; frames of no stream change nothing |
| `StreamLaws.PromiseStarts` | pkg/http/h2_bundle.go:6558-6602 | a promise makes the next even stream, half-closed by the client, and is then in flight, if and only if push is on and the client's limit and the ids leave room |
| `StreamLaws.HandlerQueues` | pkg/http/h2_bundle.go:4800-4851 | a handler's frame is queued if and only if its stream is in the table |
| `StreamLaws.PushQueues` | pkg/http/h2_bundle.go:6537-6556 | a push is queued if and only if its stream is open or half-closed by the client and push is on |
| `StreamLaws.ReadRefunds` | pkg/http/h2_bundle.go:5952-5960 | a read of the body gives a window update to the stream if and only if its client has not ended it |
| `StreamLaws.ShutdownBegins` | pkg/http/h2_bundle.go:5038-5051 | a shutdown has no error code, an error of the frame reader has its own, and the first one stays |
| `StreamLaws.DisconnectEnds` | pkg/http/h2_bundle.go:4519-4524 | the end of the connection ends its streams, and a frame that could not be read resets its stream |
| `ServerConn.ServerConn.NewStreamObject` | pkg/http/h2_bundle.go:5667-5702 | a new object for an id that never had one is the new stream of the run model |
| `ServerConn.ServerConn.CloseObject` | pkg/http/h2_bundle.go:5232-5254 | closing through a pointer closes the stream of that id, also when it left the table |
| `ServerConn.ServerConn.DropQueue` | pkg/http/h2_bundle.go:10155-10162 | the queue keeps the frames of other streams in order |
| `ServerConn.ServerConn.WroteInLoop` | pkg/http/h2_bundle.go:4906-4958 | the effect of a finished frame through its pointer is the one by id |
| `ServerConn.ServerConn.StartFrame` | pkg/http/h2_bundle.go:4856-4897 | the guards of a starting frame through its pointer are those by id |
| `ServerConn.ServerConn.Schedule` | pkg/http/h2_bundle.go:4972-5008 | the loop writes frame after frame until one is in flight |
| `ServerConn.ServerConn.Finish` | pkg/http/h2_bundle.go:4906-4958 | the end of the frame in flight is a step of the run model and keeps its invariant |
| `ServerConn.ServerConn.Accept` | pkg/http/h2_bundle.go:5409-5444 | the refunds of padding and the end of a body, through a pointer that may be out of the table by then |
| `ServerConn.ServerConn.Serve` | pkg/http/h2_bundle.go:5069-5119 | a frame from the client is a step of the run model, about which the rows of `StreamLaws` say what it does to the streams, and keeps its invariant |
| `ServerConn.ServerConn.HandlerWrite` | pkg/http/h2_bundle.go:4800-4851 | a frame from a handler, whose stream may be long gone, is a step of the run model and keeps its invariant |
| `ServerConn.ServerConn.HandlerPush` | pkg/http/h2_bundle.go:6537-6556 | a push from a handler is a step of the run model and keeps its invariant |
| `ServerConn.ServerConn.HandlerRead` | pkg/http/h2_bundle.go:5952-5960 | a handler's read of its body is a step of the run model and keeps its invariant |
| `ServerConn.ServerConn.FailRead` | pkg/http/h2_bundle.go:5069-5119 | a frame that could not be read is a step of the run model and keeps its invariant |
| `ServerConn.ServerConn.ShutDown` | pkg/http/h2_bundle.go:5038-5051 | a graceful shutdown is a step of the run model and keeps its invariant |
| `ServerConn.ServerConn.Wake` | pkg/http/h2_bundle.go:4972-5008 | frames of no stream that are due are a step of the run model and keep its invariant |
| `ServerConn.ServerConn.Disconnect` | pkg/http/h2_bundle.go:4519-4524 | closing a stream at the end of the connection is a step of the run model and keeps its invariant |
| `MutexQueue.StepInv` | pkg/transport/handler.go:244-270 | every atomic step of Lock and Unlock by any thread keeps the invariant |
| `MutexQueue.RunInv` | pkg/transport/handler.go:244-270 | it holds for any number of threads and every interleaving |
| `MutexQueue.MutualExclusion` | pkg/transport/handler.go:244-262 | two threads are never inside together |
| `MutexQueue.FirstComeFirstServed` | pkg/transport/handler.go:244-262 | the lock is granted in the order of the appends, no mutex is unlocked while free, and the list is never empty in Unlock |
| `MutexQueue.OneWaiter` | pkg/transport/handler.go:255-261 | no two threads wait for the same mutex |
| `MutexQueue.SomeWaiter` | pkg/transport/handler.go:255-261 | a mutex with a successor in the list has its waiter, or that one is still holding the inner mutex |
| `MutexQueue.NoLostWakeup` | pkg/transport/handler.go:264-270 | the owner of the front mutex is inside, enabled, or waits for what the thread in Unlock releases next |
| `MutexQueue.NoDeadlock` | pkg/transport/handler.go:244-270 | while a thread is between Lock and Unlock, one such thread can step |
| `MutexQueue.NextOperation` | pkg/transport/handler.go:244-270 | every step brings its thread to the next operation of Lock or Unlock and moves no other, and appends and entries are recorded as they happen |
| `MutexQueue.DrainBound` | pkg/transport/handler.go:244-270 | without new calls to Lock every schedule takes at most a number of steps that the state fixes |
| `MutexQueue.Drained` | pkg/transport/handler.go:244-270 | and when no step is left, all threads are through and every one that appended itself was let in |
| `RoutingValue.GetRoutingDestination` | pkg/protocol/http.go:524-543 | the loop finds the destination that the pairs decide |
| `RoutingValue.Destination` | pkg/protocol/http.go:524-543 | an address that is never empty when the original one is not |
| `RoutingValue.MalformedIff` | pkg/protocol/http.go:528-530 | an error if and only if a malformed pair stands before every pair that routes the host |
| `RoutingValue.DestinationIs` | pkg/protocol/http.go:524-543 | the address of the first pair for the host, with ":80" if it has no port; the original address, or an error, when no pair decides |
| `RoutingValue.RoutingRoundTrip` | pkg/protocol/http.go:524-543 | a printed routing table routes every host as a lookup in the table does, with port 80 by default and without routes to oneself |
| `RoutingValue.LookupIs` | pkg/protocol/http.go:524-543 | a lookup is the first route that leads away from the host, with ":80" if it has no port |
| `RoutingRuns.HandshakeStep` | pkg/transport/handler.go:122-185 | every step keeps who waits for whom, and neither sends on nor closes a closed channel |
| `RoutingRuns.AnsweredStep` | pkg/protocol/http.go:73-146 | every step keeps: each address has one answer, the connection dialled for it |
| `RoutingRuns.CallsStep` | pkg/transport/handler.go:139-146 | every step keeps: routines are queued, started and done in order, at most ten waiting, and the wait group counts them |
| `RoutingRuns.RunInv` | pkg/transport/handler.go:122-185 | the three hold in every interleaving |
| `RoutingRuns.AnswersMatch` | pkg/transport/handler.go:147-176 | the i-th answer is the connection dialled for the i-th address sent, or nil, and then it is the last |
| `RoutingRuns.RequestsRouted` | pkg/protocol/http.go:119-141 | in every run the i-th address sent is the one that the i-th request read asks for: the original one on an inbound connection, without a routing value, or when no pair decides, and otherwise the deciding pair's, with ":80" by default; the i-th answer is a connection if and only if the i-th dial went well |
| `RoutingRuns.TableRouted` | pkg/protocol/http.go:119-141 | in every run of an outbound connection, a request with a printed routing table goes where the table leads its host |
| `RoutingRuns.LoopGoesOn` | pkg/protocol/http.go:79-211 | after a written request the next one is read unless the protocol was upgraded; a refused dial and the end of input end the loop |
| `RoutingRuns.ChannelsSafe` | pkg/transport/handler.go:147-176 | no panic; no empty address is ever sent, so receiving one means the channel closed; connCh is never read closed |
| `RoutingRuns.ResponsesInOrder` | pkg/transport/handler.go:141-184 | response routines run one at a time in request order, and all of them before the worker ends |
| `RoutingRuns.NobodyStuck` | pkg/transport/handler.go:122-185 | until all three have ended one of them can go on |
| `IdlePool.RemoveAgrees` | pkg/http/transport.go:852-878 | removal keeps lists and LRU the same connections |
| `IdlePool.StoreKeeps` | pkg/http/transport.go:773-779 | a stored connection, and the eviction it may cause, keep agreement and both bounds |
| `IdlePool.GetKeeps` | pkg/http/transport.go:813-842 | taking a connection, skipping closed ones, keeps them too |
| `IdlePool.StepKeeps` | pkg/http/transport.go:726-789 | every put, get, remove, timeout and close-all keeps them |
| `IdlePool.RunInv` | pkg/http/transport.go:726-789 | over every run the connections in the lists are exactly those in the LRU, each once under its own key, in order of use; no list is empty; the per-host bound and a positive total bound hold |
| `IdlePool.GetMostRecent` | pkg/http/transport.go:813-842 | get takes the most recently idle open connection of the key, and none exactly when there is none |
| `IdlePool.GetTakes` | pkg/http/transport.go:813-842 | of the key's connections exactly the returned one and the closed ones idle for less time go; all others stay |
| `IdlePool.EvictsOldest` | pkg/http/transport.go:775-779 | eviction closes the connection idle for longest and keeps all others |
| `IdlePool.PutThenGet` | pkg/http/transport.go:726-789 | a put stores if and only if keep-alives are on, the connection is not broken, not HTTP/2 and not idle already, no dialer waits, the pool was not just emptied and the host has room; then the next get for the key returns it, and every other connection stays but the one evicted; any other answer leaves the pool as it was |
| `IdlePool.RefusalReasons` | pkg/http/transport.go:726-772 | each of the seven refusals has its reason |
| `IdlePool.OthersStay` | pkg/http/transport.go:844-878 | removal takes one connection, the timer closes it if it was idle, and closing all closes exactly the idle ones |
| `IdlePool.Transport.LruRemove` | pkg/http/transport.go:2380-2386 | removes one connection from list and map alike |
| `IdlePool.Transport.ListRemove` | pkg/http/transport.go:857-877 | slides the rest down, and deletes an empty list |
| `IdlePool.Transport.RemoveIdleConn` | pkg/http/transport.go:844-878 | the removal step on the fields |
| `IdlePool.Transport.CloseConnIfStillIdle` | pkg/http/transport.go:1551-1561 | removes and closes only a connection still idle |
| `IdlePool.Transport.TryPutIdleConn` | pkg/http/transport.go:726-789 | the put of `IdlePool.PutThenGet` on the fields: the answer and the new pool |
| `IdlePool.Transport.StoreConn` | pkg/http/transport.go:773-779 | the LRU's panic for a duplicate is not reached |
| `IdlePool.Transport.PopLast` | pkg/http/transport.go:822-831 | the last connection leaves list, LRU and map |
| `IdlePool.Transport.GetIdleConn` | pkg/http/transport.go:813-842 | the get step on the fields |
| `IdlePool.Transport.CloseIdleConnections` | pkg/http/transport.go:576-593 | empties the pool and closes exactly the idle connections |
| `JarKeys.KeyOfSuffix` | pkg/http/cookiejar/jar.go:327-355 | a host and every domain above it with an interior dot have the same key |
| `JarKeys.KeyOfLabel` | pkg/http/cookiejar/jar.go:327-355 | a label before a dotless domain makes a key of its own |
| `CookieJar.PathMatchIsDirectory` | pkg/http/cookiejar/jar.go:131-144 | path-match of section 5.1.4 of RFC 6265 |
| `CookieJar.DefaultPath` | pkg/http/cookiejar/jar.go:362-374 | starts with a slash |
| `CookieJar.DefaultPathIsDirectory` | pkg/http/cookiejar/jar.go:362-374 | the directory of an absolute path with more than one slash |
| `CookieJar.DefaultPathIsRoot` | pkg/http/cookiejar/jar.go:362-374 | the root for any other path |
| `CookieJar.DomainFits` | pkg/http/cookiejar/jar.go:446-503 | an accepted domain has no dot at either end and, if dotted, the key of the host that set it |
| `CookieJar.SetOneOk` | pkg/http/cookiejar/jar.go:254-284 | setting, replacing or removing one cookie keeps paths, keys and unique numbers |
| `CookieJar.UsedOk` | pkg/http/cookiejar/jar.go:185-205 | a request's cleaning and marking keeps them |
| `CookieJar.StepOk` | pkg/http/cookiejar/jar.go:159-293 | every call keeps the invariant over all buckets |
| `CookieJar.RunOk` | pkg/http/cookiejar/jar.go:159-293 | over every run stored paths start with a slash, entries lie where they belong, and sequence numbers are unique in the whole jar |
| `CookieJar.BucketFindsAll` | pkg/http/cookiejar/jar.go:119-149 | for named hosts, with host cookies and dotted domains only, the bucket yields exactly what a scan of all entries yields |
| `CookieJar.BucketIff` | pkg/http/cookiejar/jar.go:159-205 | the two agree for all requests to named hosts if and only if every domain cookie has an interior dot |
| `CookieJar.DotlessIsMissed` | pkg/http/cookiejar/jar.go:327-355 | for each other cookie a request that misses it |
| `CookieJar.DotlessIsStored` | pkg/http/cookiejar/jar.go:446-503 | a concrete call that stores such a cookie |
| `CookieJar.SortedUnique` | pkg/http/cookiejar/jar.go:207-223 | entries have one sorted order, so output does not depend on map order |
| `CookieJar.SortEntries` | pkg/http/cookiejar/jar.go:207-218 | sorted by path length, creation and number, with the same entries |
| `CookieJar.Jar.SetFrom` | pkg/http/cookiejar/jar.go:233-293 | the loop's new jar is that of `CookieLaws.SetStores`, cookie by cookie, and the old one for a foreign scheme or a bad host |
| `CookieJar.Jar.Walk` | pkg/http/cookiejar/jar.go:185-198 | walking the bucket in any order drops the expired, marks and selects the matching |
| `CookieJar.Jar.CookiesFor` | pkg/http/cookiejar/jar.go:159-224 | returns exactly the matching cookies of the bucket, sorted, and leaves the jar cleaned |
| `CookieLaws.LowerLetters` | pkg/http/cookiejar/jar.go:472 | a domain is lowered letter by letter, A to Z alone |
| `CookieLaws.SetStores` | pkg/http/cookiejar/jar.go:254-284 | a cookie the host may set is stored with its value, attributes and lifetime, in place of the one of the same domain, path and name, whose creation time and number it keeps; one already expired removes that one; other entries stay |
| `CookieLaws.RefusedIsNothing` | pkg/http/cookiejar/jar.go:446-503 | a cookie for a domain that is malformed, or neither the host's own nor above it, or for an address with a domain, changes nothing |
| `CookieLaws.SetThenAsk` | pkg/http/cookiejar/jar.go:159-293 | after a cookie is set, a request that looks in its bucket gets its name and value if and only if host, path and scheme match and it has not expired: Max-Age first, else Expires, else never |
| `CookieLaws.LooksThere` | pkg/http/cookiejar/jar.go:327-355 | every matching request looks in that bucket, for host cookies and, for named hosts, for domains with an interior dot |
| `CookieLaws.OthersAnswer` | pkg/http/cookiejar/jar.go:254-284 | every other cookie answers every request as before |
| `CookieLaws.SetsInTurn` | pkg/http/cookiejar/jar.go:254-284 | several cookies are set one after the other |
| `CookieLaws.AskKeeps` | pkg/http/cookiejar/jar.go:185-205 | a request takes nothing from later ones |
| `CookieLaws.OrderIs` | pkg/http/cookiejar/jar.go:207-218 | longer paths come first, then earlier creation, then lower numbers |
| `CookieLaws.IdIsTriple` | pkg/http/cookiejar/jar.go:112-114 | without semicolons in domain and path, different cookies have different ids |
| `CookieLaws.IdsCollide` | pkg/http/cookiejar/jar.go:112-114 | with one in a path two cookies share an id |
| `CookieHeader.SanitizeOrWarn` | pkg/http/cookie.go:379-399 | the valid bytes of the value, in order |
| `CookieHeader.ByteClasses` | pkg/http/cookie.go:365-367 | valid value bytes, token characters and white space by their numbers |
| `CookieHeader.ValidBytesConcat` | pkg/http/cookie.go:379-399 | the valid bytes of a value are those of its parts in order |
| `CookieHeader.PrintedIs` | pkg/http/cookie.go:338-363 | a value is quoted if and only if a space or comma remains, and only line breaks in a name change |
| `CookieHeader.ParseCookieValue` | pkg/http/cookie.go:401-412 | strips one pair of quotes and refuses invalid bytes |
| `CookieHeader.ReadCookies` | pkg/http/cookie.go:228-264 | the loops read line by line and part by part |
| `CookieHeader.ReadLines` | pkg/http/cookie.go:228-264 | only valid names, valid values and names that pass the filter are returned |
| `CookieHeader.ReadTrimmed` | pkg/http/cookie.go:236-245 | white space around a line or a part does not matter |
| `CookieHeader.PartIs` | pkg/http/cookie.go:240-259 | any part gives the cookie before and after its first '=', without one pair of quotes, if and only if name and value are valid and the filter lets it pass |
| `CookieHeader.ParsePrinted` | pkg/http/cookie.go:354-363 | a printed value, quoted or not, parses to its valid bytes |
| `CookieHeader.ReadPrinted` | pkg/http/cookie.go:240-259 | a printed cookie with a token name is read back |
| `CookieHeader.AddCookieReads` | pkg/http/request.go:401-408 | whatever the header line was, adding a cookie with a token name adds exactly that cookie at the end, for every filter |
| `CookieHeader.AddedAllReads` | pkg/http/request.go:401-408 | cookies added one by one are read back in order through every filter |
| `CookieHeader.CookiesRoundTrip` | pkg/http/cookie.go:228-264 | all cookies come back in order, each with the valid bytes of its value, if and only if all names are tokens |
| `CookieHeader.Request.AddCookie` | pkg/http/request.go:401-408 | the new Cookie entry of the header, and what reading it then gives |

## Left out

- Sockets, TLS, timers, goroutine start-up, HPACK, gzip, tracing, logging and configuration are inputs or absent.
- `PriorityPop.PriorityWriteScheduler.Pop`: `sort.Sort` counts as producing any permutation, since its order is not strict; `subtreeBytes` is what was charged to a node and is not claimed to be a sum over its present subtree, because setParent does not move it.
- OpenStream and CloseStream of the priority scheduler.
- `Punycode.Encode`: labels of 2^31 or more code points are not modelled.
- `StreamRuns.RunInv`: the panics for closing a closed stream and for sending on one stay possible, exactly as `StreamRuns.PanicIff` and `StreamRuns.DeadIff` say; which queued frames flow control holds back is left open, so the scheduler may pick any.
- `ServerConn.ServerConn.Accept`: receive windows, and whether the body takes the data, are inputs; body sizes are unbounded rather than 64-bit.
- Conservation of the receive window: closing a stream refunds bytes a handler may still refund.
- The client side of HTTP/2.
- `DataBuffer.Buffer.Write`: sizes and the expected length are unbounded rather than 64-bit.
- `Pipe.Pipe.Read`: blocking is a reply "waiting"; the condition variable and the done channel are not modelled.
- `Frames.ReadWire`: frame reuse, reading in parts and illegal-write mode are not modelled.
- `MutexQueue.RunInv`: callers unlock only what they hold.
- `RoutingRuns.RunInv`: what is read from and written to the sockets, and whether a dial works, is free; closing the sockets and cleaning up the request are not modelled.
- `IdlePool.RunInv`: waiting dialers and the timing of the idle timer are inputs; the shared backing array of the slices is not modelled; MaxConnsPerHost is absent.
- `CookieLaws.SetThenAsk`: the clock does not go back between setting and asking.
- `CookieJar.RunOk`: hosts are given in canonical form; case folding is ASCII; sequence numbers are unbounded rather than 64-bit; SameSite and public suffix lists are absent.
- `CookieHeader.ReadLines`: white space is ASCII.
- Content sniffing, ranges, status tables, CGI, SOCKS, file serving, the request queue and the TempWriter: only easy properties or none that hold.
