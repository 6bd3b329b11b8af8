# What the buffers, the JSON handles and the connections keep

A Dafny model of the parts of this repository whose correctness depends on state
that changes step by step: the sliced byte buffer and its watermarks, the C-API
JSON heap with its converter and normaliser, the connection manager with its
URLs, the connection pool, and the buffer handles and pools of the C API.

Objects the source changes in place are classes here, with the same fields and
loops; each of their methods is proved against a function on values, and what
the source promises is proved about those functions: for one call, and over
every run of calls, turns or steps. `dafny verify dfyconfig.toml` checks all of it.

## The parts

**The buffer.** `Slices` and `Buffers` hold the classes. A slice is an array
with a moving base, a capacity and a used count; a fragment's memory is never in
the set a buffer may write. The ghost field `Views` says what the slices mean,
and `SliceViews` says what every operation does to that meaning and that it does
to the concatenated bytes what it would do to a plain byte queue. `BufferRuns`
takes this over runs on any number of buffers, moves between them included, and
shows that no drain-tracker attachment is lost or doubled; what each tracker is told,
and in which order, is `DrainTells`. `TypedInts` covers
integers read and written in either byte order, `BufferSearch` the search,
`Reservations` the read reservation, `Watermarks` the hysteresis. Adding a whole
buffer checks the marks for each piece and once more for the whole, so it makes its
callbacks twice (`HighDoubled`).

Three promises hold only under a condition, and the condition is proved exact:
adding a buffer copies all of it exactly when it has at most 16 non-empty slices;
the search finds what a naive one finds exactly when no slice boundary cuts that
match; and a non-empty commit of a read reservation succeeds exactly when no slice
before the last has room, which a fragment behind partly filled data already breaks.

One more holds of the whole. A slice of at most 512 bytes keeps them inside itself, and
once it is drained in part a move of the slice leaves them behind
(src/buffer/buffer_impl.cc:100-104, 124-127). `InlineSlices` says which operations move
which slices, and that the buffers are byte queues all through a run exactly when no
such slice is moved (`RunInPlace`); a prepend of two bytes, a drain of one and a prepend
of 600 already move one (`PrependLosesInline`). Buffers that are only added to, read
into, drained and moved from have no such slices (`NothingSmallStays`).

**The JSON heap.** `JsonForest` says what a forest of nodes is, `JsonHeaps` what
the C calls do to one and that every call of a correct caller keeps it, with each
node created being live or deleted once. `JsonApi` is the heap as an object,
recursive free included. `JsonConverter` takes values to handles and back;
`JsonValues` says what such a trip makes of a value. Integers lie between -2^63 and
2^64; they are read as signed ones, so those of 2^63 and more come back negative
(`OwnDouble`, `LargestWraps`). When two keys of an object become the same C string the
key walked last wins and the other field is lost: `FieldsKept` says exactly when none is.

**The normaliser.** `FilterConfig` rewrites a filter chain in place.
`JsonValue::erase` (src/json/json_bridge.cc:421-426) always erases from the value's
own storage. For a value that views a part of another one that storage is null, so
erasing throws. `filters[i]` (src/c_api/json_value_converter.cc:277) is always such a
view (src/json/json_bridge.cc:267-293): the chain as written is the one of `OwnNull`,
which is normalised exactly when no filter has an object as `typed_config`, although
its documentation promises a moved one. `TheValue` is what `normalizeTypedConfig` does
to a value of one's own, and what the chain would do if erasing reached the value
referred to. Everything is proved for both.

**The connection manager.** `ConnectionTurns` is a system of turns: posted writes,
answers, retirements, connection events, calls on the dispatcher thread, and the
deletion of handed connections, in any order. `HeaderIsolation` shows that every
write is seen with the headers its own request is due and that messages are
recorded in wire order; `RequestForms` says what those headers are, one by one;
`MessageTurns` that every message accepted is written once and in its order, sent
apart, dropped for want of a connection, or still waiting; `ManagerEffects` what each
call and each event changes, and that nothing else does; `ConnectionHolding` and `ConnectionSafety` that listeners
of answers and subscriptions live as long as they may be called, that connections
are unhooked before they are closed and handed to deletion once, and that a late
retirement cannot reach another answer. What must not happen is recorded by the
connections themselves, as faults; the theorems say which faults no run records.
`ConnectionManagers` is the manager as an object.

A connection that is closed tells its listener inside the call, and nothing after it
(src/network/connection_impl.cc:412-433, 1098-1189); one that is destroyed before it is
closed closes itself first (402-408). One close may be told several times, because the
layers of a transport raise it as well (1157, src/transport/tcp_transport_socket.cc:111,
src/transport/http_sse_transport_socket.cc:259): how often is any number, for each
connection its own (`echoes`).

Four findings come with exact conditions. A manager of the older HTTP transport that
is given a header map of its own sends its first, empty write under that map
(`HeadersHold`, `NudgeUnderGiven`). A manager told to connect while its connection is
still open destroys that one with the new one already in its place; the close event
hands the new one to deletion, and the next line uses what is no longer there
(`RunSafe`, `ConnectTwice`). A connection that was active and closes late, when it is
told to or when it is deleted, lets go of the one that is active by then, open or not
(`ActiveLetGo`, `OpenLetGo`). And the opener of a server stream, which is not unhooked
but destroyed two openings later, is safe in every run of whole turns, but not from an
application that opens streams from inside the close event of the one before: two in
all the tellings of that close together lose it (`OpenerLost`, `OneEach`), and a client
that takes up its stream again at once opens one in each (src/client/mcp_client.cc:1280).

**URLs.** `EndpointUrls` resolves a relative endpoint against the server address and
splits it for a POST. The authority is read by the last colon in one place and by
the first in the other, and the port goes through 32 bits in one and 16 in the
other; `EndpointRoundTrip` says exactly for which addresses the two agree
(compare RFC 3986, section 3.2).

**The connection pool.** In `ConnectionPools` the state of a connection and the list
it is in are separate. Creating a stream makes the state busy before the list is
looked up, so a used-up connection is never moved: the busy list stays empty, a
stream that ends frees no capacity, and a used-up connection at the front of the
ready list keeps all others from being given until it closes (`BlockedForGood`).
The bounds hold exactly when connections may carry a stream at all (`BoundsHold`).
Erasing a node through another list's name takes it out of the list it is in.

**Handles and buffer pools.** In `BufferPools` a call that takes two locks is two
steps and callers interleave. A handle is live while nobody is releasing it.
`RunExclusive` needs that no handle is used or released while it is being released;
`ReleasedTwice` is a run that breaks the rule in one step, and what it leads to.

## Model

| member | source | states |
|---|---|---|
| Slices.Slice.constructor | src/buffer/buffer_impl.cc:65-75 | A new slice is empty and writable, with room for the size asked for, but never less than the inline size. |
| Slices.Slice.FromFragment | src/buffer/buffer_impl.cc:77-83 | A fragment becomes a full, read-only slice over the fragment's own memory. |
| Slices.Slice.Reserve | src/buffer/buffer_impl.cc:141-149 | Succeeds exactly when the slice is writable and has the room, and names the first free byte. |
| Slices.Slice.Commit | src/buffer/buffer_impl.cc:152-164 | Succeeds exactly when the raw slice names the first free byte and is long enough, and then the bytes lying there become data; a failure changes nothing. |
| Slices.Slice.Append | src/buffer/buffer_impl.cc:167-177 | Copies as many bytes as fit behind the data and says how many; a read-only slice takes none and its memory is not written. |
| Slices.Slice.Prepend | src/buffer/buffer_impl.cc:180-193 | All or nothing: the old data survives the shift and the new data stands in front of it. |
| Slices.Slice.Drain | src/buffer/buffer_impl.cc:196-218 | Fails above the data size; otherwise the front goes, and draining everything tells each tracker once, in their order, how many bytes went, and clears them. |
| Slices.Slice.AttachDrainTracker | src/buffer/buffer_impl.cc:232-234 | One more tracker waits on the slice; its data stays. |
| Buffers.OwnedBuffer.Add | src/buffer/buffer_impl.cc:392-418 | Appends exactly the given bytes to the byte queue, whatever the last slice can take, and the loop terminates; byte count and slices stay consistent. |
| Buffers.OwnedBuffer.AddBufferFragment | src/buffer/buffer_impl.cc:420-427 | Appends the fragment's bytes without copying; its memory joins the set the buffer never writes. |
| Buffers.OwnedBuffer.Prepend | src/buffer/buffer_impl.cc:429-455 | Puts exactly the given bytes in front of the byte queue, in the front slice or in a new one. |
| Buffers.OwnedBuffer.Drain | src/buffer/buffer_impl.cc:457-487 | Fails exactly when more than the length is asked for; otherwise the queue loses exactly its first bytes, and slice by slice the trackers of those emptied are told, in their order, how many bytes each held. |
| Buffers.OwnedBuffer.Move | src/buffer/buffer_impl.cc:489-525 | For two separate buffers, takes the first min(n, length) bytes off the source and puts them behind the destination, slices travelling whole or one being split; both stay valid and separate. |
| Buffers.OwnedBuffer.MoveWholeFront | src/buffer/buffer_impl.cc:504-513 | A whole slice changes buffers with its memory, room and trackers, and both byte counts follow. |
| Buffers.OwnedBuffer.SplitFront | src/buffer/buffer_impl.cc:514-523 | A split copies the front part behind the destination and drains it from the source. |
| Buffers.OwnedBuffer.GetRawSlices | src/buffer/buffer_impl.cc:556-584 | Names, in order, the data of the first non-empty slices, up to the maximum. |
| Buffers.OwnedBuffer.FrontSlice | src/buffer/buffer_impl.cc:586-595 | Names the front slice's data, or nothing when there is none. |
| Buffers.OwnedBuffer.AddBuffer | src/buffer/buffer_impl.cc:768-781 | Copies the first 16 non-empty slices of the source, so it appends the whole of it exactly when it has no more than 16. |
| Buffers.OwnedBuffer.Linearize | src/buffer/buffer_impl.cc:597-632 | Changes no byte and no length, and returns the first min(n, length) bytes as one contiguous piece; the trackers of the slices it empties are told what each held. |
| Buffers.OwnedBuffer.CopyOut | src/buffer/buffer_impl.cc:705-734 | Copies the bytes of the queue from the start on, as many as there are, for any slicing. |
| Buffers.OwnedBuffer.StartsWith | src/buffer/buffer_impl.cc:667-689 | True exactly when the pattern is a prefix of the byte queue, for any slicing. |
| Buffers.OwnedBuffer.ToString | src/buffer/buffer_impl.cc:736-748 | The byte queue itself. |
| Buffers.OwnedBuffer.Search | src/buffer/buffer_impl.cc:634-665 | The leftmost match at or after the start that lies inside one slice, and none exactly when there is none. |
| Buffers.OwnedBuffer.AttachDrainTracker | src/buffer/buffer_impl.cc:695-703 | The tracker joins every slice that has data, and nothing else changes. |
| Buffers.OwnedBuffer.ReserveSingleSlice | src/buffer/buffer_impl.cc:531-541 | A new empty slice at the end and the whole space asked for in it; the contents stay. |
| Buffers.OwnedBuffer.Commit | src/buffer/buffer_impl.cc:543-554 | Goes to the first slice whose memory the raw slice points into and succeeds exactly when it is writable and the raw slice names its first free byte; a failure changes nothing. |
| Buffers.OwnedBuffer.ReserveWriteCommit | src/buffer/buffer_impl.cc:531-554 | Reserving, writing and committing with nothing in between extends the queue by exactly the committed bytes and keeps the byte count. |
| Buffers.OwnedBuffer.WriteLEInt | include/mcp/buffer.h:328-332 | Appends the value's memory, least significant byte first. |
| Buffers.OwnedBuffer.WriteBEInt | include/mcp/buffer.h:334-339 | Appends the value's memory reversed. |
| Buffers.OwnedBuffer.ReadLEInt | include/mcp/buffer.h:341-351 | Takes the value's bytes off the front and returns the value, or fails without a change when there are too few. |
| Buffers.OwnedBuffer.ReadBEInt | include/mcp/buffer.h:353-358 | The same for the other byte order. |
| Buffers.OwnedBuffer.PeekLEInt | include/mcp/buffer.h:360-369 | Returns the value at an offset, or fails; the buffer does not change. |
| Buffers.OwnedBuffer.PeekBEInt | include/mcp/buffer.h:371-376 | The same for the other byte order. |
| Reservations.ReservationImpl.constructor | src/buffer/buffer_impl.cc:316-351 | Reserves all the room of the first writable slice that has any, else a new slice of the default size; the byte queue stays. |
| Reservations.ReservationImpl.Commit | src/buffer/buffer_impl.cc:357-376 | Commits into the last slices; a non-empty commit succeeds exactly when the slice reserved in is the last one, and then extends the queue by the committed bytes. |
| SliceViews.FlatAdd | src/buffer/buffer_impl.cc:392-418 | Adding appends, over every slice list. |
| SliceViews.FlatPrepend | src/buffer/buffer_impl.cc:429-455 | Prepending puts the bytes in front, over every slice list. |
| SliceViews.FlatDrain | src/buffer/buffer_impl.cc:457-487 | Draining removes exactly the front. |
| SliceViews.FlatMove | src/buffer/buffer_impl.cc:489-525 | A move loses and doubles no byte: what the source loses is what the destination gains, in order. |
| SliceViews.FlatLinearize | src/buffer/buffer_impl.cc:597-632 | Coalescing keeps the bytes and makes the prefix contiguous in the front slice. |
| SliceViews.FlatAddBuffer | src/buffer/buffer_impl.cc:768-781 | Adding a buffer appends all of it exactly when it has at most 16 non-empty slices. |
| SliceViews.NewCapacity | src/buffer/buffer_impl.cc:65-83 | A slice of its own has room for 512 bytes and for what it was made for; a fragment's is full and read only. |
| SliceViews.AddFills | src/buffer/buffer_impl.cc:398-416 | Adding fills the last slice first; another one, of 16384 bytes or of what is left, is made exactly when that is not enough, and no other slice changes. |
| SliceViews.PrependFits | src/buffer/buffer_impl.cc:433-450 | A prepend goes into the front slice exactly when all of it fits there, and else into one of its own. |
| SliceViews.ReserveRoom | src/buffer/buffer_impl.cc:323-349 | A read reservation takes the first slice with room, or a new one of 4096 bytes. |
| SliceViews.SixteenRaw | src/buffer/buffer_impl.cc:768-778 | Of another buffer the first 16 slices with data are added, and of a query as many as it has room for. |
| SliceViews.ReservedLast | src/buffer/buffer_impl.cc:323-361 | A read reservation lies in the last slice, where its commit goes, exactly when no earlier slice has room. |
| SliceViews.ReservedBehindFragment | src/buffer/buffer_impl.cc:323-361 | Data followed by a fragment: the reservation lies in the first slice while the commit would go to the last. |
| SliceViews.PendingDrain | src/buffer/buffer_impl.cc:195-218 | Draining turns waiting attachments into fired ones, one for one. |
| SliceViews.PendingMove | src/buffer/buffer_impl.cc:489-525 | A move carries waiting attachments along and fires none. |
| SliceViews.PendingLinearize | src/buffer/buffer_impl.cc:597-632 | Coalescing fires what it drains and keeps the rest waiting. |
| SliceViews.WholeAreEmptied | src/buffer/buffer_impl.cc:462-486 | Exactly which slices a drain takes whole: those that end within it while there is something left to drain. |
| SliceViews.DrainTells | src/buffer/buffer_impl.cc:207-210 | A drain calls the trackers of the slices it takes whole, slice by slice and in their order, each with the bytes that slice held. |
| SliceViews.LinearizeTells | src/buffer/buffer_impl.cc:605-628 | So does coalescing for the slices it drains, and nobody is called when there is nothing to copy together. |
| SliceViews.OnDataMove | src/buffer/buffer_impl.cc:489-525 | After a move every waiting tracker still sits on a slice with data, in both buffers. |
| SliceViews.OnDataLinearize | src/buffer/buffer_impl.cc:597-632 | The same after coalescing. |
| BufferRuns.StepIsQueueStep | src/buffer/buffer_impl.cc:392-554 | Each operation does to the sliced buffers what it does to plain byte queues. |
| BufferRuns.RunIsQueueRun | src/buffer/buffer_impl.cc:392-554 | Over every run over any number of buffers, the concatenated slices are the byte queues the same calls build; for slices that keep bytes inside themselves, as long as `RunInPlace` says. |
| BufferRuns.StepBalance | src/buffer/buffer_impl.cc:195-218 | Attachments waiting and fired change, in each operation, by exactly the attachments made. |
| BufferRuns.StepOnData | src/buffer/buffer_impl.cc:457-525 | No operation leaves a tracker on a slice without data. |
| BufferRuns.RunConserves | src/buffer/buffer_impl.cc:695-703 | Over every run, attachments made are attachments waiting plus attachments fired, so none is lost and none fires twice. |
| BufferRuns.RunFromEmpty | src/buffer/buffer_impl.cc:695-703 | The same from empty buffers, without a condition on the start. |
| InlineSlices.StepViews | src/buffer/buffer_impl.cc:392-554 | Places aside, the operations on slices with places are those on views. |
| InlineSlices.StepSound | src/buffer/buffer_impl.cc:100-127 | Exactly which operations leave every slice its bytes: those that move none that is drained in part and keeps its bytes inside itself. |
| InlineSlices.RunInPlace | src/buffer/buffer_impl.cc:85-128 | All through a run of the operations on any number of buffers, whenever vectors grow, every slice has its bytes and together they are the byte queues, exactly when no operation moves such a slice. |
| InlineSlices.DrainIs | src/buffer/buffer_impl.cc:457-487 | What a drain leaves: moved when a whole slice went, and drained on in front. |
| InlineSlices.MoveSound | src/buffer/buffer_impl.cc:489-525 | A move leaves every slice of both buffers its bytes exactly when no whole slice goes or none of the source must stay, and the destination does not grow around one that must. |
| InlineSlices.PrependLosesInline | src/buffer/buffer_impl.cc:429-455 | Two bytes prepended, one drained, and a prepend of more than 510 bytes: the byte that is left is not in its slice any more. |
| InlineSlices.NothingSmallStays | src/buffer/buffer_impl.cc:65-75 | A run that makes no slice of at most 512 bytes moves none that must stay. |
| InlineSlices.MustStay | src/buffer/buffer_impl.cc:65-75 | A slice made for some bytes and drained in part must stay where it is exactly when they are at most 512. |
| TypedInts.SwapBytes | include/mcp/buffer.h:378-390 | The loop reverses the bytes of the value in memory, for every width and signedness. |
| TypedInts.LoadMemory | include/mcp/buffer.h:341-348 | Storing and loading a value gives it back. |
| TypedInts.MemoryLoad | include/mcp/buffer.h:341-348 | Loading and storing bytes gives them back. |
| TypedInts.SwappedMemory | include/mcp/buffer.h:378-390 | Swapping reverses the memory and undoes itself. |
| TypedInts.WrittenOrder | include/mcp/buffer.h:328-339 | Little-endian writes put the least significant byte first, big-endian ones the most significant. |
| TypedInts.ReadBackEncoded | include/mcp/buffer.h:328-358 | However slices cut the bytes, the values come back in order and the rest of the queue is left. |
| TypedInts.ReadBack | include/mcp/buffer.h:328-358 | Any mixed sequence of writes reads back as it was written, with nothing left. |
| TypedInts.ReadsRunOut | include/mcp/buffer.h:341-351 | Reads run out exactly when there are fewer bytes than the values take, and leave the rest. |
| BufferSearch.SearchAgreesWithNaive | src/buffer/buffer_impl.cc:655-659 | The search agrees with a naive leftmost one exactly when no slice boundary cuts the match the naive one finds; what it finds is always a true match. |
| BufferSearch.SearchAfterLinearize | src/buffer/buffer_impl.cc:597-665 | After coalescing everything the search is the naive one. |
| BufferSearch.BoundaryHidesMatch | src/buffer/buffer_impl.cc:655-659 | A concrete match over a boundary that is not found. |
| Watermarks.WatermarkBuffer.SetWatermarks | src/buffer/buffer_impl.cc:855-860 | Low is half of high, and the overflow mark is the product in 32 bits. |
| Watermarks.WatermarkBuffer.CheckWatermarks | src/buffer/buffer_impl.cc:866-891 | The three checks in their order, flags and callbacks. |
| Watermarks.WatermarkBuffer.Add | src/buffer/buffer_impl.cc:893-903 | An add, then the checks against the length before. |
| Watermarks.WatermarkBuffer.AddBuffer | src/buffer/buffer_impl.cc:905-909 | Another buffer is added piece by piece, each piece checked, and then the whole is checked against the first length. |
| Watermarks.WatermarkBuffer.Drain | src/buffer/buffer_impl.cc:911-915 | A drain, then the checks; a failing drain changes nothing. |
| Watermarks.WatermarkBuffer.Move | src/buffer/buffer_impl.cc:923-927 | A move out, then the checks. |
| Watermarks.RunKeepsConsistent | src/buffer/buffer_impl.cc:866-927 | Every run of adds, adds of whole buffers, drains and move-outs keeps: above high the flag is set, below low it is not, and the trace of high and low callbacks has the form (high+ low)* high*, and the other flag is set exactly when overflow was ever called. |
| Watermarks.RunFromEmpty | src/buffer/buffer_impl.cc:855-927 | So does every run from an empty buffer with any marks. |
| Watermarks.SetMarksConsistent | src/buffer/buffer_impl.cc:855-860 | Setting marks anew keeps that meaning exactly when the flag fits the length under the new marks. |
| Watermarks.CheckedCalls | src/buffer/buffer_impl.cc:866-891 | Exactly which callbacks one check makes, from the length before and the length now. |
| Watermarks.NewCalls | src/buffer/buffer_impl.cc:893-927 | A change of one piece makes exactly the callbacks of one check. |
| Watermarks.GrownCalls | src/buffer/buffer_impl.cc:773-777 | The pieces of another buffer make each upward callback once, in all, when they cross its mark, and no low callback. |
| Watermarks.HighCallback | src/buffer/buffer_impl.cc:877-909 | Every upward crossing of the high mark makes the high callback, set flag or not: once, and twice when another buffer is added; the overflow callback alike. |
| Watermarks.HighDoubled | src/buffer/buffer_impl.cc:905-909 | A high callback is doubled exactly when another buffer is added and crosses the mark. |
| Watermarks.PieceTwice | src/buffer/buffer_impl.cc:905-909 | One slice of 150 bytes into an empty buffer makes the high callback twice, the mark at 100. |
| Watermarks.HighTwice | src/buffer/buffer_impl.cc:877-882 | A run that makes it twice with no low callback between. |
| Watermarks.OverflowImpliesHigh | src/buffer/buffer_impl.cc:855-882 | Overflow implies the high flag, for every consistent buffer with these marks and every change, exactly when the product in 32 bits is not below the high mark; one that does not wrap is not. |
| Watermarks.WrappedOverflow | src/buffer/buffer_impl.cc:855-860 | A wrapped overflow mark reports overflow below the high mark. |
| JsonValues.OwnDouble | src/json/json_bridge.cc:170-219 | A handle holds the double nearest to an integer exactly when the integer is below 2^63; from there on it wraps. |
| JsonValues.LargestWraps | src/json/json_bridge.cc:214-219 | 2^64 - 1 comes back as -1.0. |
| JsonValues.RoundedExact | src/c_api/json_value_converter.cc:54-57 | An integer keeps its value exactly when it is below 2^63 and the spacing of doubles at its size divides it; all up to 2^53 in size do. |
| JsonValues.NearestMeaning | src/c_api/json_value_converter.cc:54-57 | The double of an integer is the nearest one, and on a tie the even one. |
| JsonValues.FirstInexact | src/c_api/json_value_converter.cc:54-57 | 2^53 + 1 is the first that does not. |
| JsonValues.HandledPlain | src/c_api/json_value_converter.cc:45-92 | What comes back holds no integer and no NUL. |
| JsonValues.HandledTwice | src/c_api/json_value_converter.cc:45-208 | A second round trip is the identity. |
| JsonValues.HandledSameButCut | src/c_api/json_value_converter.cc:45-208 | While no two keys of an object collapse, the round trip is the value with integers replaced by the doubles of what they are read as in 64 signed bits, and strings and keys cut at their first NUL, field by field. |
| JsonValues.FieldsKept | src/c_api/json_value_converter.cc:79-88 | An object keeps all its fields exactly when no two keys become the same C string. |
| JsonForest.AttachedIsForest | src/c_api/mcp_c_collections_impl.cc:556-569 | Attaching a live, unattached value outside its own subtree keeps the forest. |
| JsonForest.DetachedIsForest | src/c_api/mcp_c_collections_impl.cc:582-588 | Taking a child off keeps the forest. |
| JsonForest.PrunedIsForest | src/c_api/mcp_c_collections_impl.cc:484-504 | Deleting a whole unattached subtree keeps the forest. |
| JsonForest.TreeOfSubtree | src/c_api/mcp_c_collections_impl.cc:484-504 | What is below a node, as a tree, is exactly the subtree: closed, and owned only from inside. |
| JsonForest.TreeOfProper | src/c_api/mcp_c_collections_impl.cc:484-504 | No node occurs twice in it. |
| JsonHeaps.AppendIsForest | src/c_api/mcp_c_collections_impl.cc:556-569 | An append keeps at most one parent per node and no cycle. |
| JsonHeaps.SetIsForest | src/c_api/mcp_c_collections_impl.cc:571-593 | So does setting a key, with or without a value replaced. |
| JsonHeaps.SetKeys | src/c_api/mcp_c_collections_impl.cc:582-589 | Setting a key takes exactly the replaced value's subtree off the heap. |
| JsonHeaps.FreeIsForest | src/c_api/mcp_c_collections_impl.cc:484-504 | Freeing an unattached value keeps the forest of the rest. |
| JsonHeaps.CallKeepsForest | src/c_api/mcp_c_collections_impl.cc:398-593 | Every call of a correct caller keeps the forest and accounts for every node. |
| JsonHeaps.RunKeepsForest | src/c_api/mcp_c_collections_impl.cc:398-593 | In every state such calls reach, live nodes form a forest and each node created is live or was deleted once. |
| JsonApi.JsonHeap.Create | src/c_api/mcp_c_collections_impl.cc:398-482 | A new node nobody owns; the rest of the heap stays. |
| JsonApi.JsonHeap.CreateString | src/c_api/mcp_c_collections_impl.cc:429-443 | A null pointer gives no node; otherwise the string up to its first NUL. |
| JsonApi.JsonHeap.Free | src/c_api/mcp_c_collections_impl.cc:484-504 | The recursion deletes every node of the subtree exactly once and nothing else; a null pointer does nothing. |
| JsonApi.JsonHeap.ArrayAppend | src/c_api/mcp_c_collections_impl.cc:556-569 | The error cases, and otherwise the value at the end of the array. |
| JsonApi.JsonHeap.ObjectSet | src/c_api/mcp_c_collections_impl.cc:571-593 | The error cases, and otherwise the key with its new value and the old subtree freed, every node once. |
| JsonConverter.ConvertToHandle | src/c_api/json_value_converter.cc:45-92 | Adds to the heap exactly one tree nobody owns, whose value is the value as handles hold it. |
| JsonConverter.ConvertFromCApi | src/c_api/json_value_converter.cc:96-208 | Reads a tree back as its value; a null pointer reads as null. |
| JsonConverter.RoundTrip | src/c_api/json_value_converter.cc:45-208 | To handles, back, and freed: the value has become what handles hold and the heap is what it was. |
| JsonConverter.TreeUnique | src/c_api/mcp_c_collections_impl.cc:484-504 | A tree found at a live address is the tree below it, so freeing what was built frees all of it. |
| FilterConfig.Configuration.NormalizeFilterChain | src/c_api/json_value_converter.cc:250-317 | In place: the defaults of the configuration, then its filters; what an exception leaves behind included. |
| FilterConfig.Configuration.NormalizeFilters | src/c_api/json_value_converter.cc:273-311 | The loop over the filters, with its count. |
| FilterConfig.Configuration.NormalizeFilter | src/c_api/json_value_converter.cc:277-310 | One filter: checked, its typed config moved, its defaults filled in. |
| FilterConfig.Configuration.NormalizeTypedConfig | src/c_api/json_value_converter.cc:220-248 | The typed config replaces the config, without its type; nothing happens when there is none. |
| FilterConfig.FilterMeaning | src/c_api/json_value_converter.cc:277-310 | A filter succeeds exactly when it is an object with a string type and nothing to erase through a view. Then, field by field: name, enabled, enabled_when and config are the ones given or else type:index, true, an empty object and an empty object, a typed config is the config without its type, and no other field changes. |
| FilterConfig.FilterRefused | src/c_api/json_value_converter.cc:277-291 | The first thing wrong with a refused filter, and what is left of it: its typed config moved already, and not erased through a view. |
| FilterConfig.FiltersMeaning | src/c_api/json_value_converter.cc:276-311 | The loop succeeds exactly when every filter does, and changes each by itself. |
| FilterConfig.ChainMeaning | src/c_api/json_value_converter.cc:250-317 | Normalizing succeeds exactly for an object with an array of such filters, and then the name is the one given or default, the transport type the one given or tcp, every filter is completed, every other field is kept, and one is counted for each typed config. |
| FilterConfig.ChainRefused | src/c_api/json_value_converter.cc:250-317 | Which error a refused configuration gives and what is left of it: the defaults of its head, the filters in front of the first refused one completed, that one as its refusal leaves it, and the rest as they were. |
| FilterConfig.ChainIdempotent | src/c_api/json_value_converter.cc:250-317 | After a successful run a second one changes nothing and counts nothing. |
| FilterConfig.TypedConfigInView | src/json/json_bridge.cc:421-426 | With filters that are views, erasing works on the view's own null and a typed config makes the run throw. |
| FilterConfig.FallbackNamesDistinct | src/c_api/json_value_converter.cc:293-298 | Fallback names of different filters differ, whatever their types. |
| Decimals.NumeralOfDecimal | src/c_api/json_value_converter.cc:296-296 | A number's decimal form stands for that number. |
| EndpointUrls.SplitResolved | src/mcp_connection_manager.cc:1305-1400 | A relative endpoint resolved against an address without a slash splits into the scheme, that address and the path made absolute. |
| EndpointUrls.EndpointRoundTrip | src/mcp_connection_manager.cc:90-115 | Resolve, then split: the host and port are the ones the connection resolves exactly when the address is a host alone under the same TLS choice, or a host without colon or slash and a decimal port up to 65535; then scheme and path are right too. |
| EndpointUrls.EndpointAgainstConnection | src/mcp_connection_manager.cc:117-119 | With the localhost rewrite, which only the connection makes, they differ for localhost as well. |
| EndpointUrls.EndpointKept | src/mcp_connection_manager.cc:1308-1313 | Absolute endpoints and endpoints without a server address pass through; only the second are refused by the split. |
| EndpointUrls.ResolvedIsAbsolute | src/mcp_connection_manager.cc:1305-1319 | What is resolved once is absolute and resolves to itself against any server. |
| EndpointUrls.SplitOfUrl | src/mcp_connection_manager.cc:1366-1398 | A URL written from scheme, host, port and path splits into them. |
| EndpointUrls.LargePort | src/mcp_connection_manager.cc:1394-1398 | A port above 65535 is connected to as it is and posted to modulo 65536. |
| EndpointUrls.StoiOfDigits | src/mcp_connection_manager.cc:105-116 | A string of digits parses to its number, or throws above the range of int. |
| EndpointUrls.StoiMeaning | src/mcp_connection_manager.cc:1394-1398 | Spaces, a sign and digits up to anything else parse to their number, or throw beyond 32 bits. |
| EndpointUrls.StoiNothing | src/mcp_connection_manager.cc:1394-1398 | Anything without a digit there throws. |
| EndpointUrls.AddressWithoutPort | src/mcp_connection_manager.cc:90-119 | An address without a colon means port 80, or 443 with TLS, and the connection for localhost goes to 127.0.0.1. |
| EndpointUrls.OnlyLocalhost | src/mcp_connection_manager.cc:117-119 | The connection goes to the host and port named, but for localhost. |
| EndpointUrls.ResolvedMeaning | src/mcp_connection_manager.cc:1308-1319 | A relative endpoint becomes the scheme, the address and itself with a slash in front. |
| EndpointUrls.SplitWithoutPort | src/mcp_connection_manager.cc:1366-1392 | A URL without a port: http goes to 80 without TLS, every other scheme to 443 with it; without a path to the root. |
| EndpointUrls.SplitWithNumber | src/mcp_connection_manager.cc:1394-1398 | The port of a POST is what the text behind the colon parses to, modulo 65536; what does not parse throws. |
| ConnectionPools.UnusedIsRemaining | include/mcp/mcp_application_base.h:343-346 | Unused capacity is always what is left of the lifetime limit. |
| ConnectionPools.ClosedCounted | include/mcp/mcp_application_base.h:356-361 | A stream that ends gives no capacity back and changes no state. |
| ConnectionPools.StepKeeps | include/mcp/mcp_application_base.h:396-458 | Every step keeps the counters, the lists and the bounds. |
| ConnectionPools.RunKeeps | include/mcp/mcp_application_base.h:396-540 | So does every run; no connection is ever in the busy list. |
| ConnectionPools.BoundsHold | include/mcp/mcp_application_base.h:376-540 | Every run keeps total equal to the connections held and at most the maximum, each connection within its limit for life, and live streams within connections times limit, exactly when the limit is at least one or no connection is allowed. |
| ConnectionPools.ZeroLimit | include/mcp/mcp_application_base.h:343-354 | With limit zero the reservation wraps and a connection serves two streams. |
| ConnectionPools.AcquireMeaning | include/mcp/mcp_application_base.h:396-419 | The front of the ready list is given while it has streams left; otherwise a new connection, under the maximum. |
| ConnectionPools.StreamMeaning | include/mcp/mcp_application_base.h:339-361 | What streams do to any connection, in 32 bits: when it takes one, when the one it takes makes it busy, and when one that ends makes it ready. |
| ConnectionPools.TransitionMeaning | include/mcp/mcp_application_base.h:488-514 | A change of state moves a connection exactly when another list owns the new state, and to its end. |
| ConnectionPools.ReleasedMeaning | include/mcp/mcp_application_base.h:421-438 | In every state runs reach, a stream that ends is counted off its own connection and nothing moves. |
| ConnectionPools.ConnectedMeaning | include/mcp/mcp_application_base.h:440-448 | A connection that is waited for goes to the end of the ready list; no other one moves. |
| ConnectionPools.ClosedMeaning | include/mcp/mcp_application_base.h:450-458 | A connection that closes leaves its list, and one less is counted. |
| ConnectionPools.BlockedForGood | include/mcp/mcp_application_base.h:399-410 | Once the front of the ready list is used up it stays there until it closes, and no existing connection is given again. |
| ConnectionPools.CapacityOutOfReach | include/mcp/mcp_application_base.h:396-419 | Two connections of two streams that refuse a fourth stream with one left. |
| PooledConnections.PooledConnection.OnStreamCreated | include/mcp/mcp_application_base.h:348-354 | Both counters move by one, in 32 bits, and the state becomes busy when nothing is left. |
| PooledConnections.PooledConnection.OnStreamClosed | include/mcp/mcp_application_base.h:356-361 | The active count goes down; the state follows the capacity. |
| PooledConnections.ConnectionPool.FindPooledConnection | include/mcp/mcp_application_base.h:516-533 | The first connection found in ready, busy and connecting order. |
| PooledConnections.ConnectionPool.TransitionConnectionState | include/mcp/mcp_application_base.h:488-499 | State and list change together when the lists of the two states differ, else only the state. |
| PooledConnections.ConnectionPool.AcquireConnection | include/mcp/mcp_application_base.h:396-419 | What is given, and what happens to counters, states and lists. |
| PooledConnections.ConnectionPool.ReleaseStream | include/mcp/mcp_application_base.h:422-438 | The stream ends on the connection found; the move back to ready is never made. |
| PooledConnections.ConnectionPool.OnConnectionConnected | include/mcp/mcp_application_base.h:441-448 | A connecting connection becomes ready and moves; one that was busy at once does not. |
| PooledConnections.ConnectionPool.OnConnectionClosed | include/mcp/mcp_application_base.h:451-458 | The connection leaves the list it is in, and the total goes down. |
| PooledConnections.ConnectionPool.CreateNewConnectionForStream | include/mcp/mcp_application_base.h:470-486 | A new connection joins the connecting list with a stream reserved on it. |
| BufferHandles.HandleManager.Store | src/c_api/handle_manager.h:36-44 | Nothing to store gives 0 and changes nothing; otherwise the next handle, never given out before, names the object. |
| BufferHandles.HandleManager.Get | src/c_api/handle_manager.h:60-71 | Resolves exactly the handles in the table; 0 resolves to nothing. |
| BufferHandles.HandleManager.Release | src/c_api/handle_manager.h:77-83 | Only that handle goes. |
| BufferHandles.HandleManager.Clear | src/c_api/handle_manager.h:85-88 | All handles go and none of them is given out again. |
| BufferHandles.BufferPool.constructor | src/c_api/mcp_c_filter_api.cc:265-273 | As many different, empty, free buffers as the maximum. |
| BufferHandles.BufferPool.Acquire | src/c_api/mcp_c_filter_api.cc:275-283 | The last free buffer, or none. |
| BufferHandles.BufferPool.Release | src/c_api/mcp_c_filter_api.cc:285-294 | The buffer is emptied and becomes free, when there is room for it. |
| BufferHandles.FilterBuffers.BufferCreate | src/c_api/mcp_c_filter_api.cc:661-672 | A new handle over a new buffer that holds the data. |
| BufferHandles.FilterBuffers.BufferRelease | src/c_api/mcp_c_filter_api.cc:674-677 | The handle goes. |
| BufferHandles.FilterBuffers.PoolAcquire | src/c_api/mcp_c_filter_api.cc:823-833 | 0 when nothing is free, else a new handle over a free buffer. |
| BufferHandles.FilterBuffers.PoolRelease | src/c_api/mcp_c_filter_api.cc:835-845 | The buffer is emptied and given back and its handle goes; an unknown handle does nothing. |
| BufferPools.StepKeeps | src/c_api/mcp_c_filter_api.cc:264-301 | Every step any caller makes between two locks keeps every buffer in one place. |
| BufferPools.RunExclusive | src/c_api/mcp_c_filter_api.cc:823-845 | Over every interleaving in which no handle is used or released while it is being released, no buffer is both free and behind a live handle, no two live handles name one buffer, no buffer is free twice, free buffers are empty, and no free list outgrows its pool. |
| BufferPools.SpentForGood | src/c_api/handle_manager.h:36-83 | Whatever the callers do, a released handle never resolves again. |
| BufferPools.ReleaseSpends | src/c_api/handle_manager.h:77-83 | Releasing a handle makes it one of those. |
| BufferPools.TableMeaning | src/c_api/handle_manager.h:36-83 | A table gives back what was stored under a handle until that one is released, and nothing for 0. |
| BufferPools.PoolMeaning | src/c_api/mcp_c_filter_api.cc:275-294 | A pool gives last what was released to it last, as long as it had room, and keeps the others. |
| BufferPools.ReleasedTwice | src/c_api/mcp_c_filter_api.cc:835-845 | A whole run from nothing, legal up to a second caller looking up a handle that is being released: in the end two live handles name one buffer. |
| ConnectionTurns.KeyOfInjective | include/mcp/core/request_id_key.h:54-64 | Two request ids have one key only if they are one id. |
| ConnectionManagers.McpConnectionManager.constructor | src/mcp_connection_manager.cc:51-62 | The header map is the configured one unless another was given; nothing is held. |
| ConnectionManagers.McpConnectionManager.SendJsonMessage | src/mcp_connection_manager.cc:462-477 | A message is posted exactly when connected. |
| ConnectionManagers.McpConnectionManager.SendResponse | src/mcp_connection_manager.cc:494-528 | An answer is posted as a message, or to be decided when its turn runs. |
| ConnectionManagers.McpConnectionManager.Merged | src/mcp_connection_manager.cc:1791-1793 | The loop lays the call's headers over the others. |
| ConnectionManagers.McpConnectionManager.WriteMessage | src/mcp_connection_manager.cc:1743-1822 | Declared, decorated, recorded, written under its own headers, and the map restored; nothing without a connection. What is written is `MessageTurns.WriteTurnWrites`. |
| ConnectionManagers.McpConnectionManager.SendAnswerApart | src/mcp_connection_manager.cc:530-630 | Opens a connection for an answer under the next key, or says that it could not. |
| ConnectionManagers.McpConnectionManager.AnswerServer | src/mcp_connection_manager.cc:517-526 | Apart while responses are outstanding and it can be, else on the shared connection. |
| ConnectionManagers.McpConnectionManager.RetireAnswer | src/mcp_connection_manager.cc:632-653 | Taken out of the map, unhooked, closed unless closed already, handed over. |
| ConnectionManagers.McpConnectionManager.OpenSubscription | src/mcp_connection_manager.cc:798-898 | Opens one connection per id, or says that it could not. |
| ConnectionManagers.McpConnectionManager.CloseSubscription | src/mcp_connection_manager.cc:900-931 | Taken out of the map, unhooked, closed, handed over. |
| ConnectionManagers.McpConnectionManager.OpenServerStream | src/mcp_connection_manager.cc:688-796 | The stream there was is closed, and the opener before the last is destroyed; what the new one asks for is `ManagerEffects.StreamOpened`. |
| ConnectionManagers.McpConnectionManager.CloseServerStream | src/mcp_connection_manager.cc:933-962 | Taken out of hand before it is closed, its opener told inside the close, and handed over; the opener stays hooked. |
| ConnectionManagers.McpConnectionManager.TakeStream | src/mcp_connection_manager.cc:779-787 | The opener before the last is destroyed and the new connection becomes the stream's. |
| ConnectionManagers.McpConnectionManager.CloseConn | src/network/connection_impl.cc:412-433 | Closing without a flush tells the listener before it returns, as often as the transport and the connection raise it; a closed connection tells nobody. |
| ConnectionManagers.McpConnectionManager.ToldClosed | src/network/connection_impl.cc:1154-1188 | One close is raised once by each layer of the transport that does, and then by the connection. |
| ConnectionManagers.McpConnectionManager.Raise | src/network/connection_impl.cc:1098-1189 | A connection that is not closed raises an event at whoever listens. |
| ConnectionManagers.McpConnectionManager.Destroy | src/network/connection_impl.cc:402-408 | Destroying a connection that is not closed closes it first, and so tells its listener as often as a close does. |
| ConnectionManagers.McpConnectionManager.SendSessionDelete | src/mcp_connection_manager.cc:655-686 | Written under its own headers, the map restored, and the session forgotten. |
| ConnectionManagers.McpConnectionManager.Connect | src/mcp_connection_manager.cc:222-230 | A new active connection that tells the manager; refused while connected. One it replaces is destroyed with the new one in its place, and takes it along when it was still open. |
| ConnectionManagers.McpConnectionManager.OnConnectionEvent | src/mcp_connection_manager.cc:1120-1236 | The first connected event counts; a close hands the connection over and forgets what was in flight. |
| ConnectionManagers.McpConnectionManager.OnOpenerEvent | src/mcp_connection_manager.cc:572-608 | An opener writes its request once its connection is up; an answer's close posts its retirement. |
| ConnectionManagers.McpConnectionManager.RunTurn | src/mcp_connection_manager.cc:1733-1740 | The dispatcher runs the oldest posted turn. |
| ConnectionManagers.McpConnectionManager.SubscriptionIds | src/mcp_connection_manager.cc:1004-1008 | All ids of the subscriptions held, and no other. |
| ConnectionManagers.McpConnectionManager.Close | src/mcp_connection_manager.cc:996-1068 | Everything is let go, the active connection's close event included, and in every reachable state nothing is held after it. |
| HeaderIsolation.HeadersHold | src/mcp_connection_manager.cc:1778-1818 | In every run every write is seen with the headers and body its own request is due, exactly when the manager starts with the configured headers or its transport sends no nudge. |
| HeaderIsolation.RunIsolated | src/mcp_connection_manager.cc:572-586 | Every interleaving of turns keeps that, from any state that has it. |
| HeaderIsolation.MapRestored | src/mcp_connection_manager.cc:58-62 | Between turns the shared map is the configured one whenever it started so, and after any request was written. |
| HeaderIsolation.NudgeUnderGiven | src/mcp_connection_manager.cc:1190-1205 | A manager given another map sends its first nudge under that one. |
| HeaderIsolation.RecordedInWireOrder | src/mcp_connection_manager.cc:1800-1815 | Messages are recorded in exactly the order they reach the wire, and those in flight are the last ones recorded. |
| HeaderIsolation.RunOrdered | include/mcp/transport/streamable_http_client_session.h:251-286 | Every turn, every answer and every close keeps that. |
| RequestForms.DueHasForm | src/mcp_connection_manager.cc:556-566 | What each request is due, header by header: its method, accept value and Last-Event-ID, the headers of the call over the rest, and every other one as the session decorates it. |
| RequestForms.FormIsDue | src/mcp_connection_manager.cc:1778-1790 | And nothing else: headers and body of that form are the ones due. |
| RequestForms.RunHasForms | src/mcp_connection_manager.cc:1778-1818 | In every run, every request on the wire has the form of what it was made for. |
| MessageTurns.WriteTurnWrites | src/mcp_connection_manager.cc:1743-1822 | The turn of a message adds exactly one entry to the wire, on the active connection, with its headers and body, and records it exactly when there is a session; without a connection it does nothing. |
| MessageTurns.AnswerTurnAnswers | src/mcp_connection_manager.cc:515-528 | The turn of an answer opens a connection of its own exactly when something is in flight, the filters can be told its role, a connection is made and it parses; else it writes the message on the active one. |
| MessageTurns.RunMessages | src/mcp_connection_manager.cc:1733-1822 | Over every run: the messages accepted are, in order, those whose turn ran and those still waiting, and the messages on the wire are, in order and each once, those whose turn ran while connected, but for the answers sent apart. |
| MessageTurns.MessagesFromStart | src/mcp_connection_manager.cc:462-528 | The same from the start, where nothing waits and nothing is on the wire. |
| ManagerEffects.SubscriptionClosed | src/mcp_connection_manager.cc:900-931 | Exactly the subscription of that id goes: unhooked, closed and handed over, its opener destroyed. |
| ManagerEffects.AnswerRetired | src/mcp_connection_manager.cc:632-653 | Exactly the answer under that key goes, in the same way. |
| ManagerEffects.StreamClosed | src/mcp_connection_manager.cc:933-962 | The stream's connection is closed and handed over; its opener stays hooked. |
| ManagerEffects.SubscriptionOpened | src/mcp_connection_manager.cc:798-898 | When a subscription is opened, and all that changes: its connection, its entry, and the request its opener is to write. |
| ManagerEffects.StreamOpened | src/mcp_connection_manager.cc:688-796 | When a stream is opened, and all that changes: the stream before is closed in any case, the opener before the last goes, and the new one is to ask with GET, from the cursor on when there is one. |
| ManagerEffects.GivenBack | src/mcp_connection_manager.cc:655-686 | One DELETE on the active connection, unrecorded, and the session forgets itself; nothing without a session, its id, or a connection. |
| ManagerEffects.Nudged | src/mcp_connection_manager.cc:1197-1204 | The nudge is an empty write on the active connection under the map as it is. |
| ManagerEffects.ConnectionMade | src/mcp_connection_manager.cc:372-389 | When a connection is made and all that changes, with and without one to replace. |
| ManagerEffects.ManagerConnected | src/mcp_connection_manager.cc:1147-1205 | Connected counts once, and over the older HTTP transport posts a nudge. |
| ManagerEffects.ManagerClosed | src/mcp_connection_manager.cc:1206-1236 | A close hands the active connection over, disconnects and forgets what was in flight, unless there was neither. |
| ManagerEffects.OpenerRaised | src/mcp_connection_manager.cc:745-770 | An opener writes exactly its request once its connection is up, and the map is restored; the close of an answer posts its retirement. |
| ManagerEffects.NobodyTold | src/network/connection_impl.cc:1098-1117 | A closed connection raises nothing, and one without a listener tells nobody. |
| ManagerEffects.HandedDeleted | src/network/connection_impl.cc:402-408 | Deleting a connection raises the close it still owes at the manager, and removes it. |
| ManagerEffects.AnswerArrived | include/mcp/transport/streamable_http_client_session.h:251-286 | An answer is that of the message in flight longest. |
| ManagerEffects.FaultsRecorded | src/mcp_connection_manager.cc:640-651 | What counts as a fault: touching a connection that is gone, closing one that would tell an opener that must be unhooked, handing one over twice. |
| ManagerEffects.OpenerFault | src/network/connection_impl.cc:1298-1313 | So does telling an opener that is gone. |
| ManagerEffects.AllClosed | src/mcp_connection_manager.cc:996-1068 | Closing the manager: every connection held for an answer, a subscription or the stream is closed and handed over, and the active one too when it is open; nothing is written. |
| ConnectionHolding.StepKeeps | src/mcp_connection_manager.cc:530-1068 | Every turn keeps: held entries have their connection and their opener, listeners belong to held entries, queued retirements are true. |
| ConnectionHolding.RunKeeps | src/mcp_connection_manager.cc:530-1068 | So does every legal run. |
| ConnectionHolding.CloseAllKeeps | src/mcp_connection_manager.cc:996-1068 | Closing leaves both maps, the stream and the active connection empty. |
| ConnectionHolding.AllKeys | src/mcp_connection_manager.cc:1004-1011 | Closing by the collected ids reaches every entry, because each key is that of its own id. |
| ConnectionHolding.OpenerThere | src/mcp_connection_manager.cc:586-603 | An opener that may still be told of an event, a stream's included, exists and its entry is held. |
| ConnectionHolding.ToldOnce | src/mcp_connection_manager.cc:1206-1217 | However often one close is raised, to the manager and to a stream's opener it is one event. |
| ConnectionHolding.ConnectOver | src/mcp_connection_manager.cc:379-383 | Exactly what connecting over a connection before does, closed already or still open. |
| ConnectionSafety.RunSafe | src/mcp_connection_manager.cc:618-962 | In every legal run no opener, a stream's included, is called after it is gone, no connection is closed while hooked to an answer's or a subscription's opener, none is handed to deletion twice or touched after it, and every listener that may be told belongs to a held entry. The one fault left, the active connection gone while connecting, occurs exactly when the manager is told to connect over a connection still open. |
| ConnectionSafety.RunFault | src/mcp_connection_manager.cc:379-383 | Every step keeps that fault away but the one that is its condition. |
| ConnectionSafety.ConnectTwice | src/mcp_connection_manager.cc:222-230 | Connecting twice without an event in between is such a run. |
| ConnectionSafety.ToldTwice | src/mcp_connection_manager.cc:1206-1217 | A close event that comes more than once counts once. |
| ConnectionSafety.ActiveLetGo | src/mcp_connection_manager.cc:1206-1227 | Exactly which turns let go of the active connection: its own close, its replacement, the closing of the manager, and the late close of one that was active before, by an event or by its deletion; the last hands it to deletion as it is, open or not. |
| ConnectionSafety.OpenLetGo | src/mcp_connection_manager.cc:1035-1058 | A legal run that deletes a connection closing late and takes an open one along. |
| ConnectionSafety.CloseEmpties | src/mcp_connection_manager.cc:1002-1058 | In every legal run, closing leaves nothing held. |
| ConnectionSafety.HeldThenHanded | src/mcp_connection_manager.cc:645-653 | A connection ever held is held still, or was handed to deletion, and that once. |
| ConnectionSafety.RetirementReaches | src/mcp_connection_manager.cc:594-603 | A retirement that runs, however late, reaches the answer whose connection posted it, or nothing. |
| ConnectionSafety.KeysNeverReused | src/mcp_connection_manager.cc:618-625 | A key that was given to an answer is never given to another. |
| ConnectionStreams.OpenerLostInside | src/network/connection_impl.cc:1298-1315 | A telling of a close finds the opener gone exactly when the application, told first, has opened two streams or more since the connection was the newest, this telling included. |
| ConnectionStreams.OpenerLost | src/mcp_connection_manager.cc:1267-1292 | However often one close is told, some telling finds the opener gone exactly when the application opens two streams or more in all of them together. |
| ConnectionStreams.OneEach | src/mcp_connection_manager.cc:779-786 | A close that tells twice, and one opening each time: the first telling is safe and the second finds the opener gone. |
| ConnectionStreams.TwoInside | src/mcp_connection_manager.cc:779-786 | Two openings in one telling are legal calls and lose it. |
| ConnectionStreams.CallsMove | src/mcp_connection_manager.cc:779-786 | Each opening moves an opener one place on, and no other call moves it. |

## Left out

- The thread-local slice pool. The classes keep slice memory in an array of its own; where a small slice keeps its bytes, and what a move of it does, is modelled on values (`InlineSlices`), and what is read or written through a pointer left behind is not.
- Memory accounting of buffers: charges and credits use different sizes and balance nowhere.
- Moving a buffer to itself and adding a buffer to itself.
- Watermark operations that skip the check (prepend, fragment, commit, receiving slices of a move): they change the length without a callback.
- The wrap-around of `size_t` lengths, of the handle counter and of the answer key at 64 bits.
- Running out of memory in the C calls, and null elements inside arrays and objects.
- The iteration order of unordered maps while freeing and reading back: any order is covered. Objects of the JSON library are walked in ascending key order.
- Negative zero and the payload of a NaN: doubles keep their value only. Numbers beyond 64 bits are parsed as floats and come in as such.
- A big-endian host: integers lie in memory least significant byte first.
- The JSON getters, lists, maps and metadata of the C API: reads of one field.
- Sockets, TLS, DNS, filters, codecs and logging: creating a connection and what the session contributes to a message are inputs of a turn.
- What an application calls from inside an event, but for the close of a stream, is a turn of its own after it; so is a connected event raised inside `connect()`, after which the calls of the manager have nothing left to do.
- Events raised on a connection after its close has returned: there are taken to be none. Those of every layer during the close are covered, and so is a state machine that closes one without an event.
- The stdio path of connecting, server listening, the POST connection of the older transport and the idle watchdog.
- Whether an opener writes once: it writes on every connected event it is told of.
- Destroying the manager while turns are posted.
- The headers of a POST and what `parseInternetAddress` makes of a port above 65535.
- Sizes of the pool's lists after an erase through another list's name, which the language leaves undefined, and the entry written after its node is gone.
- Fairness of the connection pool and draining, which no member of it starts.
- Destroying a buffer pool, and the buffers' use by filters.
- Watermarks.WatermarkBuffer.Move: the destination is a plain buffer, because a watermark buffer that receives whole slices checks nothing.
- HeaderIsolation.RecordedInWireOrder: speaks of messages only, because giving the session back writes without recording.
