# Shared-memory transport: fifos, segments and message queues

This project models the shared-memory transport of VPP, the code under `src/svm`, and proves
what its users rely on. It has four parts.

* **Fifos** (`svm_fifo.c`). A byte stream kept in a chain of chunks, with 32-bit positions that
  wrap. Producers append at the tail or write ahead of it; what is written ahead is kept in a
  list of out-of-order segments. Consumers dequeue, peek and drop, and chunks that are no longer
  needed go back to the segment. Two search trees and two cached pointers speed up chunk lookup.
* **Segments** (`fifo_segment.c`). A bump allocator, free lists per slice and power-of-two size
  class, a fallback that serves a request with several chunks and rolls back on failure, and
  counters. The free list itself is a lock-free stack with a tagged head.
* **Message queues** (`message_queue.c`). Rings whose slots locked producers allocate and one
  consumer frees without the lock, a queue that carries the messages, and condition-variable waits.
* **IPv6 text** (`vat/plugin_api.c`). A parser and a printer of addresses.

## How it is built

Code that updates fields in place is a class with methods and loops (`Fifos.Fifo`,
`Segments.Segment`, `OooSegments.OooList`) or a method over an array or a memory value; code that
threads run concurrently is a state machine whose steps are single accesses to shared fields,
with a theorem about every run. The memory of a segment is a map from offsets to chunks. Fields
that the program stores as 32-bit positions are `u32`; the proofs follow them with unbounded
positions in ghost state, and every comparison the code makes is shown to order the unbounded
positions.

The state of a fifo is a `View`: the chain, the position at which each chunk starts, a log of what
was last written at each position, head, tail, and the runs of chunks in the two lookup trees.
`Fifo.Valid` says that every logged byte from the start of the chain on is stored in the chunk that
holds its position, that the logged positions from the head on are exactly those before the tail
and those of the out-of-order segments, that both trees index a contiguous run of the chain (the
enqueue tree from the tail's chunk, and nothing when there are no segments; the dequeue tree from
the start chunk), and that all chunks of the chain are handed out by the segment to this fifo.

The main results:

* in every run of arrivals in any order, with overlaps and repetitions, and of reads, the reader gets
  the stream without gaps, the fifo holds its continuation, everything before the tail came with some
  piece, and no accepted piece has the tail; what each event does is stated exactly
  (`Reassembly.Receive`), and a piece is accepted exactly under a condition on the state before it
  arrives (`Reassembly.Arrive`);
* an enqueue has one outcome, which the state of fifo and segment determines, and enqueuing buffers
  has the outcome of enqueuing their concatenation (`FifoViews.OutcomeUnique`,
  `Fifos.SegmentsAreOneEnqueue`);
* in every run of creations, operations and removals on a segment, every command has its effect on the
  fifo that it names and none on another, and every chunk is on exactly one free list or in the chain
  of exactly one fifo (`Conservation.Run`);
* what a growth of a chain adds reaches the end of the write exactly when no more than 4 MB was missing
  or the request's own class could not serve it (`FifoViews.SafeGrowth`); `Fifos.ShortGrowth` gets from
  a new segment to a growth that is too short;
* `svm_fifo_dequeue_drop_all` keeps the fifo valid exactly unless the head is at the end of the
  start chunk, another chunk follows and the dequeue tree has the start chunk; otherwise the tree
  keeps a node for a chunk that is now free (`Fifos.Fifo.DropAll`); `Fifos.LeaveNode` gets there
  from a new segment;
* one producer that enqueues and writes ahead and one consumer that dequeues, peeks and drops, in any
  interleaving: what was read or dropped is a prefix of what was published, a peek returns what was
  published, the lookup trees and cached chunks never name a chunk that was unlinked, and neither side
  ever follows a null pointer, except a producer whose last growth was too short, which no fifo of at
  most 4 MB asks for (`Spsc.RunSafe`); every interleaving is a run of a fifo on which each call takes
  effect at once, with the bytes that the caller gave (`SpscSpec`);
* the tagged free list is a linearizable stack in every run in which fewer than 2^16 operations succeed between
  a load and its compare-and-swap, and with one more there is a run after which the free list hands
  out a chunk that a thread holds; every call does its operation exactly once (`TaggedStack`);
* the free lists, byte counters and chunk counts of a segment agree after every call, a failed
  multi-chunk allocation puts everything back, a request is served exactly under a condition on the
  state before it, and what is handed out covers the request exactly when the request is at most
  4 MB or its own class could not serve it (`Segments.Segment`);
* messages are received in the order in which they were sent and freed in allocation order in every
  interleaving, so no slot is reused early and the out-of-order branch is never taken, and every call
  sends exactly one message of the ring it asked for or has found it full (`MsgQueue`); no wake-up is lost without batches, and a batch
  loses one exactly when a producer waits and the size it read was not the full size (`Wakeup`);
* reading back a printed IPv6 address gives the address exactly when the second run of zero groups
  is longer than the first or the runs after the first are together no longer than it, and the parser
  accepts exactly the texts of a grammar, with the values that it gives them (`Ip6`).

## Model

| member | source | states |
|---|---|---|
| `Position.SignedDistance` | src/svm/svm_fifo.h:143-166 | the 32-bit signed difference of two wrapped positions is their true difference if and only if that fits in 32 signed bits |
| `Position.Compare` | src/svm/svm_fifo.h:143-166 | for positions less than 2^31 apart, all four comparisons order the wrapped values as the unbounded ones |
| `Position.SubWraps` | src/svm/svm_fifo.h:120-135 | the wrapped difference of two positions is how far they are apart |
| `OooSegments.CanonicalUnique` | src/svm/svm_fifo.c:179-303 | a sorted list of disjoint intervals that do not touch is determined by the positions it covers |
| `OooSegments.AbsorbUnion` | src/svm/svm_fifo.c:179-303 | replacing the segments that an interval meets by one keeps the list canonical and covers exactly the union |
| `OooSegments.OooList.constructor` | src/svm/svm_fifo.c:371-383 | no segments |
| `OooSegments.OooList.Free` | src/svm/svm_fifo.c:150-173 | takes one segment out of the doubly linked list and leaves the others linked in order |
| `OooSegments.OooList.FindFirstAfter` | src/svm/svm_fifo.c:201-205 | finds the first segment that starts at or after a position, or the last one |
| `OooSegments.OooList.MergeInto` | src/svm/svm_fifo.c:239-302 | merging a new interval into a segment that it meets covers exactly the union |
| `OooSegments.OooList.AddSegment` | src/svm/svm_fifo.c:179-303 | in every merge case the list stays sorted, linked both ways, disjoint and non-touching, and covers exactly the old positions and the new interval; the newest segment is none exactly when nothing new was covered, and otherwise contains the interval |
| `OooSegments.OooList.DropReached` | src/svm/svm_fifo.c:325-351 | removes a prefix of the list: all segments that the tail has reached, extending it at most once |
| `OooSegments.OooList.TryCollect` | src/svm/svm_fifo.c:309-355 | the tail moves to the first position from the old tail on that is not covered, the result is the distance, and what was covered beyond it still is, strictly beyond the tail |
| `ChunkTree.FindNode` | src/svm/svm_fifo.c:547-583 | finds the node with the greatest start position that is not after the one asked for, or none if all are after it |
| `ChunkTree.InsertHas` | src/svm/svm_fifo.c:619-649 | adding a chunk to a lookup tree adds exactly its node |
| `ChunkTree.DeleteHas` | src/svm/svm_fifo.c:711-719 | deleting a key from an ordered tree removes exactly its node |
| `Chunks.Includes` | src/svm/svm_fifo.h:137-172 | a chunk of a chain includes a wrapped position exactly when the position is between its bounds |
| `Chunks.FindNextChunk` | src/svm/svm_fifo.c:487-511 | the scan along the chain finds the chunk that holds the position, or null at the end |
| `Chunks.CopyToChunk` | src/svm/svm_fifo.c:26-55 | writes the bytes at consecutive positions across chunks, changes nothing else, and returns the chunk for the position after them |
| `Chunks.CopyFromChunk` | src/svm/svm_fifo.c:57-88 | reads back exactly the bytes logged at consecutive positions across chunks, and returns the chunk for the position after them |
| `ChunkIndex.FloorInRun` | src/svm/svm_fifo.c:547-583 | in a tree over a run of the chain, the node found is the last chunk of the run that starts by the position |
| `ChunkIndex.ExtendRun` | src/svm/svm_fifo.c:637-650 | the loop extends the run of indexed chunks up to the end position and finds the chunk of the start position |
| `ChunkIndex.UpdateLookup` | src/svm/svm_fifo.c:604-700 | with an initialised tree the chunk found is the one a linear scan finds, and the tree still indexes a contiguous run from the anchor chunk |
| `ChunkIndex.ClearChunks` | src/svm/svm_fifo.c:702-758 | takes the chunks before the given position out of the tree, returns the chunk of the position, and leaves a run when the tree had nothing before the first one |
| `ChunkIndex.ClearEnqChunks` | src/svm/svm_fifo.c:702-734 | the enqueue tree starts at the new tail's chunk again, and is empty when no segment is left |
| `Chains.LayOut` | src/svm/svm_fifo.c:388-404 | numbers the chunks of a list one after the other and takes them out of the trees |
| `Chains.Appended` | src/svm/svm_fifo.c:821-839 | a list laid out from the end of a chain and linked to it extends the chain |
| `Chains.Unlinked` | src/svm/svm_fifo.c:1093-1101 | cutting the link into a chunk leaves the chain from that chunk on |
| `Chains.UnlinkWalk` | src/svm/svm_fifo.c:1054-1082 | the walk stops at the chunk that holds the position or at the last one, and takes what it passes out of the dequeue tree |
| `SizeClasses.ClassCovers` | src/svm/fifo_segment.c:466-479 | a chunk of the class chosen for a request holds the request if and only if the request is at most 4 MB |
| `SizeClasses.ClassTight` | src/svm/fifo_segment.c:466-479 | the next smaller class would be too small |
| `SizeClasses.ClassOfSize` | src/svm/fifo_segment.c:466-479 | the class chosen for the size of a class is that class |
| `SegmentState.PopInv` | src/svm/fifo_segment.c:191-221 | a pop keeps lists, places, counts and regions, and owes its bytes to the counters |
| `SegmentState.PushInv` | src/svm/fifo_segment.c:149-168 | a push of a handed-out chunk keeps them and pays its bytes back |
| `SegmentState.CarveInv` | src/svm/fifo_segment.c:589-628 | installing freshly carved chunks on a list keeps them |
| `SegmentState.WriteInv` | src/svm/svm_fifo.c:26-55 | writes to handed-out chunks do not disturb the free lists |
| `SegmentState.CarveChunks` | src/svm/fifo_segment.c:607-618 | carves n chunks of a size, disjoint and linked, out of the region reserved for them |
| `SegmentBounds.FreeBytesBound` | src/svm/fifo_segment.c:685-707 | the free bytes that a slice counts are its free chunks and are at most the bytes carved |
| `Segments.Segment.constructor` | src/svm/fifo_segment.c:295-342 | an empty segment with at least one slice is valid |
| `Segments.Segment.Pop` | src/svm/fifo_segment.c:191-221 | null exactly when the list is empty, otherwise the head leaves the list and is handed out |
| `Segments.Segment.Push` | src/svm/fifo_segment.c:149-168 | the chunk becomes the head of the list and is free |
| `Segments.Segment.PushChain` | src/svm/fifo_segment.c:782-790 | every chunk of a chain goes to the list of its own size; the result is their total length |
| `Segments.Segment.CollectChunks` | src/svm/fifo_segment.c:775-794 | the chain's chunks become free, only next pointers change, and the counters agree again |
| `Segments.Segment.TakeOne` | src/svm/fifo_segment.c:508-518 | takes a chunk off a list and puts it in front of those taken |
| `Segments.Segment.TryLarger` | src/svm/fifo_segment.c:535-549 | one chunk of the next larger class if and only if there is one; otherwise nothing changes |
| `Segments.Segment.GiveBack` | src/svm/fifo_segment.c:519-549 | what was taken goes back to the lists it came from before a larger chunk is tried; it fails if and only if those lists had no larger chunk |
| `Segments.Segment.TryAllocMulti` | src/svm/fifo_segment.c:492-554 | several chunks that cover the request, or every chunk has the place it had and the counters are unchanged; it fails if and only if the smaller lists hold fewer bytes than the request and the next larger list is empty; chunks of a class are taken only when all larger classes below the request's own are used up, and without the last one taken they would not do |
| `Segments.Segment.AllocAligned` | src/svm/fifo_segment.c:19-41 | without contention the next aligned bytes are reserved, or they do not fit and nothing changes |
| `Segments.Segment.TryAllocBatch` | src/svm/fifo_segment.c:589-628 | n new chunks on the list with counters raised by their bytes if and only if they fit with their headers; otherwise nothing changes |
| `Segments.Segment.Fallback` | src/svm/fifo_segment.c:684-713 | after the request's own class has failed: a covering chain, or null with nothing handed out; the exact condition is `FallsBack`, over lists, counter and bytes left |
| `Segments.Segment.LastAttempt` | src/svm/fifo_segment.c:700-713 | carves as many of the smallest chunks as the free bytes read earlier suggest and combines again; it serves exactly under `LastServes`, and never after the smallest chunks have already been carved |
| `Segments.Segment.TryAllocChunk` | src/svm/fifo_segment.c:658-716 | ends; null with nothing handed out, or a chain handed out to the slice, of bounded size; it serves if and only if the own list has a chunk, can be refilled, or the fallback covers the request, all read off the state before the call; what it hands out covers the request if and only if the request is at most 4 MB or its own class could not serve it; `Handles` says case by case, in plain arithmetic, which chunk is handed out, how many are carved (32, or one when the bytes left do not hold 32, or as many of the smallest as are missing) and how many stay on the list |
| `Segments.Segment.OwnClassServes` | src/svm/fifo_segment.c:658-683 | whether the request's own class would serve it: its list has a chunk, or 32 chunks, or one when the bytes left do not hold 32, fit with their headers |
| `Segments.Segment.RefillOwn` | src/svm/fifo_segment.c:675-684 | the empty list of the request's class is refilled if and only if the refill fits, and otherwise nothing changes |
| `SegmentState.RefillIs` | src/svm/fifo_segment.c:680-682 | a refill carves 32 chunks when the bytes left hold the data of 32, and otherwise one, if they fit with 24 bytes each for their headers |
| `SegmentState.LastBatchIs` | src/svm/fifo_segment.c:706-708 | the last attempt carves one of the smallest chunks more than is missing, or as many as the free bytes hold |
| `SegmentState.MultiStartIs` | src/svm/fifo_segment.c:498-500 | the bytes that are combined are those of the classes below the request's own, or of the smallest |
| `SegmentState.RoomServes` | src/svm/fifo_segment.c:675-683 | with room for the largest refill every request is served, by its own class |
| `Ownership.ConservesAllocated` | src/svm/fifo_segment.c:658-716 | what an owner is given was held by nobody, and others keep what they hold |
| `Ownership.ConservesCollect` | src/svm/fifo_segment.c:775-794 | what an owner gives back is free, and others keep what they hold |
| `Ownership.OthersKeep` | src/svm/fifo_segment.c:775-794 | an operation that conserves leaves every other owner's chunks handed out to it and unchanged |
| `Ownership.NoLeak` | src/svm/fifo_segment.c:775-794 | a chunk that is handed out and not in the owner's chain after the operation was handed out to someone else before it |
| `FifoState.TailUnwritten` | src/svm/svm_fifo.c:846-896 | in every valid state all bytes from head to tail are written and the tail is not |
| `FifoState.EnqueueStream` | src/svm/svm_fifo.c:871-895 | an in-order write and the collection after it keep the stream; the new tail is the first position not written |
| `FifoState.OffsetStream` | src/svm/svm_fifo.c:905-940 | a write ahead of the tail keeps the stream and leaves the tail |
| `FifoState.CollectedUnique` | src/svm/svm_fifo.c:309-355 | from the same segments and the same end of the written bytes, the collected tail and the segments left are determined |
| `FifoState.AllocSizeIs` | src/svm/svm_fifo.c:815-817 | a growth asks for what is missing, or for more up to the smallest growth and the free room |
| `FifoState.MinAllocIs` | src/svm/svm_fifo.c:383-385 | the smallest growth is an eighth of the size, 4096 bytes for fifos of up to 32 KB, and at most 64 KB |
| `FifoViews.CopyBuffers` | src/svm/svm_fifo.c:1002-1036 | copying buffer after buffer writes a prefix of their concatenation |
| `FifoViews.OutcomeUnique` | src/svm/svm_fifo.c:846-896 | an enqueue has one outcome: the same fifo, supply and bytes determine the result, the number of bytes written, log, head, tail and segments, in the error cases too, and the chain when no chunk is allocated |
| `FifoViews.SafeGrowth` | src/svm/svm_fifo.c:808-844 | what was allocated reaches the end of the write if and only if no more than 4 MB was missing or the request's own class could not serve it |
| `FifoViews.TooLargeIsShort` | src/svm/svm_fifo.c:808-844 | with room for a refill every growth by more than 4 MB is too short |
| `FifoViews.LookupEnq` | src/svm/svm_fifo.c:604-651 | cached chunk, linear scan and tree all give the chunk that holds the position; the tree's run starts at the tail's chunk |
| `FifoViews.LookupDeq` | src/svm/svm_fifo.c:653-700 | the same for the consumer, with the run starting at the start chunk |
| `FifoViews.UnlinkLookup` | src/svm/svm_fifo.c:1054-1092 | what remains of the dequeue tree and the cached chunk belongs to the chunks that stay |
| `FifoViews.ClearAll` | src/svm/svm_fifo.c:1207-1218 | the dequeue tree is a run from the tail's chunk, or keeps the start chunk exactly in the case named |
| `FifoViews.LeavesNodeIs` | src/svm/svm_fifo.c:1207-1218 | a node is left behind exactly when the start chunk is in the dequeue tree, has a next chunk and ends at the head |
| `FifoViews.NodeOutside` | src/svm/svm_fifo.c:1207-1226 | a tree with a node for a chunk that has left the chain is not an index of the chain |
| `FifoViews.GatherPieces` | src/svm/svm_fifo.c:1311-1327 | the pieces are the logged bytes: the k-th is what the positions asked for have in common with the k-th chunk from the one that holds the first, and the number of bytes is what was asked for or reaches to the end of the last chunk allowed |
| `FifoViews.FirstAllocIs` | src/svm/fifo_segment.c:736 | the first allocation is the percentage of the size, rounded down, or 4096 bytes, where the product has lost its multiples of 2^32 |
| `Fifos.Fifo.constructor` | src/svm/svm_fifo.c:371-405 | an empty valid fifo over the allocated chunks |
| `Fifos.Fifo.Alloc` | src/svm/fifo_segment.c:727-761 | a new empty fifo over chunks that nobody held if and only if the first allocation can be served; otherwise null with nothing handed out; the chain holds the first allocation, or one chunk of 4 MB if that is less |
| `Fifos.Fifo.Free` | src/svm/fifo_segment.c:923-981 | all chunks of the fifo are free and others keep theirs, also when the dequeue tree has a node left behind |
| `Fifos.Fifo.InitEnqLookup` | src/svm/svm_fifo.c:407-420 | enables the enqueue tree on a valid fifo |
| `Fifos.Fifo.InitDeqLookup` | src/svm/svm_fifo.c:407-420 | enables the dequeue tree on a valid fifo |
| `Fifos.Fifo.LinkChunks` | src/svm/svm_fifo.c:821-841 | the chain grows at its end by the new chunks; the tail's chunk is set if it was null |
| `Fifos.Fifo.TryChunkAlloc` | src/svm/svm_fifo.c:808-844 | the chain grows if and only if the segment can serve the request, and otherwise nothing of the fifo changes; the bytes asked for then fit if and only if the growth is one that `Safe` allows; it grows by what `AllocSize` asks for, or by one chunk of 4 MB if that is less |
| `Fifos.Fifo.GrowsEnough` | src/svm/svm_fifo.c:808-844 | whether a growth for this many bytes would reach their end, decided before the call |
| `Fifos.Fifo.Reserve` | src/svm/svm_fifo.c:861-869 | room for all bytes, or for as many as the chain holds when it cannot grow, with the exact condition |
| `Fifos.Fifo.Publish` | src/svm/svm_fifo.c:877-895 | collects segments, restores the lookup and the tail's chunk, and moves the tail to the first position not written |
| `Fifos.Fifo.AppendBytes` | src/svm/svm_fifo.c:871-895 | bytes that the chain has room for are written at the tail, and the tail moves to the first position not written |
| `Fifos.Fifo.Enqueue` | src/svm/svm_fifo.c:846-896 | `Outcome`: full, cannot grow, or the longest prefix that fits is written at the tail; the result is the tail advance; nothing changes on an error; the chain keeps its chunks, and no chunk is allocated when the bytes fit |
| `Fifos.Fifo.WriteAhead` | src/svm/svm_fifo.c:924-938 | the bytes are written ahead of the tail and recorded as segments |
| `Fifos.Fifo.EnqueueWithOffset` | src/svm/svm_fifo.c:905-940 | all of the bytes or none, with the exact condition of each error; the tail stays; the covered positions grow by exactly the new ones |
| `Fifos.Fifo.AppendBuffers` | src/svm/svm_fifo.c:1000-1051 | the first n bytes of the concatenated buffers are enqueued |
| `Fifos.Fifo.EnqueueSegments` | src/svm/svm_fifo.c:971-1052 | with partial writes allowed, `Outcome` of the concatenation, as for an enqueue; otherwise all, with the same outcome, or nothing, with the exact condition of each error |
| `Fifos.SegmentsAreOneEnqueue` | src/svm/svm_fifo.c:971-1052 | on two fifos in the same state, an enqueue of the concatenation and an enqueue of the buffers return the same and leave the same log, head, tail and segments, and the same chain when the bytes fit without a growth |
| `Fifos.Fifo.CutAndCollect` | src/svm/svm_fifo.c:1093-1102 | the chunks cut off are free and the others unchanged |
| `Fifos.Fifo.Unlink` | src/svm/svm_fifo.c:1054-1103 | the chain keeps the chunk of the new head, or the last one, and all after it; with trees in use both stay right |
| `Fifos.Fifo.Advance` | src/svm/svm_fifo.c:1131-1136 | moves the head and gives back the chunks it has left |
| `Fifos.Fifo.Dequeue` | src/svm/svm_fifo.c:1105-1139 | returns the bytes last written from the head on, as many as asked for and there, and drops them |
| `Fifos.Fifo.DequeueDrop` | src/svm/svm_fifo.c:1168-1201 | drops as many bytes; lookup and cached chunks name only chunks that stay |
| `Fifos.Fifo.Peek` | src/svm/svm_fifo.c:1141-1166 | returns the bytes last written at an offset and changes nothing but the dequeue lookup |
| `Fifos.Fifo.DropAll` | src/svm/svm_fifo.c:1207-1226 | empties the fifo and gives chunks back; the fifo is valid afterwards if and only if no node is left behind, and the case is stated exactly |
| `Fifos.LeaveNode` | src/svm/svm_fifo.c:1207-1226 | a run from a new segment and a new fifo, through filling and draining, an enqueue, a peek and a drop of everything, that always ends with a node of the dequeue tree for a chunk that is free |
| `Fifos.ShortGrowth` | src/svm/svm_fifo.c:808-844 | a run from a new segment and a new fifo to a growth that succeeds and leaves the chain too short for the bytes asked for |
| `Fifos.WearOff` | src/svm/svm_fifo.c:846-1201 | enqueues and drops bring head and tail to the end of the chain, with one chunk left |
| `Fifos.Fifo.SegmentsAt` | src/svm/svm_fifo.c:1283-1330 | the pieces hold the bytes a peek would return, chunk by chunk, and as many as are in the chunks allowed |
| `Reassembly.AgreesWritten` | src/svm/svm_fifo.c:846-940 | writing a piece of a stream at its position keeps the log in agreement with the stream |
| `Reassembly.Arrive` | src/vnet/tcp/tcp_input.c:1237-1300 | a receiver that drops old bytes, enqueues the next and writes ahead the rest keeps a valid fifo in agreement with the stream; an accepted piece is stored in full; a piece with new bytes is accepted if and only if it is not beyond the fifo's size and the chain reaches to its end or a growth succeeds and reaches to it; `Arrived` gives log and tail afterwards, also of a piece of which only a part is taken |
| `Reassembly.TakeNext` | src/vnet/tcp/tcp_input.c:1269-1296 | the part of a piece from the tail on is enqueued: as much as fits, as the chain holds when it cannot grow, or nothing when it would not grow enough; all of it if and only if there is no reason to refuse it |
| `Reassembly.TakeAhead` | src/vnet/tcp/tcp_input.c:1153-1174 | a piece beyond the tail is written ahead, in full if and only if there is no reason to refuse it, and otherwise nothing changes |
| `Reassembly.Take` | src/svm/svm_fifo.c:1105-1201 | a dequeue, or a peek and a drop, hand out the next bytes |
| `Reassembly.Receive` | src/svm/svm_fifo.c:846-1139 | every sequence of arrivals and reads, by dequeues or by peeks and drops, hands out the stream in order, without gaps or repetitions; the fifo then holds what follows; every position before the tail came with some piece, and no accepted piece has the tail; from one event to the next the fifo changes exactly as `Happened` says: what an arrival leaves in the log and whether it is accepted, and how many bytes a read takes |
| `Reassembly.AllStoredGap` | src/svm/svm_fifo.c:309-355 | if everything accepted is stored and the tail is not, no accepted piece has the tail's position |
| `Reassembly.PeekIsDropAndPeek` | src/svm/svm_fifo.c:1141-1201 | a peek at an offset returns the logged bytes there, equals a peek after dropping the offset, and the pieces hold the same bytes, as many as are in the chunks allowed |
| `Conservation.Carry` | src/svm/fifo_segment.c:775-794 | a step of one owner that conserves chunks leaves every other fifo valid and disjoint from it, and nothing is handed out that is not in a chain |
| `Conservation.EveryChunkOnce` | src/svm/fifo_segment.c:589-628 | in a complete segment each chunk is on exactly one free list, that of its size, and in no chain, or on no free list and in the chain of exactly one fifo |
| `Conservation.Do` | src/svm/svm_fifo.c:808-1330 | every operation has its effect on the stream and conserves chunks; the fifo is valid afterwards if and only if the operation was not a drop of everything in the case that leaves a node behind |
| `Conservation.Operate` | src/svm/svm_fifo.c:808-1330 | every operation of one fifo has its effect, keeps the segment complete and all other fifos valid; the one used stays usable exactly unless it has a node left behind |
| `Conservation.Create` | src/svm/fifo_segment.c:727-761 | a new, empty fifo joins the others if and only if its first allocation can be served, and they keep their chunks |
| `Conservation.Destroy` | src/svm/fifo_segment.c:923-981 | any fifo of the segment can be freed, also one with a node left behind; the others are as they were and no chunk is left behind |
| `Conservation.Run` | src/svm/fifo_segment.c:589-981 | in every run of creations, operations and removals on a new segment each command does what it is for to the fifo that it names and nothing to the others, and every chunk is on a free list or in a chain, and not both |
| `TaggedStack.NewHeadParts` | src/svm/fifo_segment.c:137-168 | the new head word carries the pointer and the tag plus one, modulo 2^16 |
| `TaggedStack.NoAba` | src/svm/fifo_segment.c:202-218 | a compare-and-swap that succeeds within 2^16 operations of its load has seen the current list |
| `TaggedStack.StepKeeps` | src/svm/fifo_segment.c:149-221 | every step of every thread keeps the list, the exclusive ownership of chunks and what threads know |
| `TaggedStack.StepIsAtomic` | src/svm/fifo_segment.c:149-221 | a compare-and-swap that succeeds is one push of the thread's list, which it held, or one pop of the top, which it then holds; a load of a null head finds the stack empty; every other step leaves the stack and all holdings alone |
| `TaggedStack.RunIsStack` | src/svm/fifo_segment.c:149-221 | the pushes, pops and failed pops of a timely run, in the order of their steps, are a run of a stack |
| `TaggedStack.EveryCall` | src/svm/fifo_segment.c:149-221 | in every timely run a thread does exactly one operation between the start of a call and its return: a push has pushed its list, a pop has popped a chunk, which the thread then holds, or has found the stack empty |
| `TaggedStack.FailsForAnother` | src/svm/fifo_segment.c:160-218 | a compare-and-swap fails only because another one has succeeded since its load |
| `TaggedStack.RunSafe` | src/svm/fifo_segment.c:149-221 | in every timely run the list in memory is the abstract stack, without repetitions, and no chunk is both free and held |
| `TaggedStack.BoundIsTight` | src/svm/fifo_segment.c:202-208 | with one more operation allowed there is a run after which the head of the list is a chunk that a thread holds |
| `Bump.StepKeeps` | src/svm/fifo_segment.c:19-41 | every step, spurious failures included, keeps regions aligned, apart and below the index, and the index below the maximum |
| `Bump.RunSafe` | src/svm/fifo_segment.c:19-41 | the same for every run |
| `Bump.EveryCall` | src/svm/fifo_segment.c:19-41 | in every run a thread gets, between a call and its return, exactly one region of the size and alignment it asked for, or none, and then the next aligned bytes do not fit |
| `Bump.AloneSucceeds` | src/svm/fifo_segment.c:19-41 | a call without contention fails only when its request does not fit |
| `Spsc.AllocGranted` | src/svm/svm_fifo.c:808-820 | whatever `f_try_chunk_alloc` asks for and gets is a growth that the state machine allows: enough when at most 4 MB is missing, and bounded |
| `SpscProducer.PLinkKeeps` | src/svm/svm_fifo.c:836-841 | linking new chunks is right while the consumer reads, peeks, walks and unlinks |
| `SpscProducer.PSeekKeeps` | src/svm/svm_fifo.c:924-931 | recording a write ahead and bringing the enqueue tree up to it is right while the consumer unlinks chunks |
| `SpscProducer.PWriteKeeps` | src/svm/svm_fifo.c:26-55 | a byte written at or ahead of the tail changes nothing that the consumer has read or may read |
| `SpscProducer.PRecordKeeps` | src/svm/svm_fifo.c:933-938 | after a write ahead the bytes are those of the segments recorded, and `ooo_enq` names a chunk from the tail on |
| `SpscProducer.PPublishKeeps` | src/svm/svm_fifo.c:877-893 | the store of the tail publishes exactly the bytes written and those written ahead that follow; the enqueue tree starts at the new tail again |
| `SpscProducer.ProducerKeeps` | src/svm/svm_fifo.c:808-940 | every step of the producer keeps the invariant of both sides |
| `SpscConsumer.CReadKeeps` | src/svm/svm_fifo.c:57-88 | each byte that a dequeue or a peek copies is the one published at its position |
| `SpscConsumer.CSeekKeeps` | src/svm/svm_fifo.c:1155-1159 | bringing the dequeue tree up to a peek is right while the producer writes and links |
| `SpscConsumer.CWalkKeeps` | src/svm/svm_fifo.c:1067-1082 | the walk, with its deletions from the dequeue tree, is right while the producer links chunks |
| `SpscConsumer.CCutKeeps` | src/svm/svm_fifo.c:1083-1101 | after the cut the chain, the dequeue tree, `ooo_deq` and the head chunk belong to the chunks that stay, and the others are in the pool |
| `SpscConsumer.CStoreKeeps` | src/svm/svm_fifo.c:1135-1136 | the store of the head gives the producer exactly the room that was read or dropped |
| `SpscConsumer.ConsumerKeeps` | src/svm/svm_fifo.c:1054-1201 | every step of the consumer keeps the invariant of both sides |
| `Spsc.CutBehind` | src/svm/svm_fifo.c:1093-1101 | the chunks that the consumer cuts off are not the tail's, not the one being written, not the last, and not one that the enqueue tree or `ooo_enq` names |
| `Spsc.TreesLive` | src/svm/svm_fifo.c:604-700 | both trees, `ooo_enq` and `ooo_deq` name only chunks of the chain, and none of the pool |
| `Spsc.SeekAhead` | src/svm/svm_fifo.c:604-651 | the lookup of the code, run at any point of any interleaving, finds the chunk of a write ahead: its result is a step of the state machine |
| `Spsc.ClearCollected` | src/svm/svm_fifo.c:702-734 | the same for the clearing of the enqueue tree up to the new tail |
| `Spsc.SeekPeek` | src/svm/svm_fifo.c:653-700 | the same for the lookup of a peek |
| `Spsc.StepKeeps` | src/svm/svm_fifo.c:808-1201 | every step of either side keeps the invariant of both |
| `Spsc.Quiescent` | src/svm/svm_fifo.c:846-1201 | with both sides idle the invariant is exactly that of the fifo used by one side at a time, with all chunks accounted for |
| `Spsc.ReadIsPrefix` | src/svm/svm_fifo.c:1105-1201 | what was read or dropped is a prefix of what was published, and the fifo never holds more than its size |
| `Spsc.ReadIsSent` | src/svm/svm_fifo.c:1141-1166 | what a dequeue or a peek at an offset has copied is what was published that far beyond what was read |
| `Spsc.ProducerProgress` | src/svm/svm_fifo.c:808-940 | in every phase the producer can take its next step if and only if the chain is not short of its write: the chunk it follows, looks up or writes to is there and the byte is inside it; it is never short when the chain reaches to the end of the write, nor in a fifo of at most 4 MB |
| `Spsc.ConsumerProgress` | src/svm/svm_fifo.c:1054-1201 | in every phase the consumer can take its next step: reading, peeking, walking and cutting |
| `Spsc.RunSafe` | src/svm/svm_fifo.c:846-1201 | in every interleaving all of these hold: prefix, bound, conserved chunks, live trees and cached chunks, progress of the consumer always and of the producer exactly unless a growth was too short |
| `SpscSpec.StepRefines` | src/svm/svm_fifo.c:26-1201 | every step of either side has exactly the effect that a fifo without chunks gives it: a call begins with the bytes that the caller gave and as many as fit, a write takes effect as a whole when it is finished, and the head moves when it is stored |
| `SpscSpec.RunRefines` | src/svm/svm_fifo.c:846-1201 | every interleaving is a run of that fifo |
| `SpscSpec.EveryEnqueue` | src/svm/svm_fifo.c:846-896 | every completed enqueue has published the first bytes of its source from the tail at which it began: as many as fitted then, or as many as the chain had room for when it could not grow |
| `SpscSpec.EveryWriteAhead` | src/svm/svm_fifo.c:905-940 | every completed write ahead leaves the tail alone and has recorded exactly its bytes at its offset, if and only if they fit and the chain did not fail to grow |
| `SpscSpec.EveryGet` | src/svm/svm_fifo.c:1105-1201 | every completed dequeue, peek or drop has copied what was published when it began at its offset from what was read before, as much as was asked for and there; a dequeue and a drop have moved the head over it, a peek has not |
| `SpscSpec.InitRefines` | src/svm/svm_fifo.c:371-405 | a new fifo is the empty one |
| `Spsc.InitOk` | src/svm/svm_fifo.c:371-405 | an empty fifo over a chain that starts at position 0 satisfies the invariant |
| `MsgQueue.StepKeeps` | src/svm/message_queue.c:220-418 | every step of a lock holder or the consumer keeps the invariant |
| `MsgQueue.RunSafe` | src/svm/message_queue.c:220-418 | in every interleaving each ring's live messages are consecutive allocations, at most as many as it has slots, the queue is never overrun, and no access is outside the rings or the queue |
| `MsgQueue.RunIsQueue` | src/svm/message_queue.c:220-418 | in every interleaving messages are received in the order in which they were sent and freed in the order in which they were received, each once, and none is lost |
| `MsgQueue.EveryCall` | src/svm/message_queue.c:220-397 | every call of a producer, from the lock to its release, sends exactly one message of the ring it asked for, in the slot after those handed out before, or has found the queue or that ring full and has taken nothing |
| `MsgQueue.EveryConsume` | src/svm/message_queue.c:291-418 | every call of the consumer receives exactly one message, the first in the queue, or frees exactly one, the one that it has held longest |
| `MsgQueue.HolderProgress` | src/svm/message_queue.c:220-397 | in every phase the lock holder can take its next step |
| `MsgQueue.ConsumerProgress` | src/svm/message_queue.c:291-418 | the same for the consumer |
| `MsgQueue.NotReused` | src/svm/message_queue.c:220-236 | a slot is allocated only when no live message has it |
| `MsgQueue.FreedInOrder` | src/svm/message_queue.c:291-318 | the message freed is at the ring's head, so the out-of-order branch is unreachable |
| `MsgQueue.LiveIsValid` | src/svm/message_queue.c:320-341 | every live message that its ring counts passes the validity check, also when the consumer frees messages between the reads of head, tail and size |
| `MsgQueue.ValidIsLive` | src/svm/message_queue.c:320-341 | while nothing of the ring is being allocated or freed, the check passes exactly the slots of live messages |
| `MsgQueue.InitOk` | src/svm/message_queue.c:71-101 | freshly initialised rings and queue satisfy the invariant |
| `Wakeup.AddKeeps` | src/svm/message_queue.c:343-389 | a consumer asleep when a message is added has a broadcast coming |
| `Wakeup.TakeKeeps` | src/svm/message_queue.c:399-418 | taking a message off a full queue makes a broadcast due |
| `Wakeup.StepKeeps` | src/svm/message_queue.c:343-567 | every step but the end of a batch keeps the mutex exclusive and loses no wake-up |
| `Wakeup.RunSafe` | src/svm/message_queue.c:343-567 | in every run without batches a waiting producer on a queue that is not full has a broadcast due, a sleeping consumer on one that is not empty too, and not everyone is asleep |
| `Wakeup.RunCounts` | src/svm/message_queue.c:343-452 | the size counts what was added and not taken |
| `Wakeup.EveryAdd` | src/svm/message_queue.c:361-389 | every call of a producer adds exactly one message, however often it has to wait |
| `Wakeup.EveryTake` | src/svm/message_queue.c:399-480 | every call of the consumer takes messages exactly once |
| `Wakeup.BatchTakeKeeps` | src/svm/message_queue.c:420-452 | a batch keeps the guarantee if and only if no producer waits or the size it read was the full size |
| `Wakeup.BatchLoses` | src/svm/message_queue.c:420-452 | a run from the initial state in which a batch leaves a producer asleep on a queue that is not full, with no broadcast due |
| `Ip6.ReadGroups` | src/vat/plugin_api.c:107-160 | the parser's loop goes through the states of the specification and never overruns the groups; what those read is `Ip6.ParseExactly` |
| `Ip6.Expand` | src/vat/plugin_api.c:168-178 | in place, the groups after the double colon move to the end and zeros fill the gap |
| `Ip6.Unformat` | src/vat/plugin_api.c:98-187 | the result is what the text means by a grammar of groups, colons and a double colon (`Means`), and eight groups on success |
| `Ip6.ParseExactly` | src/vat/plugin_api.c:98-187 | a text is read as an address if and only if its longest start of that form, with digits of either case, one double colon at most and perhaps a colon alone at either end, has eight groups or a double colon; it is refused if and only if it has a fifth digit in a group, a second double colon or something after the eighth group and a colon, or is too short |
| `Ip6.FindZeros` | src/vat/plugin_api.c:201-221 | the printer's search computes the specified run |
| `Ip6.Format` | src/vat/plugin_api.c:196-244 | the printer computes the specified text; what that is say `Ip6.HexIs` and `Ip6.PrintsLongest` |
| `Ip6.HexIs` | src/vat/plugin_api.c:223-242 | a group is printed in lower-case digits, without leading zeros |
| `Ip6.PrintsLongest` | src/vat/plugin_api.c:196-244 | unless the printer is mistaken, the double colon stands for the first longest run of zero groups if it has two or more, and nothing else is left out |
| `Ip6.RoundTrip` | src/vat/plugin_api.c:98-244 | reading a printed address, whatever follows it, uses exactly its text and gives the address with the replaced groups zero |
| `Ip6.RoundTripExactly` | src/vat/plugin_api.c:98-244 | that is the address itself if and only if the second run of zero groups is longer than the first or the later runs together are no longer than the first |
| `Ip6.TwoRunsSuffice` | src/vat/plugin_api.c:196-244 | with at most two runs of zero groups the address is always read back |
| `Ip6.Loses` | src/vat/plugin_api.c:206-221 | an address with three runs that is not read back |

## Left out

- The internals of the red-black tree of vppinfra: the lookup trees are unbalanced search trees with the same contents and order.
- Red-black tree indices and pools: a chunk stores whether it is in a tree instead of a node index, and a pool hands out any unused index.
- Weak memory orders: steps are sequentially consistent; the acquire and release accesses of the source are not distinguished.
- The fifo as a class covers one thread at a time; concurrency of producer and consumer is the subject of `Spsc`, which models enqueues, writes ahead, dequeues, peeks and drops; `svm_fifo_enqueue_segments`, `svm_fifo_dequeue_drop_all`, `svm_fifo_segments` and a peek exactly at the tail are not interleaved.
- `Spsc.ProducerProgress`: which runs of a fifo above 4 MB have a growth that is too short is left to `FifoViews.SafeGrowth`; the state machine allows any growth that the allocator may make.
- The segment's counters are unbounded integers, and each push and pop is one step; `TaggedStack` and `Bump` justify the steps.
- Fifo sizes above 0x7E000000 bytes, for which positions could stand 2^31 or more apart.
- `Segments.Segment.constructor`: segments above 1 TB, for which the batch size of the fallback could wrap to 0, which the source asserts against.
- `Segments.Segment.TryAllocMulti`: requests of no bytes, and the wrap of the 32-bit byte count for requests within 2 MB of 2^32; no fifo of the sizes modelled makes either.
- `Segments.Segment.TryAllocChunk`: requests of no bytes, which no caller makes and for which the fallback's batch size can be 0.
- `Segments.Segment.CollectChunks`: the wrap of the 32-bit byte count for chains of 4 GB, which no fifo of the sizes modelled has.
- `Fifos.Fifo.Enqueue`: growth that `Safe` excludes, by exactly the condition of `FifoViews.SafeGrowth`: the chain would be too short and the copy would follow a null pointer; also no bytes at the end of the chain, for the same reason.
- `Fifos.Fifo.EnqueueWithOffset`: the same growth, offset 0 and no bytes, which the source asserts against, and an offset whose sum with the length wraps, which passes the test against the free room.
- `Fifos.Fifo.EnqueueSegments`: the same growth, and empty buffers.
- `Fifos.Fifo.Peek`: of nothing at the end of the chain, where the source would follow a null pointer.
- `Fifos.Fifo.Dequeue`: after peeks that have built a dequeue tree; the source asserts against it.
- `Fifos.Fifo.Alloc`: fifo headers and their free list, and first allocations of more than 100 percent that are above 4 MB.
- `Fifos.SegmentsAreOneEnqueue`: after a growth the chains are not compared, since which chunks a chain gets depends on the free lists.
- `Reassembly.Arrive`: acknowledgements and chains of buffers; a growth that would be too short counts as refused, where the source would follow a null pointer.
- `Conservation.Do`: calls that the operations above do not admit do nothing, and no others: nothing written or peeked at the end of the chain, empty buffers, a write ahead of no bytes, at offset 0 or at an offset whose sum with the length wraps, growth that would be too short, and a dequeue with a dequeue tree.
- `Conservation.Run`: a fifo with a node left behind is only removed, and no longer used; creations with no such slice, of a size that is 0 or above the limit, or with a first allocation that `Fifos.Fifo.Alloc` excludes do nothing.
- `svm_fifo_fill_chunk_list`, `svm_fifo_provision_chunks`, `svm_fifo_overwrite_head` and the size queries: easy members over the same state.
- `svm_fifo_enqueue_nocopy`, `svm_fifo_set_size`, `svm_fifo_clone`, tracing, subscribers, events and notification flags.
- Attaching and detaching fifos between slices, preallocation, watermarks and memory-pressure states.
- Eventfd signalling, timed waits, dead lock owners, and waiting for a full ring in the message queue.
- `svm_msg_q_alloc_msg`, which picks a ring by size, and `svm_msg_q_add` without waiting.
- Byte order of the IPv6 address and the other parsers and printers of `vat`.
