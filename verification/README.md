# InstantTensor loader: a verified model

InstantTensor streams the tensors of safetensors files through a ring buffer in device memory. A loader thread cuts
the files into page-aligned chunks, posts them ahead of the reader, and hands out the address of a tensor once the
tensor's last chunk has arrived. Nothing in the program records what is where in the ring: the loader only compares
two chunk numbers per tensor, its last chunk and the chunk up to which it may prefetch while the tensor is in use. This
project models that program in Dafny and proves what it relies on.

The main results, each over all inputs and all runs:

- **The ring agrees with the files.** For any well-formed list of tensors, any buffer that the frontend may ask for,
  any requests, and any number of prefetch steps and completions in between, a tensor whose address has been handed
  out is in device memory, byte for byte, at every moment until the next request is taken
  (`LoaderCore.Loader.HeldUntilNextRequest`, an invariant that `LoaderCore.Loader.Run` keeps); from the files' metadata
  to these bytes it is `Wiring.FileBytesHeld`. It is so on every rank of a group of ranks that run at different speeds
  and meet only in the all-gathers, provided that copies overtake only gathers of chunks elsewhere in the buffer
  (`Cluster.HeldOnEveryRank`; see *Chunks in flight* below).
- **Neither the layout nor the loader fails.** With what the frontend passes, OPEN cannot throw
  (`LoaderCore.Loader.Open`, `Frontend.MakeOpenArgs`), and a request in order for a non-empty tensor is answered
  (`LoaderCore.ReplyIsAddress`); `LoaderCore.ReplyIff` says which requests are answered at all. All internal errors of
  `compute_layout`, `can_step` and `wait_read_chunk` are accounted for: each is unreachable or has its exact condition.
- **The loader prefetches, and how far is known.** Between requests it posts one chunk after the other up to the
  prefetch chunk of the tensor handed out last, and only then waits for a request (`LoaderCore.Loader.Run`,
  `LoaderCore.Loader.RequestIsDue`, `LoaderCore.Loader.ReplyPrefetches`). With the default buffer size, nine tenths of
  all bytes belong to tensors that do not lie over their predecessor and can be loaded, up to their last chunk, while
  it is in use (`DefaultSize.DefaultSizeOverlaps`).
- **The levels fit together.** What OPEN sets up on a rank is what all the results about ranks, reads and threads start
  from (`Wiring.OpenIsWired`, `Wiring.OpenedIsWired`). Copying a slot that a rank's reads or copy tasks have filled is
  just that rank's copy step in the runs of all ranks (`Wiring.CopyIsStep`, `Wiring.TasksAreCopied`), and what `stop`,
  the workers' rounds and the reaper do are steps of the executor's state machine.
- **What the layout does is known.** It says when a tensor starts a new pass over the ring (`RingFit.NewPassIff`), how
  files are cut (`RingChunks.ChunksAreFull`) and what is read (`RingVolume.LayoutVolume`). The chunk after a
  tensor's prefetch chunk is the first one that ends behind the tensor's start in the next pass over the ring, or that
  belongs to a later pass (`RingSharp.PrefetchSharp`); `RingSharp.FurthestIff` says exactly when it would overwrite
  the tensor.
- **The I/O below a chunk is right.** Slices tile a chunk, reads in flight never overlap in the host buffer, the shared
  completion counts never go below zero, and a chunk's slot is full from the end of its loop until the chunk is reaped
  (`HostMachine`).
- **The executor loses and repeats nothing, and the in-memory backend's threads cannot deadlock**: whoever waits, a
  step can be taken, and it lowers a measure (`ExecutorMachine`, `PipelineMachine`). The waits of the libaio and
  io_uring backends for completion events end as well (`HostHarvest`).
- **Which rank waits for which is known exactly.** A rank that waits for its tensor gets it, without any further request
  on any rank, if and only if every rank's current tensor allows the tensor's last chunk to be prefetched
  (`Cluster.ServedIff`).

## How it is built

| modules | what they hold |
|---|---|
| `RingLayout` | the layout as functions on a value `Plan`, one for each closure and branch of `compute_layout` |
| `RingSafety`, `RingRun`, `RingTheorems` | the invariant of the layout and its consequences |
| `RingBounds`, `RingAlign`, `RingVolume` | bounds, alignment, read volume |
| `RingPasses`, `RingCover`, `RingSharp` | the passes over the ring, which chunks bring a tensor's bytes, and what a tensor's two chunk numbers mean exactly |
| `RingFit`, `RingChunks`, `RingNeighbours` | when a new pass starts and where tensors are placed, how files are cut into chunks, and what keeps neighbouring tensors apart |
| `RingPlanner` | `compute_layout` in place, proved to compute `RingLayout.Layout` |
| `DeviceMemory`, `LoaderCore` | device memory as a map from addresses to bytes, and the loader as a class with a ghost trace of chunks posted and arriving, iterations, requests and replies |
| `Cluster` | several ranks as a state machine |
| `Slices`, `HostReads`, `HostMachine`, `HostHarvest`, `MappedReads`, `UringBuffers` | slices, the loops of the backends, reads in flight and waiting for them |
| `ExecutorCore`, `ExecutorMachine`, `PipelineMachine` | the executor in place and as a state machine, and the four kinds of threads |
| `Wiring` | from an opened loader to the ranks, the reads and the threads, and from the files' metadata to the bytes handed out |
| `BufferSize`, `Frontend`, `DefaultSize` | the Python frontend's buffer size and list of offsets, and what a buffer size means for an opened loader |
| `RoundMath`, `Wrappers` | rounding and division; `Option` and `Result` |

The invariant of the layout needs no pass numbers. It says of every byte of every placed tensor that some chunk up to
the tensor's last one brings the byte to its address and that no later chunk up to the prefetch chunk touches that
address, padding included (`RingSafety.Kept`). A tensor that is still waiting for its prefetch chunk is covered by
comparing its address with the end of the pending chunk.

Sizes and offsets (`size_t`) are unbounded naturals. No subtraction of the layout goes below zero under the
frontend's contract; overflow of 64 bits is not modelled. Request ids keep their 31 bits.

## What turned out differently

- *Header-only chunks.* When a new file starts in the middle of a page and its first tensor does not fit, the planner
  emits a chunk with only that page's first bytes, without checking that it fits. `RingBounds.HeaderOverflow` is such
  a list: two files, one thread, one rank, and a chunk whose own bytes, without padding, end past the buffer.
  `RingBounds.ChunksInsideIff` gives the exact condition on the guard, both for several ranks, where the all-gather
  also writes the padding, and for one rank, which copies just the chunk. `RingBounds.TensorChunkInside` shows that
  chunks with tensor data are never affected. The loader's own tensors stay intact, since what overflows lies past the
  buffer's end.
- *Padding.* The comment at csrc/loader_common.cpp:85 says that any non-negative padding of the buffer would do. The
  code needs it: `RingBounds.TensorInsideIff` says exactly when a tensor is placed past the buffer's end, and
  `RingBounds.LoneTensorInsideIff` gives the inputs. With the padding that `init_buffer` adds every tensor fits.
- *Prefetching.* csrc/instant_tensor/types.hpp:97 calls a tensor's prefetch chunk the furthest one that does not
  overwrite the tensor. `RingSharp.NotFurthest` is a list for which the next chunk does not overwrite it either: the
  planner ends prefetching at the start of the second pass after the tensor's, wherever in the buffer that pass
  writes. `RingSharp.FurthestIff` is the exact condition.
- *Neighbouring tensors.* instanttensor/_impl.py:598 says that the default size keeps any two contiguous tensors from
  overlapping in the buffer. It does not: `DefaultSize.NeighboursOverlap` has a file with two tensors whose recommended
  size is that of the first, with the second placed over it. `RingNeighbours.SeparateIff` is the exact condition for
  two neighbours. The size that the frontend computes for a tensor, its predecessor and twice the tensor itself, is
  enough (`DefaultSize.OpenedBeside`), and `RingNeighbours.LessOverlaps` has lists for which a size between the sum of
  the two and that is not. Even so the tensor's last chunk may have to wait until its predecessor is given up, as the
  chunk can reach further than the tensor does (`RingNeighbours.SharedChunk`); `RingNeighbours.LoadsWhileIff` says
  exactly when it need not, and room for one chunk more is always enough.
- *Empty tensors.* An empty tensor at a page boundary with nothing of its file before it is given the number of a chunk
  that does not hold it, and a request for it can be refused. `RingSharp.LoneEmptyTensor` has the input, a file with
  one empty tensor at a page boundary. `RingSharp.RequestIff` and `LoaderCore.ReplyIff` give the exact condition for
  every tensor of every list: its last chunk is emitted in the tensor's own pass over the ring, or in the next pass
  and in front of the tensor. For non-empty tensors, and for empty ones with something of their file's first page
  before them, it holds (`RingTheorems.LastBeforePrefetch`).
- *Metadata.* The frontend checks that tensors follow each other, but not that the last one of a file ends after it
  begins, and not that there are files. `Frontend.MakeOpenArgs` says exactly when it opens, and that what it opens is
  within the loader's contract if and only if there are files and no tensor ends before it begins.
  `Frontend.OpenedOutsideContract` has an input for either case: a file whose last tensor is -4 bytes long, with a
  buffer size requested, and an empty list of files with none requested, for which csrc/loader_common.cpp:242 then
  reads the last element of an empty list.
- *Ranks at different speeds.* A rank can be held up by another one for as long as that one likes: no chunk is gathered
  beyond what every rank's current tensor allows (`Cluster.NoGatherPast`, `Cluster.NoneAhead`). `Cluster.ServedIff` is
  the exact condition for a waiting rank to be served, and a rank that is on no later tensor than any other always is
  (`Cluster.EarliestIsServed`).
- *Chunks in flight.* With several ranks a chunk's all-gather, on its own stream, is not waited for by the next chunk's
  copy, so chunks in flight together should lie apart. `RingSharp.InFlightOverlap` is a list, of two ranks and a window
  of two chunks, for which they do not: a chunk with only the first bytes of a file's page stands where the first chunk
  of the next pass is written. `RingSharp.OverlapIff` says which chunks overlap; a chunk that may be prefetched while a
  tensor is in use is apart from all earlier chunks of the tensor's pass that do not start in front of the tensor
  (`RingSharp.PrefetchedApart`).

## Model

| member | source | states |
|---|---|---|
| RoundMath.RoundUpIs | csrc/instant_tensor/common.hpp:57-65 | ROUND_UP(x, y) is the multiple of y in [x, x + y) |
| RoundMath.RoundDownIs | csrc/instant_tensor/common.hpp:67-70 | ROUND_DOWN(x, y) is the multiple of y in (x - y, x], and x is it plus x % y |
| RingPlanner.Planner.AssignPrefetch | csrc/loader_common.cpp:268-283 | the while loop: exactly the tensors of the previous pass that start before the limit get the chunk as prefetch chunk, and in_buffer_tensor_id moves past them |
| RingPlanner.Planner.FinishChunk | csrc/loader_common.cpp:251-274 | the shared variables become those of `Finish`; it throws exactly if a chunk does not start at a page |
| RingPlanner.Planner.ResetChunkBufferOffset | csrc/loader_common.cpp:275-286 | the shared variables become those of `Wrap`; it throws exactly if a whole page is still pending |
| RingPlanner.Planner.ResetChunkFile | csrc/loader_common.cpp:287-295 | the shared variables become those of `OpenFile`; it throws exactly if a whole page is still pending |
| RingPlanner.Planner.AppendBytes | csrc/loader_common.cpp:323-330 | the chunk-splitting loop computes `Append` and terminates |
| RingPlanner.Planner.EnsureRoom | csrc/loader_common.cpp:317-321 | a tensor that does not fit starts a new pass over the ring; RingFit.NewPassIff says which tensors do not |
| RingPlanner.Planner.PlaceTensor | csrc/loader_common.cpp:310-334 | the size mismatch error is impossible; the only error is a tensor larger than the buffer, exactly when it is |
| RingPlanner.Planner.SwitchFile | csrc/loader_common.cpp:305-309 | a file switch never throws and gives the next state of `Run` |
| RingPlanner.Planner.ComputeLayout | csrc/loader_common.cpp:217-341 | throws exactly if some tensor is larger than the buffer, and only for that reason; otherwise writes exactly one entry per tensor and the tables of `Layout`, which are safe when every tensor has room |
| RingSafety.AppendBrings | csrc/loader_common.cpp:322-331 | every byte of a tensor being placed is brought, at the tensor's distance between file and device offsets, by an emitted chunk or by the pending one |
| RingSafety.CoreFinish | csrc/loader_common.cpp:251-274 | finish_chunk keeps the invariant: no byte of a tensor is touched up to its prefetch chunk |
| RingSafety.CoreWrap | csrc/loader_common.cpp:275-286 | a new pass keeps the invariant |
| RingSafety.CoreOpenFile | csrc/loader_common.cpp:287-295 | a file switch keeps the invariant |
| RingSafety.CorePlace | csrc/loader_common.cpp:322-334 | placing a tensor keeps the invariant and makes the tensor part of it |
| RingRun.StepInv | csrc/loader_common.cpp:300-335 | one iteration of the main loop keeps the whole invariant: positions, tables, bounds |
| RingRun.RunInv | csrc/loader_common.cpp:298-335 | the invariant holds before every iteration of the main loop |
| RingTheorems.LayoutTensors | csrc/loader_common.cpp:242-244 | the table holds exactly the tensors of the list, in order, each inside the buffer |
| RingTheorems.LayoutSafe | csrc/loader_common.cpp:298-340 | every byte of every tensor is brought by a chunk up to its last one and touched by none after it up to the prefetch chunk; prefetch chunks exist and do not decrease |
| RingTheorems.AffineCover | csrc/loader_common.cpp:246-335 | every byte of every tensor is in a chunk of the same file no later than its last chunk, at the same offset from both starts |
| RingCover.OwnPassCover | csrc/loader_common.cpp:246-335 | that chunk belongs to the tensor's own pass over the ring, for any buffer size |
| RingCover.LastChunkHolds | csrc/instant_tensor/types.hpp:95-96 | the last chunk of a non-empty tensor is emitted in the tensor's own pass and holds its last byte, in the file and in the buffer |
| RingTheorems.PrefetchDisjoint | csrc/loader_common.cpp:251-286 | the padded device range of a chunk between a tensor's last and prefetch chunk does not overlap the tensor |
| RingTheorems.LastBeforePrefetch | csrc/loader_common.cpp:267-285 | for a non-empty tensor, 0 <= last chunk <= prefetch chunk < number of chunks |
| RingTheorems.LastChunksExist | csrc/loader_common.cpp:331-336 | all last chunks exist if and only if the last tensor is not an empty one on which nothing is pending |
| RingBounds.TensorChunkInside | csrc/loader_common.cpp:284-294 | a chunk with a byte of some tensor lies in the buffer, padding included |
| RingBounds.ChunksInsideIff | csrc/loader_common.cpp:305-321 | what all chunks write lies in the buffer if and only if at every file switch the new file's page part still fits; both with the padding that the all-gather of several ranks adds and without it |
| RingBounds.ChunksInsideIfAligned | csrc/loader_common.cpp:292-294 | in particular when the data of every file starts at a page boundary |
| RingBounds.HeaderOverflow | csrc/loader_common.cpp:305-321 | a list of two files, with all the padding of the buffer, for which a chunk's own bytes leave the buffer even with one rank |
| RingBounds.TensorInsideIff | csrc/loader_common.cpp:312-322 | any tensor of any list stays in the buffer if and only if it fits behind what is pending or, at the start of a pass, behind the rest of a page and an alignment gap; the size check of compute_layout ensures neither |
| RingBounds.LoneTensorInsideIff | csrc/loader_common.cpp:78-86 | for instance a single tensor: it stays in the buffer if and only if it fits behind its page's first bytes and an alignment gap |
| RingAlign.LayoutChained | csrc/loader_common.cpp:222-227 | every tensor starts at a multiple of 16 or right behind its predecessor, in file and buffer |
| RingAlign.ElementAligned | csrc/loader_common.cpp:222-227 | if element sizes do not grow within a file and divide the byte sizes, every tensor is aligned to its element size |
| RingAlign.LayoutAligned | csrc/loader_common.cpp:222-227 | so in every layout of such files every device offset is a multiple of the tensor's element size |
| RingPasses.RunPassed | csrc/loader_common.cpp:251-335 | in every iteration: chunks are emitted pass by pass and within a pass from left to right without overlap, no chunk from a tensor's last one on belongs to an earlier pass than the tensor, and prefetching past a tensor has ended exactly if a chunk of the next pass reaches it or a later pass has begun |
| RingSharp.PrefetchSharp | csrc/loader_common.cpp:267-285 | the chunk after a tensor's prefetch chunk is the first that belongs to the next pass and ends behind the tensor's start, or to a later pass; it starts no further behind the tensor than the gaps of the files opened in between |
| RingSharp.FurthestIff | csrc/instant_tensor/types.hpp:97-98 | that chunk overlaps a non-empty tensor if and only if it starts before the tensor's end and belongs to the next pass or reaches the tensor's start |
| RingSharp.NotFurthest | csrc/instant_tensor/types.hpp:97-98 | a list for which the prefetch chunk could be one later |
| RingSharp.RequestIff | csrc/loader_common.cpp:331-340 | for every tensor, empty or not, last chunk <= prefetch chunk if and only if the last chunk is emitted in the tensor's own pass, or in the next one and in front of the tensor |
| RingSharp.LoneEmptyTensor | csrc/loader_common.cpp:331-340 | an empty tensor alone in its file can be requested if and only if it is not at a page boundary |
| RingSharp.SamePassApart | csrc/loader_common.cpp:251-266 | passes of chunks do not decrease, and the padded ranges of chunks of one pass do not overlap |
| RingSharp.OverlapIff | csrc/loader_common.cpp:251-286 | two chunks overlap if and only if they belong to different passes and the later one begins before the other's end and ends behind its start |
| RingSharp.PrefetchedApart | csrc/loader_common.cpp:267-286 | a chunk that may be prefetched while a tensor is in use is apart from every earlier chunk of the tensor's pass that does not start in front of the tensor |
| RingSharp.InFlightOverlap | csrc/loader_common.cpp:305-321 | a list for which two chunks that may be in flight together overlap |
| RingVolume.LayoutVolume | csrc/loader_common.cpp:260-264 | the chunk sizes add up to what each file has from the page of its first tensor byte to its last tensor byte, plus what each new pass reads again |
| RingVolume.PassReread | csrc/loader_common.cpp:317-321 | what a new pass reads again is less than a page |
| RingFit.NewPassIff | csrc/loader_common.cpp:317-322 | in every layout a tensor starts a new pass if and only if the start of the pending chunk plus the least multiple of the world alignment that holds the pending bytes and the tensor is greater than the buffer size, so an exact fit stays; its place is then behind the rest of a page, 1 to 16 bytes behind the start, and otherwise behind what is pending |
| RingChunks.ChunksAreFull | csrc/loader_common.cpp:324-330 | of two consecutive chunks of a file in one pass the first is of the full world_chunk_size, and the second goes on where it ends, in the file and in the buffer |
| RingChunks.FilePlaced | csrc/loader_common.cpp:287-295 | opening a file emits what is pending as it is, and the new file's page part and data come 1 to 16 bytes behind the next multiple of 16, the data at a multiple of 16 |
| RingNeighbours.SeparateIff | instanttensor/_impl.py:598 | neighbouring tensors share no byte of the buffer if and only if the second does not start a new pass, or ends in front of the first there (or the first is over before) |
| RingNeighbours.NeighboursApart | instanttensor/_impl.py:290-293 | with a buffer for the predecessor and twice the tensor, the tensor follows its predecessor, or starts the next pass and ends in front of it by more than what is left of the buffer size asked for |
| RingNeighbours.LoadsWhileIff | csrc/instant_tensor/types.hpp:95-98 | while a tensor is in use, the next one can be loaded completely if and only if it is in the same pass or its last chunk, with padding, ends in front of the tensor in use |
| RingNeighbours.NeighbourLoads | instanttensor/_impl.py:290-293 | with such a buffer, all of it but its last chunk can |
| RingNeighbours.NeighbourLoadsAll | instanttensor/_impl.py:290-293 | with room for one chunk more, all of it can |
| RingNeighbours.LessOverlaps | instanttensor/_impl.py:290-293 | lists for which a buffer for the two tensors, but not for the second of them twice, lets them overlap |
| RingNeighbours.SharedChunk | instanttensor/_impl.py:290-293 | lists for which a buffer for the predecessor and twice the tensor leaves the tensor's last chunk to wait for the predecessor's end |
| DeviceMemory.LiveAfterWrite | csrc/loader_common.cpp:515-529 | applying the next chunk keeps every tensor that allows it to be prefetched |
| DeviceMemory.LiveComplete | csrc/loader_common.cpp:565-571 | a tensor whose last chunk has been applied is in memory, byte for byte |
| LoaderCore.Loader.InitBuffer | csrc/loader_common.cpp:66-86 | chunk sizes are multiples of the alignments, the chunk size grows to the next page, the buffer is what is asked for or what the chunks in flight take, plus three times 16 bytes, a page and the world alignment |
| LoaderCore.Loader.Open | csrc/loader_common.cpp:364-398 | for what the frontend passes it never throws; it leaves the sizes of init_buffer, the tables of the layout and the loader's invariant, with nothing handed out yet |
| LoaderCore.Loader.PostReadChunk | csrc/loader_common.cpp:434-482 | posts the next chunk, so that at most min(io_depth, 1024) chunks are posted and not reaped; the invariant is kept |
| LoaderCore.Loader.PollReadChunk | csrc/loader_common.cpp:484-495 | reaps in order all that has arrived, and nothing else |
| LoaderCore.Loader.WaitReadChunk | csrc/loader_common.cpp:497-508 | throws exactly if the chunk has not been posted; otherwise all chunks up to it have been reaped |
| LoaderCore.Loader.CanStep | csrc/loader_common.cpp:515-529 | never throws, and tells whether the current tensor allows another chunk |
| LoaderCore.Loader.TryStep | csrc/loader_common.cpp:531-538 | posts one chunk if allowed; the tensor in use stays in memory |
| LoaderCore.Loader.WaitStep | csrc/loader_common.cpp:540-549 | terminates; throws exactly if the chunk is beyond the prefetch chunk; otherwise the chunk has been reaped |
| LoaderCore.Loader.GetTensorPtr | csrc/loader_common.cpp:551-572 | the exact reply to any index, each error by its cause; on success the tensor is in device memory at the address |
| LoaderCore.Loader.Run | csrc/loader_common.cpp:589-599 | for any requests arriving at any time: the exact replies, and since the start the trace has grown by these requests and replies, in iterations that each either take one request and then post at most one chunk or, if no request waits and the current tensor allows it, post one chunk; with the tensor in use in device memory at every moment |
| LoaderCore.Loader.RequestIsDue | csrc/loader_common.cpp:591-594 | if no request was waiting, one is taken only when chunks have been posted up to the current tensor's prefetch chunk |
| LoaderCore.Loader.IdlePrefetches | csrc/loader_common.cpp:590-598 | an iteration that finds no request and something to prefetch posts exactly the next chunk, and the current tensor stays |
| LoaderCore.Loader.ReplyPrefetches | csrc/loader_common.cpp:595-597 | between a tensor's reply and the next iteration exactly one more chunk is posted, unless chunks have been posted up to its prefetch chunk |
| LoaderCore.DialogueAt | csrc/loader_common.cpp:591-595 | where the trace grows by requests and replies, every request is followed by its own reply before the next one is taken |
| LoaderCore.Loader.Serve | csrc/loader_common.cpp:551-572 | takes a request and answers it exactly; in between only chunks arrive, and the invariant is kept |
| LoaderCore.Loader.HeldUntilNextRequest | csrc/loader_common.cpp:589-599 | in the trace of any opened loader, device memory holds a tensor, at the address replied, at every moment from its reply to the next request |
| LoaderCore.ReplyIsAddress | csrc/loader_common.cpp:551-572 | after OPEN a request in order for a non-empty tensor is answered with its address |
| LoaderCore.ReplyIff | csrc/loader_common.cpp:551-572 | after OPEN a request in order is answered if and only if the tensor's last chunk is emitted in the tensor's own pass, or in the next one and in front of the tensor |
| Cluster.HeldOnEveryRank | csrc/loader_io_inmem.cpp:68-91 | in every state of every run, a rank that has reaped its current tensor's last chunk holds that tensor, whatever other ranks have done |
| Cluster.GatherAgrees | csrc/loader_io_inmem.cpp:74-81 | after the all-gather of a chunk every rank holds the file's bytes for the whole chunk |
| Cluster.NoDeadlock | csrc/loader_common.cpp:540-549 | as long as one rank, whatever the others do, waits for a chunk that every rank's current tensor allows to be prefetched, some rank or the gather can take a step, and it lowers a measure that is never negative |
| Cluster.StepsRunOut | csrc/loader_common.cpp:434-508 | every step of ranks and gather other than a request lowers the measure by one |
| Cluster.QuietRunsOut | csrc/loader_common.cpp:434-508 | so a run without requests is no longer than the measure |
| Cluster.AllowedStays | csrc/loader_common.cpp:551-571 | what every rank allows stays allowed, whatever step is taken |
| Cluster.NoGatherPast | csrc/loader_io_inmem.cpp:74-81 | no gather takes place while some rank's current tensor allows no further chunk than the last one gathered |
| Cluster.NoneAhead | csrc/loader_common.cpp:515-529 | in no run does a rank reap a chunk beyond what another rank's current tensor allows |
| Cluster.ServedIff | csrc/loader_common.cpp:540-549 | when everything but requests has run out, a rank has reaped a chunk if and only if every rank's current tensor allows it |
| Cluster.EarliestIsServed | csrc/loader_common.cpp:540-549 | a rank on no later tensor than any other has then reaped all that its tensor allows |
| Slices.PaddedSizes | csrc/loader_common.cpp:440-442 | the padded sizes divide evenly and thread shares are whole pages |
| Slices.SlicesTile | csrc/loader_common.cpp:440-447 | every byte of a chunk is in exactly one thread slice of exactly one rank, and no slice has other bytes |
| Slices.ThreadSliceFits | csrc/loader_io_inmem.cpp:46-50 | a page-rounded slice fits in the padded thread size, which fits in thread_chunk_size: the internal error is impossible |
| Slices.SliceAligned | csrc/loader_io_aio.cpp:65-67 | every slice starts at a page of the file |
| HostReads.ReadsArePrefix | csrc/loader_io_aio.cpp:57-70 | the threads of a rank with something to read are exactly the first submit_cnt ones |
| HostReads.PrepareIocbs | csrc/loader_io_aio.cpp:57-71 | the first submit_cnt control blocks of the slot are the chunk's reads, and no other slot's are changed; submit_cnt counts the threads with something to read, and unaligned_last_page says whether some thread's bytes end within a page |
| HostReads.CollectOps | csrc/loader_io_uring.cpp:221-240 | the reads of the chunk, in thread order, one for each thread with something to read |
| HostReads.RetireEvents | csrc/loader_io_aio.cpp:116-125 | every event lowers its own chunk's count by one, whichever chunk the caller waits for |
| HostMachine.ReadInSlot | csrc/loader_io_aio.cpp:57-70 | a read is of whole pages, no more of them than its thread's bytes need, starts at a page of the file and stays in its thread's share of its chunk's slot |
| HostMachine.ReadsApart | csrc/loader_common.cpp:445-457 | two reads in flight never overlap in the host buffer |
| HostMachine.SlotsExclusive | csrc/loader_common.cpp:445-457 | at most min(io_depth, 1024) chunks are in flight and no two share a slot |
| HostMachine.CountsAreReads | csrc/loader_io_aio.cpp:71-126 | on every run a chunk's count equals the number of its reads that have not been retired; it is positive while one is pending, never negative, nor above the number of threads |
| HostMachine.CopyHasData | csrc/loader_io_uring.cpp:324-344 | from the end of a chunk's loop until the chunk is reaped, its slot holds the rank's part of the chunk, byte for byte, so the asynchronous copy reads the right bytes |
| HostHarvest.WithinCapacity | csrc/loader_io_aio.cpp:27-36 | no more reads are outstanding than min(io_depth, 1024) times the number of threads, for which the context and the event buffer are made |
| HostHarvest.HarvestGoesOn | csrc/loader_io_aio.cpp:110-126 | while a chunk's loop runs, one of the chunk's own reads can be submitted, completed or retired, and that lowers what is outstanding |
| HostHarvest.RetireIsSteps | csrc/loader_io_aio.cpp:111-125 | a batch of at most unfinished_cnt completed events, of any chunks, is a sequence of steps of the state machine that lowers the counts as RetireEvents does |
| HostHarvest.BatchFits | csrc/loader_io_aio.cpp:111-125 | and no chunk's count is lowered below zero by it |
| MappedReads.SubmitCopies | csrc/loader_io_inmem.cpp:42-62 | never throws; the first worker_cnt request ids are those of exactly the non-empty slices' copies, worker_cnt being the number of those slices |
| MappedReads.CopiesApart | csrc/loader_io_inmem.cpp:54-60 | the copies of a chunk write disjoint parts of its slot, so their order does not matter |
| MappedReads.CopiesFill | csrc/loader_io_inmem.cpp:64-74 | after the copies the slot holds the rank's part of the chunk |
| UringBuffers.RegisterHostBuffer | csrc/loader_io_uring.cpp:181-199 | the registered pieces lie end to end, cover the buffer exactly, and all but the last are 1 GiB |
| UringBuffers.PiecesPartition | csrc/loader_io_uring.cpp:255-256 | each byte of the buffer is in exactly one piece, the one that the division names |
| UringBuffers.PrepareReads | csrc/loader_io_uring.cpp:244-291 | a read names a piece if and only if it lies inside one, and then that one |
| UringBuffers.PostReads | csrc/loader_io_uring.cpp:217-293 | so does every read of a posted chunk |
| Wiring.LayoutIsReadable | csrc/loader_common.cpp:434-468 | the chunks of a layout are no larger than a world chunk and start at pages |
| Wiring.PipelineIsValid | csrc/loader_io_inmem.cpp:42-62 | the pipeline of a rank has, for each chunk, one copy task for each thread with something to copy, min(io_depth, 1024) chunks in flight and queues of 1024 entries; so no chunk has more tasks than there are workers, and no more chunks are in flight than a queue holds |
| Wiring.OpenRank | csrc/loader_common.cpp:364-398 | opening a new loader always succeeds, with the sizes of init_buffer and the tables of the layout |
| Wiring.OpenIsWired | csrc/loader_common.cpp:364-398 | the arguments that the frontend passes make a valid world of ranks and, for every rank, valid reads of its own slices of the chunks and a valid pipeline of threads; ring validity and room follow |
| Wiring.OpenedIsWired | csrc/loader_common.cpp:364-398 | an opened loader's sizes and tables are those of that world and of its rank's reads |
| Wiring.SamePassIsApart | csrc/loader_io_inmem.cpp:68-81 | of such a world, chunks of the same pass over the ring are apart, so a copy may overtake their gathers |
| Wiring.SlotIsCopied | csrc/loader_common.cpp:439-450 | for the reads of rank r and the runs of all ranks set up by the same OPEN: if the slot holds r's part of the chunk, the host byte at the slot's start plus a minus r's slice start is the file's byte for offset a of every a that is r's, and copying the slot writes exactly r's bytes of the chunk |
| Wiring.CopyIsStep | csrc/loader_io_aio.cpp:103-129 | so in every run of a rank's reads, from the end of a chunk's loop until the chunk is reaped, copying its slot is a Copy step of that rank in the runs of all ranks |
| Wiring.TasksAreCopied | csrc/loader_io_inmem.cpp:54-73 | the same for the in-memory backend, once the chunk's copy tasks have run |
| Wiring.FileBytesHeld | instanttensor/_impl.py:472-476 | for files that keep to the format: from the reply to a request for the tensor with number s of file f until the next request, the bytes at the address replied are those from that tensor's begin to its end behind the file's data start |
| Wiring.ReplyIsOfFile | instanttensor/_impl.py:472-476 | every reply is for a tensor of some file, tensors being numbered through file by file |
| ExecutorCore.Core.Start | csrc/instant_tensor/async_executor.hpp:206-222 | its errors, and that it starts at least one worker |
| ExecutorCore.Core.Submit | csrc/instant_tensor/async_executor.hpp:117-130 | its errors, in order; otherwise the task is queued last |
| ExecutorCore.Core.RequestStop | csrc/instant_tensor/async_executor.hpp:182-192 | behind all that is queued comes exactly one sentinel for every worker; once, and only if started |
| ExecutorCore.Core.TakeUntilReady | csrc/instant_tensor/async_executor.hpp:295-305 | returns the first result of the request, caches those before it and leaves those behind it |
| ExecutorCore.Core.CacheUntilReady | csrc/instant_tensor/async_executor.hpp:281-291 | caches the results up to and with the request's |
| ExecutorCore.Core.Ready | csrc/instant_tensor/async_executor.hpp:133-138 | true exactly if the result has arrived, which is then in the cache with those before it; later ones stay queued |
| ExecutorCore.Core.TryReap | csrc/instant_tensor/async_executor.hpp:148-153 | returns the request's result if it has arrived, from the cache first, and forgets it; earlier results are cached, later ones stay queued |
| ExecutorCore.Core.Reap | csrc/instant_tensor/async_executor.hpp:166-178 | blocks until the request's result has arrived and drops it; however the results arrive, cache and queue end as if all had been queued at once |
| ExecutorCore.WorkerRound | csrc/instant_tensor/async_executor.hpp:241-260 | a round takes at most one item; a sentinel ends the worker; a task's result is pushed if one is wanted |
| ExecutorCore.RoundIsSteps | csrc/instant_tensor/async_executor.hpp:241-260 | every round of an idle worker (on an empty queue, a sentinel or a task) is a sequence of its own steps of the state machine, with the effect that WorkerRound has |
| ExecutorCore.DrainIsSteps | csrc/instant_tensor/async_executor.hpp:281-305 | every result that the reaper puts aside is a Cache step; the last one is a ReapHead step of take_until_ready and a KeepHead step of cache_until_ready |
| ExecutorCore.StopIsSteps | csrc/instant_tensor/async_executor.hpp:182-192 | that effect is a sequence of RequestStop steps of the state machine, which leaves one sentinel for each worker behind all tasks, as JoinComplete and JoinGoesOn start from |
| ExecutorCore.CacheUntilReadyIsSteps | csrc/instant_tensor/async_executor.hpp:281-291 | what cache_until_ready leaves in queue and cache is what a sequence of the reaper's steps leaves |
| ExecutorCore.TakeUntilReadyIsSteps | csrc/instant_tensor/async_executor.hpp:295-305 | so is what take_until_ready leaves, whose last step reaps the request's own result |
| ExecutorCore.FunctionWorkerDriver.ProcessTasks | csrc/instant_tensor/function_executor.hpp:33-46 | runs the pending task once and forgets it |
| ExecutorCore.RequestIds.NextId | csrc/loader_common.cpp:7-11 | an id is never the stop id, and the next one is its successor modulo 2^31 |
| ExecutorCore.IdsDistinct | csrc/loader_common.cpp:7-11 | ids repeat exactly every 2^31 calls |
| ExecutorCore.NextIdIsFree | csrc/loader_common.cpp:7-11 | an id given out is not outstanding, if what is outstanding was given out within the last 2^31 - 1 calls |
| ExecutorCore.WindowIdsAreFree | csrc/loader_io_inmem.cpp:45-88 | which is so with at most 1024 chunks in flight and fewer than two million threads |
| ExecutorMachine.ExactlyOnce | csrc/instant_tensor/async_executor.hpp:236-305 | on every run each outstanding request is in exactly one of task queue, workers, result queue and cache, and no other is in any |
| ExecutorMachine.ReapReturnsOwn | csrc/instant_tensor/async_executor.hpp:148-178 | a reap returns the value computed from its own request's payload, and only once |
| ExecutorMachine.CacheDropsNothing | csrc/instant_tensor/async_executor.hpp:281-305 | caching, by a reap or by ready, never meets an entry under the same id |
| ExecutorMachine.JoinComplete | csrc/instant_tensor/async_executor.hpp:182-203 | when all workers have exited, each has consumed one sentinel and every submitted task has run exactly once |
| ExecutorMachine.JoinGoesOn | csrc/instant_tensor/async_executor.hpp:194-203 | join does not hang: with all sentinels queued and some worker still there, a worker can take a step and use up some of the work, as long as the result queue has room |
| ExecutorMachine.ReapProgress | csrc/instant_tensor/async_executor.hpp:156-178 | while the reaper waits, a worker or the reaper can take a step other than giving up, and it uses up some of the work |
| ExecutorMachine.WorkFalls | csrc/instant_tensor/async_executor.hpp:236-305 | every such step lowers a measure of the work left, so the reap returns after finitely many of them |
| PipelineMachine.RunKeeps | csrc/loader_io_inmem.cpp:42-93 | in every reachable state the counters of loader, cuda and wait threads are in step, and the copy tasks reaped are the first ones submitted |
| PipelineMachine.NoDeadlock | csrc/loader_io_inmem.cpp:45-93 | while a chunk is being posted or unreaped, some thread can take a step, for any number of workers, with every queue first-in first-out |
| PipelineMachine.StepsRunOut | csrc/loader_io_inmem.cpp:45-93 | between two posts every step lowers a measure that is never negative |
| PipelineMachine.ReachableProgress | csrc/loader_io_inmem.cpp:45-93 | both, in every reachable state |
| BufferSize.Recommend | instanttensor/_impl.py:270-303 | 4096 without tensors; fails exactly if no candidate reaches the share, which for sizes that are not negative means that more than everything is asked for; otherwise the largest tensor or the least candidate that reaches the share, whichever is larger, a candidate being the first tensor's size or a tensor's predecessor plus twice the tensor |
| BufferSize.NoCandidateIff | instanttensor/_impl.py:295-303 | for sizes that are not negative, no candidate reaches a share exactly if the share is more than the total |
| BufferSize.SumOfValues | instanttensor/_impl.py:296 | the dictionary's values add up to the total size |
| BufferSize.RecommendationIsLeast | instanttensor/_impl.py:298-301 | the result is the least buffer size of all that holds every tensor and reaches the share |
| DefaultSize.OpenedBeside | instanttensor/_impl.py:290-293 | in an opened loader, a buffer size of a tensor's predecessor plus twice the tensor keeps the two apart and lets all chunks of the tensor but the last be loaded while the predecessor is in use; with a chunk of all ranks more, the last one too |
| DefaultSize.DefaultSizeOverlaps | instanttensor/_impl.py:270-279 | with the default size, nine tenths of all bytes belong to such tensors |
| DefaultSize.NeighboursOverlap | instanttensor/_impl.py:597-601 | a file with two tensors that overlap in the buffer with the default size |
| Frontend.BuildOffsets | instanttensor/_impl.py:461-473 | succeeds exactly if every file has tensors and they follow each other; the first other file decides the error, by whether it has tensors |
| Frontend.WellFormedIff | instanttensor/_impl.py:468-472 | the list is what the layout needs if and only if no tensor ends before it begins |
| Frontend.ListedInOrder | instanttensor/_impl.py:472-476 | the k-th tensor that the loader finds in the list is the k-th of the metadata |
| Frontend.ListedAt | instanttensor/_impl.py:469-476 | behind the tensors of the files before it, a file's tensors are listed in order, each at its place in the file |
| Frontend.DetermineBufferSize | instanttensor/_impl.py:593-620 | a requested size is raised to the largest tensor and then lowered to the total, the default is the recommendation or what the I/O needs; it fails exactly without tensors when a size is requested, or when the recommendation fails; for sizes that are not negative it is never smaller than any tensor |
| Frontend.MakeOpenArgs | instanttensor/_impl.py:460-482 | it succeeds if and only if all files are accepted and a size that is not negative results, with the list of offsets and that size; the arguments of OPEN then meet the loader's contract if and only if there are files and no tensor ends before it begins |
| Frontend.OpenedOutsideContract | instanttensor/_impl.py:460-482 | a file with a last tensor of -4 bytes, and an empty list of files, are opened outside the loader's contract |

## Left out

- Cluster.HeldOnEveryRank: copies and gathers take effect in chunk order, and a copy overtakes only gathers of chunks elsewhere in the buffer; the two CUDA streams do not enforce that by themselves, and `RingSharp.InFlightOverlap` has chunks for which it matters.
- LoaderCore.Loader.Run: the device pipeline of a chunk is one event, applied in chunk order between post and reap; CLOSE, which ends the loop, is not modelled.
- Wiring.OpenedIsWired: that all ranks open with the same arguments is an assumption, as it is in the code.
- HostMachine.CopyHasData: short reads are not modelled; a completed read has filled its range, as the code assumes when it checks only for errors.
- PipelineMachine.NoDeadlock: the threads of the in-memory backend only; of the others, the waits for completion events are modelled. Waiting loops that yield are steps that change nothing and are left out; the executors' request ids are the tasks' numbers.
- Cluster.ServedIff: a rank is served when the steps other than requests have run out, which QuietRunsOut bounds; which of them is taken first is left open.
- LoaderCore.Loader.Open: thread, rank and I/O depth counts and the chunk size are positive, as the frontend's defaults are; the loader does not check it.
- Frontend.BuildOffsets: offsets are natural numbers and the tensors of a file come sorted; the sorting itself is not modelled.
- BufferSize.Recommend: the overlap factor and its product with the total are exact real numbers, not floating point.
- The cuFile backend, whose reads write device memory directly and out of chunk order.
- CUDA, NCCL, libaio and io_uring calls: only their effects (copy, gather, submit, complete) appear.
- The in-memory backend's variant with registered file mappings, which has no host buffer.
- Error codes, exceptions thrown by tasks, logging, timing and the sampling of the I/O depth.
- Memory ordering and the internals of the queues; a queue is a bounded sequence.
- Overflow of 64-bit sizes and the cast of a read's size to 32 bits in the io_uring backend.
- The cache of host buffers, deferred unmapping, the RPC between Python and loader, environment variables, backend selection, and the shrinking of I/O depth and concurrency.
- JSON, dtypes, DLPack and the Python iteration over tensors: they would add members without changing what the ring must guarantee.
