# goseq: a verified model of an ordered parallel map

goseq runs a `Processer` (a function `T -> (R, error)`) over the items of an `iter.Seq[T]` with
`numWorkers` goroutines and returns the results in source order. It fails with a processor error if
any worker hits one. Three adapters feed it:

- `ProcessParallelLines` feeds the lines of a reader, one line per item.
- `ProcessParallelLinesInChunks` feeds them as chunks of `chunkSize` lines and flattens the outputs.
- `ProcessParallelFiles` feeds the contents of the readable files in a path list, skipping the
  others, and concatenates the outputs.

The model has three modules:

- `Wrappers` (wrappers.dfy) defines `Option` and `Result`. A Go `(value, error)` pair is a `Result`.
- `Engine` (engine.dfy) models goseq.go. The goroutines are replaced by an explicit `Schedule`:
  - `arrival` is the order in which the forwarded results reach the collector.
  - `errorOrder` is the order in which the failing workers try the capacity-one error channel.

  Workers are interchangeable and each finishes its item before taking the next, so the pool is a
  count of live workers (`Pool`): item k is taken exactly when fewer than `numWorkers` of the items
  before it failed. `Admissible` says a schedule is a pair of permutations of what the pool produced.
  `Ordered` is the outcome of a run under a given schedule.

  The shared state of the call is the class `Pipeline`:
  - `collected` is the slice behind the `*[]R` pointer.
  - `errSlot` is `errChan`.

  Its loop methods are proved against the pure functions `CollectStep`/`CollectAll` and
  `TrySend`/`SlotAfter`. `ProcessParallelOrdered` runs these in order: sequencer, workers,
  error race, collector, final `select`. The worker loop `ProcessIndexedData` models one
  goroutine on its own, and `ProcessWithOneWorker` composes it into the whole call for one worker.
- `Adapters` (adapters.dfy) models file.go with three iterators and a flattener:
  - A Go iterator stops when `yield` returns false. That answer after the k-th item is the
    parameter `more(k)`, and `Delivered` names what a consumer receives.
  - The chunker, the file source and the flattener are loops proved against `Chunks`, `Readable`
    and `Concat`.

Scanned lines are a `seq<string>`. A file read is an `Option<seq<byte>>`, `None` when `os.ReadFile`
fails. Go's zero value of `R` is a parameter `zero`: `""` for lines and `[]` for line chunks and
byte slices.

## Model

| member | source | states |
|---|---|---|
| Engine.TagFrom | goseq.go:24-28 | item k of the source is tagged with index start+k, one tag per item, no gaps |
| Engine.WorkerStep | goseq.go:53-61 | one worker iteration: a success becomes the item's index with the processed data, a failure the processor's error; its properties over a run are those of Pool (PoolForwardsTagged, PoolErrorsFromItems) |
| Engine.Sequence | goseq.go:22-29 | the sequencer sends exactly the source items in order, item k with index k, and nothing after the last one |
| Engine.Pool | goseq.go:30-36 | the pool takes at most all items; each taken item is either forwarded or recorded as an error; at most one error per worker; items are left untaken only when every worker has quit |
| Engine.Forwarded | goseq.go:52-53 | a failure-free run forwards, for each item, its index with processor(item.Data) |
| Engine.RunWorkers | goseq.go:30-36 | the interleaved worker loops draining dataChan produce exactly the pool run `Pool` |
| Engine.PoolForwardsTagged | goseq.go:52-61 | every forwarded result carries the index of an item that was taken and that item's processed data |
| Engine.PoolErrorsFromItems | goseq.go:53-56 | every recorded error is the processor's error on an item that was taken |
| Engine.PoolAllOk | goseq.go:52-62 | without failures every item is taken and forwarded with its own index, and no error is recorded |
| Engine.PoolReachesFailure | goseq.go:52-59 | with at least one worker, the first failing item is always taken, so at least one error is recorded |
| Engine.SingleWorkerStopsAtFirstError | goseq.go:52-62 | one worker forwards the items before its first failure, forwards nothing for the failing item, records its error and takes nothing more |
| Engine.Pipeline.ProcessIndexedData | goseq.go:51-63 | one worker's loop forwards what `Pool` with one worker forwards, and on a failure tries the error channel once with that error |
| Engine.Pipeline.TrySendError | goseq.go:55-58 | the non-blocking send succeeds iff the slot was empty; a full slot is left unchanged |
| Engine.Pipeline.RaceErrors | goseq.go:18 | the failing workers' sends in schedule order leave the slot as the fold `SlotAfter` says |
| Engine.TrySend | goseq.go:55-58 | the non-blocking send always leaves the slot full: a full slot keeps its error, an empty one takes the new error |
| Engine.SlotAfter | goseq.go:55-58 | the slot after the failing workers' sends in schedule order; FirstErrorWins shows it holds the first error sent into an empty slot |
| Engine.FirstErrorWins | goseq.go:18 | a full slot keeps its error; an empty slot ends up with the error of the first worker to try it, and later errors are dropped |
| Engine.Zeros | goseq.go:69 | the padding `make([]R, n)`: n copies of the zero value |
| Engine.CollectStep | goseq.go:68-71 | after handling {i, v}: the length is max(oldLen, i+1), slot i holds v, the other old slots are unchanged, and the new slots hold the zero value |
| Engine.Pipeline.CollectOne | goseq.go:68-71 | one collector iteration updates `collected` as `CollectStep` says |
| Engine.Pipeline.CollectIndexedResults | goseq.go:65-73 | the collector loop applies `CollectStep` to the results in arrival order |
| Engine.CollectAll | goseq.go:67-72 | the collector's fold over the results in arrival order; CollectAgrees bounds it and places each result at its index, and CollectPermutation shows any arrival order of the indices 0..n-1 rebuilds the outputs in index order |
| Engine.CollectAgrees | goseq.go:67-72 | if every result carries the value of `ys` at its index, the collected slice never grows past `ys`, keeps slots that already agree, and holds the right value at each delivered index |
| Engine.CollectPermutation | goseq.go:67-72 | the tagged outputs for indices 0..n-1, delivered in any order, are collected into exactly the outputs in index order |
| Engine.Permuted | goseq.go:38 | element k of the arrival sequence is forwarded result perm[k] |
| Engine.Values | goseq.go:53 | map(processor, xs): element k is the value processor(xs[k]) returns |
| Engine.Pipeline.Resolve | goseq.go:43-48 | the result is an error iff the error slot is full, then with that error; otherwise the collected slice |
| Engine.Ordered | goseq.go:15-49 | the outcome of a run under a schedule: Err with the slot's error if the race filled it, else the collected slice; OrderedOutcome, OrderInvariance, FailureReportsProcessorError, SingleFailureIdentity and ZeroWorkers establish its cases |
| Engine.SingleWorkerSchedule | goseq.go:52-61 | the one-worker schedule: results arrive in index order, since the worker sends each result before taking the next item, and its error, if any, is sent |
| Engine.ProcessWithOneWorker | goseq.go:51-73 | the worker loop processIndexedData on the sequencer's output, followed by the collector loop and the final select, returns `Ordered` with one worker under the one-worker schedule, which is admissible |
| Engine.ProcessParallelOrdered | goseq.go:15-49 | the call returns `Ordered`; it succeeds iff numWorkers is 0 or no item fails; without failures it returns map(processor, getter) whatever the schedule; with no workers it returns an empty slice; a failure returns the error of some failing item |
| Engine.OrderInvariance | goseq.go:37-47 | with at least one worker and no failures, every schedule gives map(processor, getter) |
| Engine.FailureReportsProcessorError | goseq.go:43-45 | with at least one worker and a failing item, the call fails, and its error is the processor's error on some item |
| Engine.SingleFailureIdentity | goseq.go:43-45 | when exactly one item fails, the call returns that item's error |
| Engine.ZeroWorkers | goseq.go:30-47 | with no workers the call returns an empty slice and no error |
| Engine.OrderedOutcome | goseq.go:43-48 | the success, zero-worker and failure cases of the outcome, together |
| Adapters.StopAfter | file.go:15-17 | a consumer takes items up to and including the first one after which it answers false, or all of them |
| Adapters.Delivered | file.go:15-17 | what an iterator hands to its consumer: a prefix of the items, every item but the last answered true, and the last answered false when items remain |
| Adapters.Concat | file.go:51-53 | the in-order concatenation of the inner sequences; Flatten and TotalSize are proved against it, and ConcatLineByLine relates it to line-by-line processing |
| Adapters.TotalSize | file.go:46-49 | the totalSize loop computes the length of the concatenation |
| Adapters.Flatten | file.go:46-53 | the flattening loop produces the in-order concatenation of the outputs and never exceeds the preallocated totalSize |
| Adapters.LineSource | file.go:12-19 | the line iterator yields the lines in order, one per item, until the consumer first answers false |
| Adapters.ProcessParallelLines | file.go:11-21 | the call is the engine on the lines; without failures it returns map(processor, lines); a failure returns some line's processor error |
| Adapters.Chunks | file.go:24-41 | the cut into consecutive chunks; it concatenates back to the lines (ChunksConcat) and has the chunk shape (ChunksShape) |
| Adapters.ChunkSpan | file.go:30 | a chunk is cut at chunkSize lines; with chunkSize 0 the length check never succeeds, so no cut happens |
| Adapters.SourceChunks | file.go:24-41 | with chunkSize 0 the whole nonempty input is one chunk, and empty input gives none |
| Adapters.ChunksShape | file.go:30-39 | every chunk is nonempty; each but the last has exactly chunkSize lines, the last between 1 and chunkSize |
| Adapters.ChunksConcat | file.go:24-41 | the chunks concatenate back to the input lines |
| Adapters.ChunkLines | file.go:24-41 | the chunk iterator yields the chunks in order until the consumer first answers false; after a refused full chunk nothing more is yielded, the remainder included |
| Adapters.LinesInChunksOutcome | file.go:42-54 | an engine error passes through, otherwise the per-chunk outputs are concatenated; ChunkingIsTransparent gives its value for a line-by-line processor |
| Adapters.ProcessParallelLinesInChunks | file.go:23-55 | an engine error is returned as is, without flattening; otherwise the result is the concatenation of the per-chunk outputs |
| Adapters.ConcatLineByLine | file.go:46-53 | for a line-by-line processor, flattening the per-chunk outputs equals processing the concatenated chunks line by line |
| Adapters.ChunkingIsTransparent | file.go:23-55 | for a line-by-line processor and at least one worker, the chunked call returns what processing the whole input line by line gives, for every chunk size and schedule |
| Adapters.Readable | file.go:58-69 | the order-preserving filter of the successful reads (ReadableAppend, ReadableMembers) |
| Adapters.ReadableMembers | file.go:59-68 | the file source keeps exactly the contents of the successful reads, never more items than paths, and all of them when every read succeeds |
| Adapters.FileSource | file.go:58-69 | the file iterator yields the readable contents in list order and skips failed reads, until the consumer first answers false |
| Adapters.FilesOutcome | file.go:71-83 | an engine error passes through, otherwise the per-file outputs are concatenated; UnreadableIsSkipped shows a failed read leaves it unchanged |
| Adapters.ProcessParallelFiles | file.go:57-84 | an engine error is returned as is, without flattening; otherwise the result is the concatenation of the per-file outputs |
| Adapters.UnreadableIsSkipped | file.go:60-63 | an unreadable path produces no error and no item: the outcome equals that of the list without it |

## Left out

- Goroutines, channels, `sync.WaitGroup`, channel capacities and backpressure are not modelled. They are replaced by the schedule and the live-worker count.
- Liveness is not modelled. Once no worker is left (from the start when `numWorkers = 0`), the sequencer goroutine blocks forever on a send if more items remain than dataChan's buffer of `numWorkers` holds; otherwise it fills the buffer and closes the channel. Either way the call itself returns, and the model gives that return value.
- The admissible schedules (`Engine.Admissible`) are more than the runtime produces (with one worker, results arrive in index order, yet every arrival order is admissible). Every property is proved for all admissible schedules, so it holds for the runtime's.
- `bufio.Scanner` line splitting, `os.ReadFile` and `log.Printf` are library I/O. Lines and read outcomes are inputs, and the log line for a failed read is dropped.
- Go's nil versus empty slices are not distinguished. Both are the empty sequence, so the failure result `(nil, err)` is `Err(err)`.
- Negative `numWorkers` or `chunkSize` panic in `make`. Both are `nat` in the model.
- `int` is unbounded. Index and `totalSize` overflow is not modelled.
- Engine.ProcessParallelOrdered: the engine has no source-error path, because an `iter.Seq` cannot report errors. goseq_test.go is written against an older getter that returns an error channel, so its error-path expectations describe other code.
- Adapters.ProcessParallelFiles: the model follows file.go:60-63, which skips an unreadable path. file_test.go:115-120 expects an error for one instead.
- The benchmarks and the sequential baseline in file_benchmark_test.go are not part of the library.
