/**
 * The ordered parallel map of goseq.go.
 *
 * The goroutines of ProcessParallelOrdered are replaced by an explicit schedule.
 * The sequencer tags the source items 0, 1, 2, ... and pushes them, in that order,
 * into one FIFO channel shared by all workers.  A worker finishes the item it holds
 * before it takes the next one, and it quits for good on its first processor error.
 * Workers are interchangeable, so which worker takes an item cannot be observed:
 * what matters is how many workers are still running.  Item k is therefore taken
 * exactly when fewer than numWorkers of the items before it have failed (`Pool`).
 * What the schedule still chooses is the order in which forwarded results reach the
 * collector and the order in which the failing workers race for the error slot.
 */
module Engine {
  import opened Wrappers

  /** An item or a result tagged with its position in the source (IndexData). */
  datatype IndexData<X> = IndexData(index: nat, data: X)

  /** The nondeterministic choices of a run. */
  datatype Schedule = Schedule(
    arrival: seq<nat>,    // arrival[k]: which forwarded result reaches the collector k-th
    errorOrder: seq<nat>  // errorOrder[k]: which failing worker tries the error slot k-th
  )

  /** What the worker pool does with the tagged items (in dequeue order). */
  datatype PoolRun<R, E> = PoolRun(forwarded: seq<IndexData<R>>, errors: seq<E>, consumed: nat)

  function Max(a: int, b: int): int { if a < b then b else a }

  // ---------------------------------------------------------------------------
  // Sequencer
  // ---------------------------------------------------------------------------

  /** The items of `xs` tagged with consecutive indices starting at `start`. */
  function TagFrom<T>(xs: seq<T>, start: nat): (r: seq<IndexData<T>>)
    ensures |r| == |xs|
    ensures forall k :: 0 <= k < |xs| ==> r[k] == IndexData(start + k, xs[k])
    decreases |xs|
  {
    if xs == [] then [] else [IndexData(start, xs[0])] + TagFrom(xs[1..], start + 1)
  }

  /** What the sequencer sends into dataChan for the source `xs`. */
  function Tag<T>(xs: seq<T>): seq<IndexData<T>>
  {
    TagFrom(xs, 0)
  }

  /** The sequencer goroutine: number the items of the source as they are yielded. */
  method Sequence<T>(getter: seq<T>) returns (tagged: seq<IndexData<T>>)
    ensures |tagged| == |getter|
    ensures forall k :: 0 <= k < |getter| ==> tagged[k] == IndexData(k, getter[k])
    ensures tagged == Tag(getter)
  {
    tagged := [];
    var index := 0;
    var pending := getter;
    while pending != []
      invariant index == |tagged| <= |getter|
      invariant pending == getter[index..]
      invariant forall k :: 0 <= k < index ==> tagged[k] == IndexData(k, getter[k])
    {
      var data := pending[0];
      pending := pending[1..];
      tagged := tagged + [IndexData(index, data)];
      index := index + 1;
    }
  }

  // ---------------------------------------------------------------------------
  // Workers
  // ---------------------------------------------------------------------------

  /** One pass of a worker's loop body: process the item and keep its index. */
  function WorkerStep<T, R, E>(processor: T -> Result<R, E>, item: IndexData<T>): Result<IndexData<R>, E>
  {
    match processor(item.data)
    case Ok(v) => Ok(IndexData(item.index, v))
    case Err(e) => Err(e)
  }

  /**
   * The worker pool on the tagged items, with `live` workers still running.
   * A success is forwarded; a failure records the worker's error and that worker quits.
   * The pool stops taking items when the channel is drained or no worker is left.
   */
  function Pool<T, R, E>(processor: T -> Result<R, E>, items: seq<IndexData<T>>, live: nat): (run: PoolRun<R, E>)
    ensures run.consumed <= |items|
    ensures |run.forwarded| + |run.errors| == run.consumed
    ensures |run.errors| <= live
    ensures run.consumed < |items| ==> |run.errors| == live
    decreases |items|
  {
    if live == 0 || items == [] then PoolRun([], [], 0)
    else
      match WorkerStep(processor, items[0])
      case Ok(out) =>
        var rest := Pool(processor, items[1..], live);
        PoolRun([out] + rest.forwarded, rest.errors, rest.consumed + 1)
      case Err(e) =>
        var rest := Pool(processor, items[1..], live - 1);
        PoolRun(rest.forwarded, [e] + rest.errors, rest.consumed + 1)
  }

  /** Two pool runs one after the other. */
  function Join<R, E>(a: PoolRun<R, E>, b: PoolRun<R, E>): PoolRun<R, E>
  {
    PoolRun(a.forwarded + b.forwarded, a.errors + b.errors, a.consumed + b.consumed)
  }

  /** The results a failure-free run forwards: each item's index with its processed data. */
  function Forwarded<T, R, E>(processor: T -> Result<R, E>, items: seq<IndexData<T>>): (r: seq<IndexData<R>>)
    requires forall k :: 0 <= k < |items| ==> processor(items[k].data).Ok?
    ensures |r| == |items|
    ensures forall k :: 0 <= k < |items| ==> r[k] == IndexData(items[k].index, processor(items[k].data).value)
    decreases |items|
  {
    if items == [] then []
    else [IndexData(items[0].index, processor(items[0].data).value)] + Forwarded(processor, items[1..])
  }

  /** The numWorkers worker loops, interleaved in the order they take items from dataChan. */
  method RunWorkers<T, R, E>(processor: T -> Result<R, E>, items: seq<IndexData<T>>, numWorkers: nat)
    returns (run: PoolRun<R, E>)
    ensures run == Pool(processor, items, numWorkers)
  {
    var forwarded: seq<IndexData<R>> := [];
    var errors: seq<E> := [];
    var live := numWorkers;
    var next := 0;
    while next < |items| && live > 0
      invariant 0 <= next <= |items|
      invariant Pool(processor, items, numWorkers).forwarded == forwarded + Pool(processor, items[next..], live).forwarded
      invariant Pool(processor, items, numWorkers).errors == errors + Pool(processor, items[next..], live).errors
      invariant Pool(processor, items, numWorkers).consumed == next + Pool(processor, items[next..], live).consumed
    {
      PoolTakeOne(processor, items, next, live, PoolRun(forwarded, errors, next));
      var step := WorkerStep(processor, items[next]);
      if step.Ok? {
        forwarded := forwarded + [step.value];
      } else {
        errors := errors + [step.error];
        live := live - 1;
      }
      next := next + 1;
    }
    PoolFinished(processor, items, next, live, PoolRun(forwarded, errors, next));
    run := PoolRun(forwarded, errors, next);
  }

  // ---------------------------------------------------------------------------
  // Error slot
  // ---------------------------------------------------------------------------

  /** A non-blocking send into a channel of capacity one. */
  function TrySend<E>(slot: Option<E>, err: E): (r: Option<E>)
    ensures r.Some?
    ensures slot.Some? ==> r == slot
    ensures slot.None? ==> r.value == err
  {
    if slot.None? then Some(err) else slot
  }

  /** The slot after every failing worker has tried it, in the order `order`. */
  function SlotAfter<E>(slot: Option<E>, errors: seq<E>, order: seq<nat>): Option<E>
    requires forall k :: 0 <= k < |order| ==> order[k] < |errors|
    decreases |order|
  {
    if order == [] then slot else SlotAfter(TrySend(slot, errors[order[0]]), errors, order[1..])
  }

  // ---------------------------------------------------------------------------
  // Collector
  // ---------------------------------------------------------------------------

  /** `n` copies of Go's zero value. */
  function Zeros<R>(n: nat, zero: R): (r: seq<R>)
    ensures |r| == n
    ensures forall k :: 0 <= k < n ==> r[k] == zero
  {
    seq(n, _ => zero)
  }

  /** The slice after the collector handles one result: grow with zero values, then overwrite. */
  function CollectStep<R>(acc: seq<R>, chunk: IndexData<R>, zero: R): (r: seq<R>)
    ensures |r| == Max(|acc|, chunk.index + 1)
    ensures r[chunk.index] == chunk.data
    ensures forall j :: 0 <= j < |acc| && j != chunk.index ==> r[j] == acc[j]
    ensures forall j :: |acc| <= j < |r| && j != chunk.index ==> r[j] == zero
  {
    var grown := if chunk.index >= |acc| then acc + Zeros(chunk.index - |acc| + 1, zero) else acc;
    grown[chunk.index := chunk.data]
  }

  /** The slice after the collector handles `results` in order. */
  function CollectAll<R>(acc: seq<R>, results: seq<IndexData<R>>, zero: R): seq<R>
    decreases |results|
  {
    if results == [] then acc else CollectAll(CollectStep(acc, results[0], zero), results[1..], zero)
  }

  /** `perm` lists every position below `n` exactly once. */
  predicate IsPermutation(perm: seq<nat>, n: nat)
  {
    && |perm| == n
    && (forall k :: 0 <= k < n ==> perm[k] < n)
    && (forall i :: 0 <= i < n ==> i in perm)
  }

  /** `s` rearranged: element k of the result is element perm[k] of `s`. */
  function Permuted<X>(s: seq<X>, perm: seq<nat>): (r: seq<X>)
    requires forall k :: 0 <= k < |perm| ==> perm[k] < |s|
    ensures |r| == |perm|
    ensures forall k :: 0 <= k < |perm| ==> r[k] == s[perm[k]]
    decreases |perm|
  {
    if perm == [] then [] else [s[perm[0]]] + Permuted(s, perm[1..])
  }

  // ---------------------------------------------------------------------------
  // The whole engine
  // ---------------------------------------------------------------------------

  /**
   * The schedule is a pair of permutations of what the pool produced.  Every schedule the Go
   * runtime can produce satisfies this, but not conversely: with one worker, for instance,
   * results reach the collector in index order (`SingleWorkerSchedule`), while any arrival
   * order is admissible.  The properties below hold for every admissible schedule.
   */
  predicate Admissible<T, R, E>(processor: T -> Result<R, E>, getter: seq<T>, numWorkers: nat, schedule: Schedule)
  {
    var run := Pool(processor, Tag(getter), numWorkers);
    IsPermutation(schedule.arrival, |run.forwarded|) && IsPermutation(schedule.errorOrder, |run.errors|)
  }

  /** Every source item processes without error. */
  predicate AllOk<T, R, E>(processor: T -> Result<R, E>, xs: seq<T>)
  {
    forall k :: 0 <= k < |xs| ==> processor(xs[k]).Ok?
  }

  /** map(processor, xs) for a processor that never fails on `xs`. */
  function Values<T, R, E>(processor: T -> Result<R, E>, xs: seq<T>): (r: seq<R>)
    requires AllOk(processor, xs)
    ensures |r| == |xs|
    ensures forall k :: 0 <= k < |xs| ==> processor(xs[k]) == Ok(r[k])
    decreases |xs|
  {
    if xs == [] then [] else [processor(xs[0]).value] + Values(processor, xs[1..])
  }

  /** What ProcessParallelOrdered returns under `schedule`. */
  function Ordered<T, R, E>(processor: T -> Result<R, E>, getter: seq<T>, numWorkers: nat, zero: R, schedule: Schedule)
    : Result<seq<R>, E>
    requires Admissible(processor, getter, numWorkers, schedule)
  {
    var run := Pool(processor, Tag(getter), numWorkers);
    var slot := SlotAfter(None, run.errors, schedule.errorOrder);
    var collected := CollectAll([], Permuted(run.forwarded, schedule.arrival), zero);
    if slot.Some? then Err(slot.value) else Ok(collected)
  }

  /** The state ProcessParallelOrdered shares between its goroutines. */
  class Pipeline<R, E> {
    var collected: seq<R>   // collectedData, grown through the *[]R pointer
    var errSlot: Option<E>  // errChan, a channel of capacity one
    const zero: R           // Go's zero value of R

    constructor (zero: R)
      ensures collected == [] && errSlot == None && this.zero == zero
    {
      collected := [];
      errSlot := None;
      this.zero := zero;
    }

    /** The non-blocking send on errChan: it succeeds only while the slot is empty. */
    method TrySendError(err: E) returns (sent: bool)
      modifies this`errSlot
      ensures sent <==> old(errSlot).None?
      ensures errSlot == TrySend(old(errSlot), err)
      ensures old(errSlot).Some? ==> errSlot == old(errSlot)
    {
      sent := errSlot.None?;
      if sent {
        errSlot := Some(err);
      }
    }

    /** processIndexedData for one worker whose share of dataChan is `feed`. */
    method ProcessIndexedData<T>(processor: T -> Result<R, E>, feed: seq<IndexData<T>>)
      returns (out: seq<IndexData<R>>, consumed: nat)
      modifies this`errSlot
      ensures var run := Pool(processor, feed, 1);
        && out == run.forwarded
        && consumed == run.consumed
        && errSlot == (if run.errors == [] then old(errSlot) else TrySend(old(errSlot), run.errors[0]))
    {
      out, consumed := [], 0;
      while consumed < |feed|
        invariant consumed <= |feed|
        invariant Join(PoolRun(out, [], consumed), Pool(processor, feed[consumed..], 1)) == Pool(processor, feed, 1)
        invariant errSlot == old(errSlot)
      {
        var item := feed[consumed];
        assert feed[consumed..][1..] == feed[consumed + 1..];
        consumed := consumed + 1;
        match processor(item.data) {
          case Err(err) =>
            var sent := TrySendError(err);
            return;
          case Ok(processedData) =>
            out := out + [IndexData(item.index, processedData)];
        }
      }
    }

    /** The failing workers try the error slot one after another, in the order `order`. */
    method RaceErrors(errors: seq<E>, order: seq<nat>)
      requires forall k :: 0 <= k < |order| ==> order[k] < |errors|
      modifies this`errSlot
      ensures errSlot == SlotAfter(old(errSlot), errors, order)
    {
      var k := 0;
      while k < |order|
        invariant 0 <= k <= |order|
        invariant SlotAfter(errSlot, errors, order[k..]) == SlotAfter(old(errSlot), errors, order)
      {
        assert order[k..][1..] == order[k + 1..];
        var sent := TrySendError(errors[order[k]]);
        k := k + 1;
      }
    }

    /** One iteration of collectIndexedResults. */
    method CollectOne(chunk: IndexData<R>)
      modifies this`collected
      ensures collected == CollectStep(old(collected), chunk, zero)
    {
      if chunk.index >= |collected| {
        collected := collected + Zeros(chunk.index - |collected| + 1, zero);
      }
      collected := collected[chunk.index := chunk.data];
    }

    /** collectIndexedResults: handle the results in their arrival order. */
    method CollectIndexedResults(results: seq<IndexData<R>>)
      modifies this`collected
      ensures collected == CollectAll(old(collected), results, zero)
    {
      var k := 0;
      while k < |results|
        invariant 0 <= k <= |results|
        invariant CollectAll(collected, results[k..], zero) == CollectAll(old(collected), results, zero)
      {
        assert results[k..][1..] == results[k + 1..];
        CollectOne(results[k]);
        k := k + 1;
      }
    }

    /** The final select on errChan. */
    method Resolve() returns (r: Result<seq<R>, E>)
      ensures r.Err? <==> errSlot.Some?
      ensures errSlot.Some? ==> r.error == errSlot.value
      ensures errSlot.None? ==> r.value == collected
    {
      match errSlot {
        case Some(err) => r := Err(err);
        case None => r := Ok(collected);
      }
    }
  }

  /** ProcessParallelOrdered, run under `schedule`. */
  method ProcessParallelOrdered<T, R, E>(getter: seq<T>, processor: T -> Result<R, E>, numWorkers: nat,
                                         zero: R, schedule: Schedule)
    returns (r: Result<seq<R>, E>)
    requires Admissible(processor, getter, numWorkers, schedule)
    ensures r == Ordered(processor, getter, numWorkers, zero, schedule)
    ensures r.Ok? <==> numWorkers == 0 || AllOk(processor, getter)
    ensures numWorkers >= 1 && AllOk(processor, getter) ==> r == Ok(Values(processor, getter))
    ensures numWorkers == 0 ==> r == Ok([])
    ensures r.Err? ==> exists j :: 0 <= j < |getter| && processor(getter[j]) == Err(r.error)
  {
    var tagged := Sequence(getter);
    var pipeline := new Pipeline<R, E>(zero);
    var run := RunWorkers(processor, tagged, numWorkers);
    pipeline.RaceErrors(run.errors, schedule.errorOrder);
    pipeline.CollectIndexedResults(Permuted(run.forwarded, schedule.arrival));
    r := pipeline.Resolve();
    OrderedOutcome(processor, getter, numWorkers, zero, schedule);
  }

  /**
   * The schedule of a run with one worker: results reach the collector in index order, because the
   * worker hands each result to resultChan before it takes the next item, and the one error, if any,
   * is sent into the empty slot.
   */
  function SingleWorkerSchedule<T, R, E>(processor: T -> Result<R, E>, getter: seq<T>): Schedule
  {
    var run := Pool(processor, Tag(getter), 1);
    Schedule(seq(|run.forwarded|, i => i), if run.errors == [] then [] else [0])
  }

  /**
   * ProcessParallelOrdered with numWorkers = 1, composed from the single worker loop
   * processIndexedData: it returns what `Ordered` gives under the one-worker schedule.
   */
  method ProcessWithOneWorker<T, R, E>(getter: seq<T>, processor: T -> Result<R, E>, zero: R)
    returns (r: Result<seq<R>, E>)
    ensures Admissible(processor, getter, 1, SingleWorkerSchedule(processor, getter))
    ensures r == Ordered(processor, getter, 1, zero, SingleWorkerSchedule(processor, getter))
  {
    var tagged := Sequence(getter);
    var pipeline := new Pipeline<R, E>(zero);
    var out, consumed := pipeline.ProcessIndexedData(processor, tagged);
    pipeline.CollectIndexedResults(out);
    r := pipeline.Resolve();
    var run := Pool(processor, tagged, 1);
    var schedule := SingleWorkerSchedule(processor, getter);
    InOrderIsPermutation(|run.forwarded|);
    assert Permuted(run.forwarded, schedule.arrival) == out;
    if run.errors != [] {
      assert SlotAfter(None, run.errors, schedule.errorOrder) == SlotAfter(Some(run.errors[0]), run.errors, []);
    }
  }

  /** The identity order lists every position exactly once. */
  lemma InOrderIsPermutation(n: nat)
    ensures IsPermutation(seq(n, i => i), n)
  {
    var perm := seq(n, i => i);
    forall i | 0 <= i < n
      ensures i in perm
    {
      assert perm[i] == i;
    }
  }

  // ---------------------------------------------------------------------------
  // Properties of the pool
  // ---------------------------------------------------------------------------

  /** A forwarded result carries the index of an item the pool took and that item's processed data. */
  lemma {:induction false} PoolForwardsTagged<T, R, E>(processor: T -> Result<R, E>, items: seq<IndexData<T>>, live: nat, k: nat)
    requires k < |Pool(processor, items, live).forwarded|
    ensures var run := Pool(processor, items, live);
      exists j :: 0 <= j < run.consumed
        && run.forwarded[k].index == items[j].index
        && processor(items[j].data) == Ok(run.forwarded[k].data)
    decreases |items|
  {
    var run := Pool(processor, items, live);
    var step := WorkerStep(processor, items[0]);
    if step.Ok? && k == 0 {
      assert run.forwarded[0] == step.value;
      assert processor(items[0].data) == Ok(run.forwarded[0].data);
    } else {
      var live' := if step.Ok? then live else live - 1;
      var k' := if step.Ok? then k - 1 else k;
      var rest := Pool(processor, items[1..], live');
      assert run.forwarded[k] == rest.forwarded[k'];
      PoolForwardsTagged(processor, items[1..], live', k');
      var j :| 0 <= j < rest.consumed
        && rest.forwarded[k'].index == items[1..][j].index
        && processor(items[1..][j].data) == Ok(rest.forwarded[k'].data);
      assert items[1..][j] == items[j + 1];
    }
  }

  /** A recorded error is the processor's error on an item the pool took. */
  lemma {:induction false} PoolErrorsFromItems<T, R, E>(processor: T -> Result<R, E>, items: seq<IndexData<T>>, live: nat, f: nat)
    requires f < |Pool(processor, items, live).errors|
    ensures var run := Pool(processor, items, live);
      exists j :: 0 <= j < run.consumed && processor(items[j].data) == Err(run.errors[f])
    decreases |items|
  {
    var run := Pool(processor, items, live);
    var step := WorkerStep(processor, items[0]);
    if step.Err? && f == 0 {
      assert processor(items[0].data) == Err(run.errors[0]);
    } else {
      var live' := if step.Ok? then live else live - 1;
      var f' := if step.Ok? then f else f - 1;
      var rest := Pool(processor, items[1..], live');
      assert run.errors[f] == rest.errors[f'];
      PoolErrorsFromItems(processor, items[1..], live', f');
      var j :| 0 <= j < rest.consumed && processor(items[1..][j].data) == Err(rest.errors[f']);
      assert items[1..][j] == items[j + 1];
    }
  }

  lemma JoinAssoc<R, E>(a: PoolRun<R, E>, b: PoolRun<R, E>, c: PoolRun<R, E>)
    ensures Join(Join(a, b), c) == Join(a, Join(b, c))
  {
    assert (a.forwarded + b.forwarded) + c.forwarded == a.forwarded + (b.forwarded + c.forwarded);
    assert (a.errors + b.errors) + c.errors == a.errors + (b.errors + c.errors);
  }

  /** Taking item `next` extends what the pool has done so far by that item's outcome. */
  lemma PoolTakeOne<T, R, E>(processor: T -> Result<R, E>, items: seq<IndexData<T>>, next: nat, live: nat, done: PoolRun<R, E>)
    requires next < |items| && live > 0
    ensures var step := WorkerStep(processor, items[next]);
      Join(done, Pool(processor, items[next..], live)) ==
        if step.Ok? then Join(PoolRun(done.forwarded + [step.value], done.errors, done.consumed + 1), Pool(processor, items[next + 1..], live))
        else Join(PoolRun(done.forwarded, done.errors + [step.error], done.consumed + 1), Pool(processor, items[next + 1..], live - 1))
  {
    var rest := items[next..];
    assert rest[1..] == items[next + 1..];
    var step := WorkerStep(processor, rest[0]);
    var taken := if step.Ok? then PoolRun([step.value], [], 1) else PoolRun([], [step.error], 1);
    var live' := if step.Ok? then live else live - 1;
    assert Pool(processor, rest, live) == Join(taken, Pool(processor, rest[1..], live'));
    JoinAssoc(done, taken, Pool(processor, rest[1..], live'));
  }

  /** The pool does nothing more once the channel is drained or no worker is left. */
  lemma PoolFinished<T, R, E>(processor: T -> Result<R, E>, items: seq<IndexData<T>>, next: nat, live: nat, done: PoolRun<R, E>)
    requires next <= |items| && (next == |items| || live == 0)
    ensures Join(done, Pool(processor, items[next..], live)) == done
  {
    assert done.forwarded + [] == done.forwarded && done.errors + [] == done.errors;
  }

  /** With at least one worker and no failure, every item is taken and forwarded in order. */
  lemma {:induction false} PoolAllOk<T, R, E>(processor: T -> Result<R, E>, items: seq<IndexData<T>>, live: nat)
    requires live >= 1
    requires forall k :: 0 <= k < |items| ==> processor(items[k].data).Ok?
    ensures Pool(processor, items, live) == PoolRun(Forwarded(processor, items), [], |items|)
    decreases |items|
  {
    if items != [] {
      PoolAllOk(processor, items[1..], live);
    }
  }

  /** With at least one worker, the first failing item is always taken, so at least one error is recorded. */
  lemma {:induction false} PoolReachesFailure<T, R, E>(processor: T -> Result<R, E>, items: seq<IndexData<T>>, live: nat, j: nat)
    requires live >= 1
    requires j < |items| && processor(items[j].data).Err?
    ensures |Pool(processor, items, live).errors| >= 1
    decreases |items|
  {
    if processor(items[0].data).Ok? {
      PoolReachesFailure(processor, items[1..], live, j - 1);
    }
  }

  /** A single worker forwards everything before its first failure, records that error and takes nothing more. */
  lemma {:induction false} SingleWorkerStopsAtFirstError<T, R, E>(processor: T -> Result<R, E>, feed: seq<IndexData<T>>, j: nat)
    requires j < |feed| && processor(feed[j].data).Err?
    requires forall k :: 0 <= k < j ==> processor(feed[k].data).Ok?
    ensures Pool(processor, feed, 1) == PoolRun(Forwarded(processor, feed[..j]), [processor(feed[j].data).error], j + 1)
    decreases |feed|
  {
    if j > 0 {
      SingleWorkerStopsAtFirstError(processor, feed[1..], j - 1);
      assert feed[1..][..j - 1] == feed[..j][1..];
    }
  }

  // ---------------------------------------------------------------------------
  // Properties of the error slot
  // ---------------------------------------------------------------------------

  /** The slot keeps what it holds; an empty slot ends up with the error of the first worker to try it. */
  lemma {:induction false} FirstErrorWins<E>(slot: Option<E>, errors: seq<E>, order: seq<nat>)
    requires forall k :: 0 <= k < |order| ==> order[k] < |errors|
    ensures SlotAfter(slot, errors, order)
            == if slot.Some? then slot else if order == [] then None else Some(errors[order[0]])
    decreases |order|
  {
    if order != [] {
      FirstErrorWins(TrySend(slot, errors[order[0]]), errors, order[1..]);
    }
  }

  // ---------------------------------------------------------------------------
  // Properties of the collector
  // ---------------------------------------------------------------------------

  /**
   * If every result carries the value `ys` has at its index, the collector never grows past |ys|,
   * keeps the slots that already agree with `ys`, and leaves every delivered index holding its value.
   */
  lemma {:induction false} CollectAgrees<R>(acc: seq<R>, results: seq<IndexData<R>>, zero: R, ys: seq<R>)
    requires |acc| <= |ys|
    requires forall k :: 0 <= k < |results| ==> results[k].index < |ys| && results[k].data == ys[results[k].index]
    ensures var c := CollectAll(acc, results, zero);
      && |acc| <= |c| <= |ys|
      && (forall j :: 0 <= j < |acc| && acc[j] == ys[j] ==> c[j] == ys[j])
      && (forall k :: 0 <= k < |results| ==> results[k].index < |c| && c[results[k].index] == ys[results[k].index])
    decreases |results|
  {
    if results != [] {
      var acc' := CollectStep(acc, results[0], zero);
      CollectAgrees(acc', results[1..], zero, ys);
      var c := CollectAll(acc, results, zero);
      assert c == CollectAll(acc', results[1..], zero);
      forall k | 0 <= k < |results|
        ensures results[k].index < |c| && c[results[k].index] == ys[results[k].index]
      {
        if k > 0 {
          assert results[k] == results[1..][k - 1];
        }
      }
    }
  }

  /** Whatever the arrival order, collecting the tagged outputs for 0..n-1 rebuilds them in index order. */
  lemma CollectPermutation<R>(ys: seq<R>, arrival: seq<nat>, zero: R)
    requires IsPermutation(arrival, |ys|)
    ensures CollectAll([], Permuted(Tag(ys), arrival), zero) == ys
  {
    var results := Permuted(Tag(ys), arrival);
    CollectAgrees([], results, zero, ys);
    var c := CollectAll([], results, zero);
    forall j | 0 <= j < |ys|
      ensures j < |c| && c[j] == ys[j]
    {
      assert j in arrival;
      var k :| 0 <= k < |arrival| && arrival[k] == j;
      assert results[k].index == j;
    }
    if |ys| > 0 {
      var last := ys[|ys| - 1];
      assert |ys| - 1 < |c|;
    }
    assert c == ys;
  }

  // ---------------------------------------------------------------------------
  // Properties of the whole engine
  // ---------------------------------------------------------------------------

  /** Order invariance: without failures the result is map(processor, getter), whatever the schedule. */
  lemma OrderInvariance<T, R, E>(processor: T -> Result<R, E>, getter: seq<T>, numWorkers: nat, zero: R, schedule: Schedule)
    requires Admissible(processor, getter, numWorkers, schedule)
    requires numWorkers >= 1 && AllOk(processor, getter)
    ensures Ordered(processor, getter, numWorkers, zero, schedule) == Ok(Values(processor, getter))
  {
    var items := Tag(getter);
    var ys := Values(processor, getter);
    PoolAllOk(processor, items, numWorkers);
    assert Forwarded(processor, items) == Tag(ys);
    CollectPermutation(ys, schedule.arrival, zero);
  }

  /** A failure anywhere in the source makes the call fail with some item's processor error. */
  lemma FailureReportsProcessorError<T, R, E>(processor: T -> Result<R, E>, getter: seq<T>, numWorkers: nat, zero: R,
                                              schedule: Schedule, i: nat)
    requires Admissible(processor, getter, numWorkers, schedule)
    requires numWorkers >= 1 && i < |getter| && processor(getter[i]).Err?
    ensures var r := Ordered(processor, getter, numWorkers, zero, schedule);
      r.Err? && exists j :: 0 <= j < |getter| && processor(getter[j]) == Err(r.error)
  {
    var items := Tag(getter);
    var run := Pool(processor, items, numWorkers);
    PoolReachesFailure(processor, items, numWorkers, i);
    FirstErrorWins(None, run.errors, schedule.errorOrder);
    var f := schedule.errorOrder[0];
    PoolErrorsFromItems(processor, items, numWorkers, f);
    var j :| 0 <= j < run.consumed && processor(items[j].data) == Err(run.errors[f]);
    assert processor(getter[j]) == Err(run.errors[f]);
  }

  /** Error identity: when exactly one item fails, its error is the one returned. */
  lemma SingleFailureIdentity<T, R, E>(processor: T -> Result<R, E>, getter: seq<T>, numWorkers: nat, zero: R,
                                       schedule: Schedule, i: nat)
    requires Admissible(processor, getter, numWorkers, schedule)
    requires numWorkers >= 1 && i < |getter| && processor(getter[i]).Err?
    requires forall k :: 0 <= k < |getter| && k != i ==> processor(getter[k]).Ok?
    ensures Ordered(processor, getter, numWorkers, zero, schedule) == Err(processor(getter[i]).error)
  {
    var items := Tag(getter);
    var run := Pool(processor, items, numWorkers);
    PoolReachesFailure(processor, items, numWorkers, i);
    FirstErrorWins(None, run.errors, schedule.errorOrder);
    var f := schedule.errorOrder[0];
    PoolErrorsFromItems(processor, items, numWorkers, f);
    var j :| 0 <= j < run.consumed && processor(items[j].data) == Err(run.errors[f]);
    assert j == i;
  }

  /** With no workers nothing is processed: the call returns an empty slice and no error. */
  lemma ZeroWorkers<T, R, E>(processor: T -> Result<R, E>, getter: seq<T>, zero: R, schedule: Schedule)
    requires Admissible(processor, getter, 0, schedule)
    ensures Ordered(processor, getter, 0, zero, schedule) == Ok([])
  {
  }

  /** The outcome cases of ProcessParallelOrdered, together. */
  lemma OrderedOutcome<T, R, E>(processor: T -> Result<R, E>, getter: seq<T>, numWorkers: nat, zero: R, schedule: Schedule)
    requires Admissible(processor, getter, numWorkers, schedule)
    ensures var r := Ordered(processor, getter, numWorkers, zero, schedule);
      && (r.Ok? <==> numWorkers == 0 || AllOk(processor, getter))
      && (numWorkers >= 1 && AllOk(processor, getter) ==> r == Ok(Values(processor, getter)))
      && (numWorkers == 0 ==> r == Ok([]))
      && (r.Err? ==> exists j :: 0 <= j < |getter| && processor(getter[j]) == Err(r.error))
  {
    if numWorkers == 0 {
      ZeroWorkers(processor, getter, zero, schedule);
    } else if AllOk(processor, getter) {
      OrderInvariance(processor, getter, numWorkers, zero, schedule);
    } else {
      var i :| 0 <= i < |getter| && processor(getter[i]).Err?;
      FailureReportsProcessorError(processor, getter, numWorkers, zero, schedule, i);
    }
  }
}
