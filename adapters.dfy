/**
 * The adapters of file.go: a line source, a chunked line source and a file source feed the
 * engine, and the outputs of the chunked and the file variants are flattened.
 *
 * Scanning a reader into lines and reading a file are library I/O: the lines are given as a
 * sequence, and each path's read as an optional content (None when the read fails).
 * A Go range-over-func iterator passes each item to `yield`, whose answer says whether the
 * consumer wants more; that answer after the k-th item is `more(k)`.  The engine's sequencer
 * never stops early, so the adapters run their iterators with `_ => true`.
 */
module Adapters {
  import opened Wrappers
  import opened Engine

  newtype byte = x: int | 0 <= x < 256

  type Line = string

  // ---------------------------------------------------------------------------
  // Iterators with early stop
  // ---------------------------------------------------------------------------

  /** How many of `n` items a consumer takes when its answer after item k is `more(k)`, counting from `k`. */
  function StopAfter(n: nat, more: nat -> bool, k: nat): (r: nat)
    requires k <= n
    ensures k <= r <= n
    ensures forall j :: k <= j < r - 1 ==> more(j)
    ensures r < n ==> k < r && !more(r - 1)
    decreases n - k
  {
    if k == n then n else if !more(k) then k + 1 else StopAfter(n, more, k + 1)
  }

  /** The items an iterator over `xs` hands to a consumer that answers `more`. */
  function Delivered<X>(xs: seq<X>, more: nat -> bool): (r: seq<X>)
    ensures |r| <= |xs| && r == xs[..|r|]
    ensures forall k :: 0 <= k < |r| - 1 ==> more(k)
    ensures |r| < |xs| ==> |r| >= 1 && !more(|r| - 1)
  {
    xs[..StopAfter(|xs|, more, 0)]
  }

  /** A consumer that never stops receives everything. */
  lemma DeliveredAll<X>(xs: seq<X>, more: nat -> bool)
    requires forall j :: 0 <= j < |xs| - 1 ==> more(j)
    ensures Delivered(xs, more) == xs
  {
  }

  /** A consumer that first says stop after item k receives exactly items 0..k. */
  lemma DeliveredStop<X>(xs: seq<X>, more: nat -> bool, k: nat)
    requires k < |xs| && !more(k)
    requires forall j :: 0 <= j < k ==> more(j)
    ensures Delivered(xs, more) == xs[..k + 1]
  {
  }

  // ---------------------------------------------------------------------------
  // Concatenation
  // ---------------------------------------------------------------------------

  /** The in-order concatenation of the inner sequences. */
  function Concat<S>(ss: seq<seq<S>>): seq<S>
    decreases |ss|
  {
    if ss == [] then [] else ss[0] + Concat(ss[1..])
  }

  lemma {:induction false} ConcatAppend<S>(a: seq<seq<S>>, b: seq<seq<S>>)
    ensures Concat(a + b) == Concat(a) + Concat(b)
    decreases |a|
  {
    if a == [] {
      assert a + b == b;
    } else {
      assert (a + b)[1..] == a[1..] + b;
      ConcatAppend(a[1..], b);
    }
  }

  lemma ConcatSnoc<S>(a: seq<seq<S>>, s: seq<S>)
    ensures Concat(a + [s]) == Concat(a) + s
  {
    ConcatAppend(a, [s]);
    assert Concat([s]) == s + Concat([]);
  }

  /** The sum of the inner lengths: the totalSize loop of the flatteners. */
  method TotalSize<S>(data: seq<seq<S>>) returns (totalSize: nat)
    ensures totalSize == |Concat(data)|
  {
    totalSize := 0;
    for i := 0 to |data|
      invariant totalSize == |Concat(data[..i])|
    {
      assert data[..i + 1] == data[..i] + [data[i]];
      ConcatSnoc(data[..i], data[i]);
      totalSize := totalSize + |data[i]|;
    }
    assert data[..|data|] == data;
  }

  /** Flatten the engine's per-item outputs into a result preallocated to their total length. */
  method Flatten<S>(data: seq<seq<S>>) returns (result: seq<S>)
    ensures result == Concat(data)
  {
    var totalSize := TotalSize(data);
    result := [];
    for i := 0 to |data|
      invariant result == Concat(data[..i])
      invariant |result| <= totalSize   // the preallocated capacity is never exceeded
    {
      assert data[..i + 1] == data[..i] + [data[i]];
      ConcatSnoc(data[..i], data[i]);
      ConcatAppend(data[..i + 1], data[i + 1..]);
      assert data[..i + 1] + data[i + 1..] == data;
      result := result + data[i];
    }
    assert data[..|data|] == data;
  }

  // ---------------------------------------------------------------------------
  // ProcessParallelLines
  // ---------------------------------------------------------------------------

  /** The line iterator: one item per line, stopping when the consumer asks to. */
  method LineSource(lines: seq<Line>, more: nat -> bool) returns (yielded: seq<Line>)
    ensures yielded == Delivered(lines, more)
    ensures forall k :: 0 <= k < |yielded| - 1 ==> more(k)
    ensures |yielded| < |lines| ==> |yielded| >= 1 && !more(|yielded| - 1)
  {
    yielded := [];
    var i := 0;
    while i < |lines|
      invariant 0 <= i <= |lines|
      invariant yielded == lines[..i]
      invariant forall k :: 0 <= k < i ==> more(k)
    {
      yielded := yielded + [lines[i]];
      i := i + 1;
      if !more(i - 1) {
        DeliveredStop(lines, more, i - 1);
        return;
      }
    }
    assert lines[..|lines|] == lines;
    DeliveredAll(lines, more);
  }

  /** ProcessParallelLines, run under `schedule`. */
  method ProcessParallelLines<E>(lines: seq<Line>, processor: Line -> Result<Line, E>, numWorkers: nat,
                                 schedule: Schedule)
    returns (r: Result<seq<Line>, E>)
    requires Admissible(processor, lines, numWorkers, schedule)
    ensures r == Ordered(processor, lines, numWorkers, "", schedule)
    ensures numWorkers >= 1 && AllOk(processor, lines) ==> r == Ok(Values(processor, lines))
    ensures r.Err? ==> exists j :: 0 <= j < |lines| && processor(lines[j]) == Err(r.error)
  {
    var items := LineSource(lines, _ => true);
    DeliveredAll(lines, _ => true);
    r := ProcessParallelOrdered(items, processor, numWorkers, "", schedule);
  }

  // ---------------------------------------------------------------------------
  // ProcessParallelLinesInChunks
  // ---------------------------------------------------------------------------

  /** The lines cut into consecutive chunks of `size`, the last one possibly shorter. */
  function Chunks<S>(lines: seq<S>, size: nat): seq<seq<S>>
    requires size >= 1
    decreases |lines|
  {
    if lines == [] then []
    else if |lines| <= size then [lines]
    else [lines[..size]] + Chunks(lines[size..], size)
  }

  /**
   * The chunk length the iterator actually cuts at: a chunk is yielded when its length reaches
   * `chunkSize`, which never happens for 0, so then all lines stay in a single chunk.
   */
  function ChunkSpan<S>(lines: seq<S>, chunkSize: nat): (r: nat)
    ensures r >= 1
    ensures chunkSize >= 1 ==> r == chunkSize
    ensures chunkSize == 0 ==> r > |lines|
  {
    if chunkSize == 0 then |lines| + 1 else chunkSize
  }

  /** The chunks the iterator of ProcessParallelLinesInChunks yields for `chunkSize`. */
  function SourceChunks<S>(lines: seq<S>, chunkSize: nat): (r: seq<seq<S>>)
    ensures chunkSize == 0 ==> r == (if lines == [] then [] else [lines])
  {
    Chunks(lines, ChunkSpan(lines, chunkSize))
  }

  /** Every chunk is nonempty; all but the last hold exactly `size` lines, the last at most `size`. */
  predicate ChunkShaped<S>(cs: seq<seq<S>>, size: nat)
  {
    && (forall k :: 0 <= k < |cs| ==> 1 <= |cs[k]| <= size)
    && (forall k :: 0 <= k < |cs| - 1 ==> |cs[k]| == size)
  }

  lemma {:induction false} ChunksShape<S>(lines: seq<S>, size: nat)
    requires size >= 1
    ensures ChunkShaped(Chunks(lines, size), size)
    decreases |lines|
  {
    if |lines| > size {
      ChunksShape(lines[size..], size);
      var cs := Chunks(lines, size);
      var rest := Chunks(lines[size..], size);
      forall k | 0 <= k < |cs|
        ensures 1 <= |cs[k]| <= size && (k < |cs| - 1 ==> |cs[k]| == size)
      {
        if k == 0 {
          assert cs[0] == lines[..size];
        } else {
          assert cs[k] == rest[k - 1];
        }
      }
    }
  }

  /** Chunking loses and reorders nothing: the chunks concatenate back to the lines. */
  lemma {:induction false} ChunksConcat<S>(lines: seq<S>, size: nat)
    requires size >= 1
    ensures Concat(Chunks(lines, size)) == lines
    decreases |lines|
  {
    if lines == [] {
    } else if |lines| <= size {
      assert Concat([lines]) == lines + Concat([]);
    } else {
      ChunksConcat(lines[size..], size);
      var cs := Chunks(lines, size);
      assert cs[1..] == Chunks(lines[size..], size);
      assert lines[..size] + lines[size..] == lines;
    }
  }

  /** At least `size` lines from `base` on: yielding the full chunk there leaves the chunks after it. */
  lemma ChunkYield<S>(lines: seq<S>, base: nat, size: nat, done: seq<seq<S>>)
    requires size >= 1 && base + size <= |lines|
    ensures done + Chunks(lines[base..], size) == (done + [lines[base..base + size]]) + Chunks(lines[base + size..], size)
  {
    var rest := lines[base..];
    assert rest[..size] == lines[base..base + size];
    assert rest[size..] == lines[base + size..];
    if |rest| == size {
      assert rest[..size] == rest;
    }
    assert Chunks(rest, size) == [rest[..size]] + Chunks(rest[size..], size);
  }

  /** Fewer than `size` lines from `base` on: they form the last chunk, if there are any. */
  lemma ChunkRemainder<S>(lines: seq<S>, base: nat, size: nat)
    requires size >= 1 && base <= |lines| && |lines| - base < size
    ensures Chunks(lines[base..], size) == if base == |lines| then [] else [lines[base..]]
  {
  }

  /** The chunk iterator: buffer lines, yield each full chunk, then the nonempty remainder. */
  method ChunkLines<S>(lines: seq<S>, chunkSize: nat, more: nat -> bool) returns (yielded: seq<seq<S>>)
    ensures yielded == Delivered(SourceChunks(lines, chunkSize), more)
    ensures forall k :: 0 <= k < |yielded| - 1 ==> more(k)
    ensures |yielded| < |SourceChunks(lines, chunkSize)| ==> |yielded| >= 1 && !more(|yielded| - 1)
  {
    ghost var span := ChunkSpan(lines, chunkSize);
    yielded := [];
    var chunk: seq<S> := [];
    ghost var base := 0;  // where the buffered chunk starts
    var i := 0;
    while i < |lines|
      invariant base <= i <= |lines| && base + |chunk| == i
      invariant |chunk| < span
      invariant chunk == lines[base..i]
      invariant yielded + Chunks(lines[base..], span) == Chunks(lines, span)
      invariant forall k :: 0 <= k < |yielded| ==> more(k)
    {
      chunk := chunk + [lines[i]];
      i := i + 1;
      assert chunk == lines[base..i];
      if |chunk| == chunkSize {
        ChunkYield(lines, base, span, yielded);
        yielded := yielded + [chunk];
        base := i;
        if !more(|yielded| - 1) {
          DeliveredStop(Chunks(lines, span), more, |yielded| - 1);
          assert (yielded + Chunks(lines[base..], span))[..|yielded|] == yielded;
          return;
        }
        chunk := [];
      }
    }
    ChunkRemainder(lines, base, span);
    assert chunk == lines[base..];
    if |chunk| > 0 {
      yielded := yielded + [chunk];
    } else {
      assert yielded + [] == yielded;
    }
    DeliveredAll(Chunks(lines, span), more);
  }

  /** What ProcessParallelLinesInChunks returns: the engine's error, or its per-chunk outputs flattened. */
  function LinesInChunksOutcome<E>(lines: seq<Line>, processor: seq<Line> -> Result<seq<Line>, E>, chunkSize: nat,
                                   numWorkers: nat, schedule: Schedule): Result<seq<Line>, E>
    requires Admissible(processor, SourceChunks(lines, chunkSize), numWorkers, schedule)
  {
    match Ordered(processor, SourceChunks(lines, chunkSize), numWorkers, [], schedule)
    case Err(e) => Err(e)
    case Ok(data) => Ok(Concat(data))
  }

  /** ProcessParallelLinesInChunks, run under `schedule`. */
  method ProcessParallelLinesInChunks<E>(lines: seq<Line>, processor: seq<Line> -> Result<seq<Line>, E>,
                                         chunkSize: nat, numWorkers: nat, schedule: Schedule)
    returns (r: Result<seq<Line>, E>)
    requires Admissible(processor, SourceChunks(lines, chunkSize), numWorkers, schedule)
    ensures r == LinesInChunksOutcome(lines, processor, chunkSize, numWorkers, schedule)
    ensures r.Err? <==> Ordered(processor, SourceChunks(lines, chunkSize), numWorkers, [], schedule).Err?
    ensures r.Err? ==> r.error == Ordered(processor, SourceChunks(lines, chunkSize), numWorkers, [], schedule).error
    ensures numWorkers >= 1 && AllOk(processor, SourceChunks(lines, chunkSize)) ==>
              r == Ok(Concat(Values(processor, SourceChunks(lines, chunkSize))))
  {
    var chunks := ChunkLines(lines, chunkSize, _ => true);
    DeliveredAll(SourceChunks(lines, chunkSize), _ => true);
    var data := ProcessParallelOrdered(chunks, processor, numWorkers, [], schedule);
    if data.Err? {
      return Err(data.error);
    }
    var result := Flatten(data.value);
    r := Ok(result);
  }

  /** A processor that treats a chunk line by line: `perLine` applied to each line, outputs concatenated. */
  function LineByLine(perLine: Line -> seq<Line>, lines: seq<Line>): seq<Line>
    decreases |lines|
  {
    if lines == [] then [] else perLine(lines[0]) + LineByLine(perLine, lines[1..])
  }

  lemma {:induction false} LineByLineAppend(perLine: Line -> seq<Line>, a: seq<Line>, b: seq<Line>)
    ensures LineByLine(perLine, a + b) == LineByLine(perLine, a) + LineByLine(perLine, b)
    decreases |a|
  {
    if a == [] {
      assert a + b == b;
    } else {
      assert (a + b)[1..] == a[1..] + b;
      LineByLineAppend(perLine, a[1..], b);
    }
  }

  lemma {:induction false} ConcatLineByLine<E>(perLine: Line -> seq<Line>, processor: seq<Line> -> Result<seq<Line>, E>,
                                               cs: seq<seq<Line>>)
    requires forall c :: processor(c) == Ok(LineByLine(perLine, c))
    ensures AllOk(processor, cs)
    ensures Concat(Values(processor, cs)) == LineByLine(perLine, Concat(cs))
    decreases |cs|
  {
    if cs != [] {
      ConcatLineByLine(perLine, processor, cs[1..]);
      assert Values(processor, cs)[1..] == Values(processor, cs[1..]);
      LineByLineAppend(perLine, cs[0], Concat(cs[1..]));
    }
  }

  /**
   * Chunking is invisible: with a processor that works line by line, the chunked pipeline returns
   * exactly what processing the whole input line by line gives, whatever the chunk size and schedule.
   */
  lemma ChunkingIsTransparent<E>(lines: seq<Line>, perLine: Line -> seq<Line>,
                                 processor: seq<Line> -> Result<seq<Line>, E>, chunkSize: nat,
                                 numWorkers: nat, schedule: Schedule)
    requires numWorkers >= 1
    requires Admissible(processor, SourceChunks(lines, chunkSize), numWorkers, schedule)
    requires forall c :: processor(c) == Ok(LineByLine(perLine, c))
    ensures LinesInChunksOutcome(lines, processor, chunkSize, numWorkers, schedule) == Ok(LineByLine(perLine, lines))
  {
    var cs := SourceChunks(lines, chunkSize);
    ConcatLineByLine(perLine, processor, cs);
    OrderInvariance(processor, cs, numWorkers, [], schedule);
    ChunksConcat(lines, ChunkSpan(lines, chunkSize));
  }

  // ---------------------------------------------------------------------------
  // ProcessParallelFiles
  // ---------------------------------------------------------------------------

  /** The contents of the attempts that succeeded, in list order. */
  function Readable<X>(attempts: seq<Option<X>>): seq<X>
    decreases |attempts|
  {
    if attempts == [] then []
    else (if attempts[0].Some? then [attempts[0].value] else []) + Readable(attempts[1..])
  }

  lemma {:induction false} ReadableAppend<X>(a: seq<Option<X>>, b: seq<Option<X>>)
    ensures Readable(a + b) == Readable(a) + Readable(b)
    decreases |a|
  {
    if a == [] {
      assert a + b == b;
    } else {
      assert (a + b)[1..] == a[1..] + b;
      ReadableAppend(a[1..], b);
    }
  }

  /** The file source keeps exactly the readable contents: a read failure only drops that file. */
  lemma {:induction false} ReadableMembers<X>(attempts: seq<Option<X>>)
    ensures forall c :: c in Readable(attempts) <==> Some(c) in attempts
    ensures |Readable(attempts)| <= |attempts|
    ensures (forall k :: 0 <= k < |attempts| ==> attempts[k].Some?) ==> |Readable(attempts)| == |attempts|
    decreases |attempts|
  {
    if attempts != [] {
      ReadableMembers(attempts[1..]);
      assert attempts == [attempts[0]] + attempts[1..];
      if forall k :: 0 <= k < |attempts| ==> attempts[k].Some? {
        assert forall k :: 0 <= k < |attempts| - 1 ==> attempts[1..][k] == attempts[k + 1];
      }
    }
  }

  /** The file iterator: skip each path whose read failed, yield the others until the consumer stops. */
  method FileSource(attempts: seq<Option<seq<byte>>>, more: nat -> bool) returns (yielded: seq<seq<byte>>)
    ensures yielded == Delivered(Readable(attempts), more)
    ensures forall k :: 0 <= k < |yielded| - 1 ==> more(k)
    ensures |yielded| < |Readable(attempts)| ==> |yielded| >= 1 && !more(|yielded| - 1)
  {
    yielded := [];
    var i := 0;
    while i < |attempts|
      invariant 0 <= i <= |attempts|
      invariant yielded == Readable(attempts[..i])
      invariant forall k :: 0 <= k < |yielded| ==> more(k)
    {
      var data := attempts[i];
      assert attempts[..i + 1] == attempts[..i] + [data];
      ReadableAppend(attempts[..i], [data]);
      i := i + 1;
      if data.None? {
        continue;  // the read error is logged and the file skipped
      }
      yielded := yielded + [data.value];
      if !more(|yielded| - 1) {
        assert attempts[..i] + attempts[i..] == attempts;
        ReadableAppend(attempts[..i], attempts[i..]);
        DeliveredStop(Readable(attempts), more, |yielded| - 1);
        assert (yielded + Readable(attempts[i..]))[..|yielded|] == yielded;
        return;
      }
    }
    assert attempts[..|attempts|] == attempts;
    DeliveredAll(Readable(attempts), more);
  }

  /** What ProcessParallelFiles returns: the engine's error, or the per-file outputs concatenated. */
  function FilesOutcome<E>(attempts: seq<Option<seq<byte>>>, processor: seq<byte> -> Result<seq<byte>, E>,
                           numWorkers: nat, schedule: Schedule): Result<seq<byte>, E>
    requires Admissible(processor, Readable(attempts), numWorkers, schedule)
  {
    match Ordered(processor, Readable(attempts), numWorkers, [], schedule)
    case Err(e) => Err(e)
    case Ok(data) => Ok(Concat(data))
  }

  /** ProcessParallelFiles, run under `schedule`; `attempts[k]` is the outcome of reading the k-th path. */
  method ProcessParallelFiles<E>(attempts: seq<Option<seq<byte>>>, processor: seq<byte> -> Result<seq<byte>, E>,
                                 numWorkers: nat, schedule: Schedule)
    returns (r: Result<seq<byte>, E>)
    requires Admissible(processor, Readable(attempts), numWorkers, schedule)
    ensures r == FilesOutcome(attempts, processor, numWorkers, schedule)
    ensures r.Err? <==> Ordered(processor, Readable(attempts), numWorkers, [], schedule).Err?
    ensures r.Err? ==> r.error == Ordered(processor, Readable(attempts), numWorkers, [], schedule).error
    ensures numWorkers >= 1 && AllOk(processor, Readable(attempts)) ==>
              r == Ok(Concat(Values(processor, Readable(attempts))))
  {
    var contents := FileSource(attempts, _ => true);
    DeliveredAll(Readable(attempts), _ => true);
    var data := ProcessParallelOrdered(contents, processor, numWorkers, [], schedule);
    if data.Err? {
      return Err(data.error);
    }
    var result := Flatten(data.value);
    r := Ok(result);
  }

  /** An unreadable path changes nothing: the outcome is that of the list without it. */
  lemma UnreadableIsSkipped<E>(before: seq<Option<seq<byte>>>, after: seq<Option<seq<byte>>>,
                               processor: seq<byte> -> Result<seq<byte>, E>, numWorkers: nat, schedule: Schedule)
    requires Admissible(processor, Readable(before + [None] + after), numWorkers, schedule)
    ensures Readable(before + [None] + after) == Readable(before + after)
    ensures FilesOutcome(before + [None] + after, processor, numWorkers, schedule)
            == FilesOutcome(before + after, processor, numWorkers, schedule)
  {
    ReadableAppend(before + [None], after);
    ReadableAppend(before, [None]);
    ReadableAppend(before, after);
    var gap: seq<Option<seq<byte>>> := [None];
    assert Readable(gap) == [];
  }
}
