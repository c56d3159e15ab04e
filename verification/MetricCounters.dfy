/** The counters one metric bucket holds, and the shared bucket object they live in. */
module MetricCounters {
  import opened Histogram

  type Hist = h: seq<int> | |h| == SLOTS witness Merged([], [])

  datatype Counters = Counters(
    requests: int, successes: int, latency: int, ttft: int, ttftCount: int,
    output: int, generation: int, input: int, cacheRead: int, cacheWrite: int,
    attemptSum: int, attemptCount: int, e2eSum: int, e2eCount: int,
    attempt: Hist, e2e: Hist)

  datatype Sample = Sample(
    model: string, group: string, channel: int,
    latency: int, ttft: int, hasTtft: bool, success: bool,
    output: int, generation: int, input: int, cacheRead: int, cacheWrite: int,
    attempt: int, hasAttempt: bool, e2e: int, hasE2e: bool)

  const NONE: Hist := Merged([], [])
  const ZERO: Counters := Counters(0, 0, 0, 0, 0, 0, 0, 0, 0, 0, 0, 0, 0, 0, NONE, NONE)

  function Plus(a: Counters, b: Counters): Counters {
    Counters(
      a.requests + b.requests, a.successes + b.successes, a.latency + b.latency, a.ttft + b.ttft,
      a.ttftCount + b.ttftCount, a.output + b.output, a.generation + b.generation, a.input + b.input,
      a.cacheRead + b.cacheRead, a.cacheWrite + b.cacheWrite, a.attemptSum + b.attemptSum,
      a.attemptCount + b.attemptCount, a.e2eSum + b.e2eSum, a.e2eCount + b.e2eCount,
      Merged(a.attempt, b.attempt), Merged(a.e2e, b.e2e))
  }

  function Positive(n: int): int { if n > 0 then n else 0 }

  function One(slot: nat): Hist
    requires slot < SLOTS
  {
    NONE[slot := 1]
  }

  function When(c: bool, n: int): int { if c then n else 0 }

  function OneWhen(c: bool, slot: nat): Hist
    requires slot < SLOTS
  {
    if c then One(slot) else NONE
  }

  predicate Timed(s: Sample) { s.hasTtft && s.ttft >= 0 }

  predicate Measured(s: Sample) { s.output > 0 && s.generation > 0 }

  predicate Attempted(s: Sample) { s.hasAttempt && s.attempt >= 0 }

  predicate Ended(s: Sample) { s.hasE2e && s.e2e >= 0 }

  /** What one sample adds. */
  function OfSample(s: Sample): Counters {
    Counters(
      1, When(s.success, 1), Positive(s.latency), When(Timed(s), s.ttft), When(Timed(s), 1),
      When(Measured(s), s.output), When(Measured(s), s.generation), Positive(s.input),
      Positive(s.cacheRead), Positive(s.cacheWrite),
      When(Attempted(s), s.attempt), When(Attempted(s), 1), When(Ended(s), s.e2e), When(Ended(s), 1),
      OneWhen(Attempted(s), Slot(s.attempt)), OneWhen(Ended(s), Slot(s.e2e)))
  }

  /** One counter of the record, or one slot of one of its histograms. */
  datatype Field =
    | Requests | Successes | Latency | Ttft | TtftCount | Output | Generation | Input | CacheRead | CacheWrite
    | AttemptSum | AttemptCount | E2eSum | E2eCount
    | AttemptSlot(slot: nat) | E2eSlot(slot: nat)

  function Value(c: Counters, f: Field): int {
    match f
    case Requests => c.requests
    case Successes => c.successes
    case Latency => c.latency
    case Ttft => c.ttft
    case TtftCount => c.ttftCount
    case Output => c.output
    case Generation => c.generation
    case Input => c.input
    case CacheRead => c.cacheRead
    case CacheWrite => c.cacheWrite
    case AttemptSum => c.attemptSum
    case AttemptCount => c.attemptCount
    case E2eSum => c.e2eSum
    case E2eCount => c.e2eCount
    case AttemptSlot(i) => At(c.attempt, i)
    case E2eSlot(i) => At(c.e2e, i)
  }

  /** Merging adds every field. */
  lemma PlusAdds(a: Counters, b: Counters, f: Field)
    ensures Value(Plus(a, b), f) == Value(a, f) + Value(b, f)
  {}

  lemma ZeroIsNothing(f: Field)
    ensures Value(ZERO, f) == 0
  {}

  /** A record without requests holds nothing at all. */
  ghost predicate Whole(c: Counters) {
    c.requests >= 0 && (c.requests == 0 ==> forall f :: Value(c, f) == 0)
  }

  lemma PlusWhole(a: Counters, b: Counters)
    requires Whole(a) && Whole(b)
    ensures Whole(Plus(a, b))
  {
    forall f ensures Value(Plus(a, b), f) == Value(a, f) + Value(b, f) { PlusAdds(a, b, f); }
  }

  lemma ZeroWhole()
    ensures Whole(ZERO)
  {
    forall f ensures Value(ZERO, f) == 0 { ZeroIsNothing(f); }
  }

  /** The fields a model bucket's database row keeps; a channel row keeps all of them. */
  predicate RowField(f: Field) {
    f in {Requests, Successes, Latency, Ttft, TtftCount, Output, Generation, Input, CacheRead, CacheWrite}
  }

  function RowOf(c: Counters): Counters {
    Counters(c.requests, c.successes, c.latency, c.ttft, c.ttftCount, c.output, c.generation, c.input,
             c.cacheRead, c.cacheWrite, 0, 0, 0, 0, NONE, NONE)
  }

  lemma RowKeeps(c: Counters, f: Field)
    ensures Value(RowOf(c), f) == if RowField(f) then Value(c, f) else 0
  {}

  /** The slots of a histogram, each raised by a drained count. */
  method HistogramAdd(target: Hist, values: Hist) returns (r: Hist)
    ensures r == Merged(target, values)
  {
    r := target;
    var i := 0;
    while i < |values|
      invariant 0 <= i <= SLOTS
      invariant forall k :: 0 <= k < SLOTS ==> r[k] == target[k] + if k < i then values[k] else 0
    {
      if values[i] != 0 { r := r[i := r[i] + values[i]]; }
      i := i + 1;
    }
  }

  /** Counting one more sample in a slot. */
  function CountedAt(h: Hist, slot: nat): (r: Hist)
    requires slot < SLOTS
    ensures r == Merged(h, One(slot))
  {
    h[slot := h[slot] + 1]
  }

  class AtomicBucket {
    var requests: int
    var successes: int
    var latency: int
    var ttft: int
    var ttftCount: int
    var output: int
    var generation: int
    var input: int
    var cacheRead: int
    var cacheWrite: int
    var attemptSum: int
    var attemptCount: int
    var e2eSum: int
    var e2eCount: int
    // The histograms are fixed arrays inside the bucket, not references.
    var attempt: Hist
    var e2e: Hist

    function Contents(): Counters
      reads this
    {
      Counters(
        requests, successes, latency, ttft, ttftCount, output, generation, input, cacheRead, cacheWrite,
        attemptSum, attemptCount, e2eSum, e2eCount, attempt, e2e)
    }

    constructor ()
      ensures Contents() == ZERO
    {
      requests, successes, latency, ttft, ttftCount := 0, 0, 0, 0, 0;
      output, generation, input, cacheRead, cacheWrite := 0, 0, 0, 0, 0;
      attemptSum, attemptCount, e2eSum, e2eCount := 0, 0, 0, 0;
      attempt, e2e := NONE, NONE;
    }

    method AddOutcome(sample: Sample)
      modifies `requests, `successes, `latency, `ttft, `ttftCount
      ensures requests == old(requests) + 1 && successes == old(successes) + When(sample.success, 1)
      ensures latency == old(latency) + Positive(sample.latency)
      ensures ttft == old(ttft) + When(Timed(sample), sample.ttft)
        && ttftCount == old(ttftCount) + When(Timed(sample), 1)
    {
      requests := requests + 1;
      if sample.success { successes := successes + 1; }
      if sample.latency > 0 { latency := latency + sample.latency; }
      if sample.hasTtft && sample.ttft >= 0 {
        ttft := ttft + sample.ttft;
        ttftCount := ttftCount + 1;
      }
    }

    method AddTokens(sample: Sample)
      modifies `output, `generation, `input, `cacheRead, `cacheWrite
      ensures output == old(output) + When(Measured(sample), sample.output)
      ensures generation == old(generation) + When(Measured(sample), sample.generation)
      ensures input == old(input) + Positive(sample.input)
      ensures cacheRead == old(cacheRead) + Positive(sample.cacheRead)
      ensures cacheWrite == old(cacheWrite) + Positive(sample.cacheWrite)
    {
      if sample.output > 0 && sample.generation > 0 {
        output := output + sample.output;
        generation := generation + sample.generation;
      }
      if sample.input > 0 { input := input + sample.input; }
      if sample.cacheRead > 0 { cacheRead := cacheRead + sample.cacheRead; }
      if sample.cacheWrite > 0 { cacheWrite := cacheWrite + sample.cacheWrite; }
    }

    method AddFirstTokens(sample: Sample)
      modifies `attemptSum, `attemptCount, `e2eSum, `e2eCount, `attempt, `e2e
      ensures attemptSum == old(attemptSum) + When(Attempted(sample), sample.attempt)
      ensures attemptCount == old(attemptCount) + When(Attempted(sample), 1)
      ensures e2eSum == old(e2eSum) + When(Ended(sample), sample.e2e)
      ensures e2eCount == old(e2eCount) + When(Ended(sample), 1)
      ensures attempt == Merged(old(attempt), OneWhen(Attempted(sample), Slot(sample.attempt)))
      ensures e2e == Merged(old(e2e), OneWhen(Ended(sample), Slot(sample.e2e)))
    {
      MergeNone(attempt);
      MergeNone(e2e);
      if sample.hasAttempt && sample.attempt >= 0 {
        attemptSum := attemptSum + sample.attempt;
        attemptCount := attemptCount + 1;
        attempt := CountedAt(attempt, Slot(sample.attempt));
      }
      if sample.hasE2e && sample.e2e >= 0 {
        e2eSum := e2eSum + sample.e2e;
        e2eCount := e2eCount + 1;
        e2e := CountedAt(e2e, Slot(sample.e2e));
      }
    }

    method Add(sample: Sample)
      modifies this
      ensures Contents() == Plus(old(Contents()), OfSample(sample))
    {
      ghost var was, added := Contents(), OfSample(sample);
      AddOutcome(sample);
      assert requests == was.requests + added.requests && ttft == was.ttft + added.ttft;
      AddTokens(sample);
      assert output == was.output + added.output && cacheWrite == was.cacheWrite + added.cacheWrite;
      AddFirstTokens(sample);
      assert Contents().attempt == Merged(was.attempt, added.attempt);
      assert Contents().e2e == Merged(was.e2e, added.e2e);
      assert Contents() == Plus(was, added);
    }

    method Snapshot() returns (c: Counters)
      ensures c == Contents()
    {
      c := Counters(
        requests, successes, latency, ttft, ttftCount, output, generation, input, cacheRead, cacheWrite,
        attemptSum, attemptCount, e2eSum, e2eCount, attempt, e2e);
    }

    /** Takes everything out, leaving an empty bucket. */
    method Drain() returns (c: Counters)
      modifies this
      ensures c == old(Contents()) && Contents() == ZERO
    {
      c := Counters(
        requests, successes, latency, ttft, ttftCount, output, generation, input, cacheRead, cacheWrite,
        attemptSum, attemptCount, e2eSum, e2eCount, attempt, e2e);
      Clear();
    }

    method Clear()
      modifies this
      ensures requests == successes == latency == ttft == ttftCount == 0
      ensures output == generation == input == cacheRead == cacheWrite == 0
      ensures attemptSum == attemptCount == e2eSum == e2eCount == 0
      ensures attempt == e2e == NONE
    {
      requests, successes, latency, ttft, ttftCount := 0, 0, 0, 0, 0;
      output, generation, input, cacheRead, cacheWrite := 0, 0, 0, 0, 0;
      attemptSum, attemptCount, e2eSum, e2eCount := 0, 0, 0, 0;
      attempt, e2e := NONE, NONE;
    }

    method RestoreOutcome(c: Counters)
      modifies `requests, `successes, `latency, `ttft, `ttftCount
      ensures requests == old(requests) + c.requests && successes == old(successes) + c.successes
      ensures latency == old(latency) + c.latency
      ensures ttft == old(ttft) + c.ttft && ttftCount == old(ttftCount) + c.ttftCount
    {
      if c.requests != 0 { requests := requests + c.requests; }
      if c.successes != 0 { successes := successes + c.successes; }
      if c.latency != 0 { latency := latency + c.latency; }
      if c.ttft != 0 { ttft := ttft + c.ttft; }
      if c.ttftCount != 0 { ttftCount := ttftCount + c.ttftCount; }
    }

    method RestoreTokens(c: Counters)
      modifies `output, `generation, `input, `cacheRead, `cacheWrite
      ensures output == old(output) + c.output && generation == old(generation) + c.generation
      ensures input == old(input) + c.input
      ensures cacheRead == old(cacheRead) + c.cacheRead && cacheWrite == old(cacheWrite) + c.cacheWrite
    {
      if c.output != 0 { output := output + c.output; }
      if c.generation != 0 { generation := generation + c.generation; }
      if c.input != 0 { input := input + c.input; }
      if c.cacheRead != 0 { cacheRead := cacheRead + c.cacheRead; }
      if c.cacheWrite != 0 { cacheWrite := cacheWrite + c.cacheWrite; }
    }

    method RestoreFirstTokens(c: Counters)
      modifies `attemptSum, `attemptCount, `e2eSum, `e2eCount
      ensures attemptSum == old(attemptSum) + c.attemptSum && attemptCount == old(attemptCount) + c.attemptCount
      ensures e2eSum == old(e2eSum) + c.e2eSum && e2eCount == old(e2eCount) + c.e2eCount
    {
      if c.attemptSum != 0 { attemptSum := attemptSum + c.attemptSum; }
      if c.attemptCount != 0 { attemptCount := attemptCount + c.attemptCount; }
      if c.e2eSum != 0 { e2eSum := e2eSum + c.e2eSum; }
      if c.e2eCount != 0 { e2eCount := e2eCount + c.e2eCount; }
    }

    /** Puts drained counters back beside whatever arrived since. */
    method AddCounters(c: Counters)
      modifies this
      ensures Contents() == Plus(old(Contents()), c)
    {
      RestoreOutcome(c);
      RestoreTokens(c);
      RestoreFirstTokens(c);
      attempt := HistogramAdd(attempt, c.attempt);
      e2e := HistogramAdd(e2e, c.e2e);
    }
  }

  lemma MergeNone(h: Hist)
    ensures Merged(h, NONE) == h
  {}
}
