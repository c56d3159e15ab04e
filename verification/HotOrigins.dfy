/** Where recorded totals come from: every sample a run was asked to record is counted, or still on its way, in the
    buckets of its model and group and of its channel, at the start of the width it was recorded in. */
module HotOrigins {
  import opened Division
  import opened Histogram
  import opened MetricCounters
  import opened HotRuns

  /** The greatest multiple of the width at or before a time that is not before the epoch; before it, the least at or
      after. */
  predicate IsStart(start: int, ts: int, w: int) {
    w > 0 && start % w == 0 && if ts >= 0 then start <= ts < start + w else ts <= start < ts + w
  }

  lemma BucketStartIs(ts: int, w: int)
    requires Width(w)
    ensures IsStart(BucketStart(ts, w), ts, w)
  {
    if ts >= 0 { WholeMultiple(ts / w, w); } else { WholeMultiple(-(-ts / w), w); }
  }

  lemma WholeMultiple(k: int, w: int)
    requires Width(w)
    ensures (w * k) % w == 0
  {
    if k >= 0 { WholeNat(k, w); } else { WholeNat(-k, w); }
  }

  lemma {:induction false} WholeNat(k: nat, w: int)
    requires Width(w)
    ensures (w * k) % w == 0
  {
    if k > 0 {
      WholeNat(k - 1, w);
      assert w * k == w * (k - 1) + w;
    }
  }

  lemma StartUnique(a: int, b: int, ts: int, w: int)
    requires w > 0 && IsStart(a, ts, w) && IsStart(b, ts, w)
    ensures a == b
  {
    if a < b { Apart(a, b, w); }
    if b < a { Apart(b, a, w); }
  }

  lemma Apart(a: int, b: int, w: int)
    requires w > 0 && a % w == 0 && b % w == 0 && a < b
    ensures b >= a + w
  {
    var j, k := a / w, b / w;
    if k <= j { HotRuns.MulMonotone(k, j, w); }
    HotRuns.MulMonotone(j + 1, k, w);
  }

  /** The bucket is one the sample belongs to: its model's, under its group or "default", or its channel's. */
  predicate BelongsTo(sample: Sample, of: Identity) {
    sample.model != "" &&
    match of
    case ModelGroup(model, group) =>
      model == sample.model && group == (if sample.group == "" then "default" else sample.group)
    case Channel(id) => id > 0 && id == sample.channel
  }

  /** What a sample adds to one counter. A time or count that is not positive adds nothing, and output counts only
      together with the time it took. */
  function Given(s: Sample, f: Field): int {
    match f
    case Requests => 1
    case Successes => if s.success then 1 else 0
    case Latency => if s.latency > 0 then s.latency else 0
    case Ttft => if s.hasTtft && s.ttft > 0 then s.ttft else 0
    case TtftCount => if s.hasTtft && s.ttft >= 0 then 1 else 0
    case Output => if s.output > 0 && s.generation > 0 then s.output else 0
    case Generation => if s.output > 0 && s.generation > 0 then s.generation else 0
    case Input => if s.input > 0 then s.input else 0
    case CacheRead => if s.cacheRead > 0 then s.cacheRead else 0
    case CacheWrite => if s.cacheWrite > 0 then s.cacheWrite else 0
    case AttemptSum => if s.hasAttempt && s.attempt > 0 then s.attempt else 0
    case AttemptCount => if s.hasAttempt && s.attempt >= 0 then 1 else 0
    case E2eSum => if s.hasE2e && s.e2e > 0 then s.e2e else 0
    case E2eCount => if s.hasE2e && s.e2e >= 0 then 1 else 0
    case AttemptSlot(i) => if s.hasAttempt && s.attempt >= 0 && i == Slot(s.attempt) then 1 else 0
    case E2eSlot(i) => if s.hasE2e && s.e2e >= 0 && i == Slot(s.e2e) then 1 else 0
  }

  lemma SampleGives(s: Sample, f: Field)
    ensures Value(OfSample(s), f) == Given(s, f)
  {
    match f
    case AttemptSlot(i) => OneSlot(Attempted(s), Slot(s.attempt), i);
    case E2eSlot(i) => OneSlot(Ended(s), Slot(s.e2e), i);
    case _ =>
  }

  lemma OneSlot(c: bool, slot: nat, i: nat)
    requires slot < SLOTS
    ensures At(OneWhen(c, slot), i) == if c && i == slot then 1 else 0
  {}

  lemma CleanedGives(s: Sample, f: Field)
    ensures Given(Cleaned(s), f) == Given(s, f)
  {}

  // What a run is asked for.

  /** The sample is asked for at a time that falls into the bucket. */
  predicate AskedFor(s: Sample, now: int, key: Key, w: int) { BelongsTo(s, key.of) && IsStart(key.ts, now, w) }

  /** What the events of a run ask to be recorded in one counter of one bucket. */
  function AskedTotal(now: int, events: seq<Event>, w: int, key: Key, f: Field): int
    decreases |events|
  {
    if events == [] then 0 else
      match events[0]
      case Tick(seconds) => AskedTotal(now + seconds, events[1..], w, key, f)
      case Record(sample) =>
        (if AskedFor(sample, now, key, w) then Given(sample, f) else 0) + AskedTotal(now, events[1..], w, key, f)
      case _ => AskedTotal(now, events[1..], w, key, f)
  }

  /** What samples still on their way will add. */
  function PendingTotal(pending: seq<Pending>, key: Key, f: Field): int {
    if pending == [] then 0 else
      var last := pending[|pending| - 1];
      PendingTotal(pending[..|pending| - 1], key, f) + if last.key == key then Given(last.sample, f) else 0
  }

  function PendingOf(p: Pending, key: Key, f: Field): int { if p.key == key then Given(p.sample, f) else 0 }

  lemma {:induction false} PendingJoins(a: seq<Pending>, b: seq<Pending>, key: Key, f: Field)
    ensures PendingTotal(a + b, key, f) == PendingTotal(a, key, f) + PendingTotal(b, key, f)
    decreases |b|
  {
    if b == [] {
      assert a + b == a;
    } else {
      assert (a + b)[..|a + b| - 1] == a + b[..|b| - 1];
      PendingJoins(a, b[..|b| - 1], key, f);
    }
  }

  lemma PendingAt(pending: seq<Pending>, i: nat, key: Key, f: Field)
    requires i < |pending|
    ensures PendingTotal(pending, key, f) ==
      PendingTotal(pending[..i], key, f) + PendingOf(pending[i], key, f) + PendingTotal(pending[i + 1..], key, f)
  {
    assert pending == pending[..i] + ([pending[i]] + pending[i + 1..]);
    PendingJoins(pending[..i], [pending[i]] + pending[i + 1..], key, f);
    PendingJoins([pending[i]], pending[i + 1..], key, f);
    PendingOne(pending[i], key, f);
  }

  lemma PendingOne(p: Pending, key: Key, f: Field)
    ensures PendingTotal([p], key, f) == PendingOf(p, key, f)
  {
    assert [p][..0] == [];
  }

  lemma PendingReplaced(pending: seq<Pending>, i: nat, p: Pending, key: Key, f: Field)
    requires i < |pending| && p.key == pending[i].key && p.sample == pending[i].sample
    ensures PendingTotal(pending[i := p], key, f) == PendingTotal(pending, key, f)
  {
    PendingAt(pending, i, key, f);
    PendingAt(pending[i := p], i, key, f);
    assert pending[i := p][..i] == pending[..i] && pending[i := p][i + 1..] == pending[i + 1..];
  }

  /** Recorded and on the way. */
  function Known(s: State, key: Key, f: Field): int { Total(s.recorded, key, f) + PendingTotal(s.pending, key, f) }

  lemma StampedPending(s: State, sample: Sample, w: int, key: Key, f: Field)
    requires Width(w)
    ensures var all := Stamped(s, sample, w);
      PendingTotal(all, key, f) == PendingOf(all[0], key, f) + if |all| == 2 then PendingOf(all[1], key, f) else 0
  {
    var all := Stamped(s, sample, w);
    PendingOne(all[0], key, f);
    if |all| == 2 {
      assert all == [all[0]] + [all[1]];
      PendingJoins([all[0]], [all[1]], key, f);
      PendingOne(all[1], key, f);
    } else {
      assert all == [all[0]];
    }
  }

  /** A sample is stamped for exactly the buckets it belongs to, each once. */
  lemma StampedKeys(s: State, sample: Sample, w: int, key: Key)
    requires Width(w) && sample.model != ""
    ensures var all := Stamped(s, sample, w);
      && (forall p :: p in all ==> p.sample == Cleaned(sample))
      && (AskedFor(sample, s.now, key, w) <==> all[0].key == key || (|all| == 2 && all[1].key == key))
      && (|all| == 2 ==> all[0].key != all[1].key)
  {
    BucketStartIs(s.now, w);
    if IsStart(key.ts, s.now, w) { StartUnique(key.ts, BucketStart(s.now, w), s.now, w); }
  }

  lemma StampedIs(s: State, sample: Sample, w: int, key: Key, f: Field)
    requires Width(w) && sample.model != ""
    ensures PendingTotal(Stamped(s, sample, w), key, f) ==
      if AskedFor(sample, s.now, key, w) then Given(sample, f) else 0
  {
    StampedKeys(s, sample, w, key);
    StampedPending(s, sample, w, key, f);
    CleanedGives(sample, f);
  }

  lemma AddKnows(s: State, i: nat, key: Key, f: Field)
    requires CanAdd(s, i)
    ensures Known(Added(s, i), key, f) == Known(s, key, f)
  {
    var p := s.pending[i];
    var t := Added(s, i);
    assert t.recorded[..|t.recorded| - 1] == s.recorded;
    SampleGives(p.sample, f);
    PendingAt(s.pending, i, key, f);
    PendingJoins(s.pending[..i], s.pending[i + 1..], key, f);
  }

  lemma StepKnows(s: State, e: Event, w: int, key: Key, f: Field)
    requires Width(w)
    ensures Known(Step(s, e, w), key, f) == Known(s, key, f) + AskedTotal(s.now, [e], w, key, f)
  {
    assert [e][1..] == [];
    match e
    case Record(sample) =>
      if sample.model != "" {
        StampedIs(s, sample, w, key, f);
        PendingJoins(s.pending, Stamped(s, sample, w), key, f);
      }
    case Load(i) =>
      if CanLoad(s, i) { LoadKnows(s, i, key, f); }
    case Add(i) =>
      if CanAdd(s, i) { AddKnows(s, i, key, f); }
    case _ =>
  }

  lemma LoadKnows(s: State, i: nat, key: Key, f: Field)
    requires CanLoad(s, i)
    ensures Known(Loaded(s, i), key, f) == Known(s, key, f)
  {
    PendingReplaced(s.pending, i, Loaded(s, i).pending[i], key, f);
    assert Loaded(s, i).pending == s.pending[i := Loaded(s, i).pending[i]];
  }

  lemma AskedFirst(now: int, events: seq<Event>, w: int, key: Key, f: Field)
    requires events != []
    ensures AskedTotal(now, events, w, key, f) == AskedTotal(now, [events[0]], w, key, f) +
      AskedTotal(if events[0].Tick? then now + events[0].seconds else now, events[1..], w, key, f)
  {
    assert [events[0]][1..] == [];
  }

  lemma {:induction false} RunKnows(s: State, events: seq<Event>, w: int, key: Key, f: Field)
    requires Width(w)
    ensures Known(Run(s, events, w), key, f) == Known(s, key, f) + AskedTotal(s.now, events, w, key, f)
    decreases |events|
  {
    if events != [] {
      StepKnows(s, events[0], w, key, f);
      RunKnows(Step(s, events[0], w), events[1..], w, key, f);
      AskedFirst(s.now, events, w, key, f);
      ClockMoves(s, events[0], w);
    }
  }

  lemma ClockMoves(s: State, e: Event, w: int)
    requires Width(w)
    ensures Step(s, e, w).now == if e.Tick? then s.now + e.seconds else s.now
  {}

  /** In every run, recorded or on its way is exactly what the run was asked to record. */
  lemma RecordedIsAsked(now: int, events: seq<Event>, w: int, key: Key, f: Field)
    requires Width(w)
    ensures Known(Run(Start(now), events, w), key, f) == AskedTotal(now, events, w, key, f)
  {
    RunKnows(Start(now), events, w, key, f);
  }

  /** When all adds and deletions land, what was asked for is hot, in flight, in the rows or on its way. */
  lemma AskedIsKept(now: int, events: seq<Event>, w: int, key: Key, f: Field)
    requires Width(w) && AllLand(Start(now), events, w) && Persisted(key, f)
    ensures var s := Run(Start(now), events, w);
      Value(HotAt(s, key), f) + Value(FlightAt(s, key), f) + Value(RowAt(s.stored, key), f)
        + PendingTotal(s.pending, key, f) == AskedTotal(now, events, w, key, f)
  {
    ConservedExactly(now, events, w);
    StartConserves(now);
    EndConserved(Start(now), events, w);
    RecordedIsAsked(now, events, w, key, f);
    assert Conserved(Run(Start(now), events, w), key, f);
  }

  /** A flush takes only a bucket whose time is over. */
  lemma DrainedIsOver(s: State, key: Key, w: int, at: int)
    requires Width(w) && Step(s, Drain(key), w) != s && at >= 0 && key.ts == BucketStart(at, w)
    ensures s.now >= key.ts + w
  {
    BucketStartIs(at, w);
    BucketStartIs(s.now, w);
    Apart(key.ts, BucketStart(s.now, w), w);
  }
}
