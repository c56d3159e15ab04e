/** Recording, flushing and deleting hot metric buckets, interleaved at every shared access. */
module HotRuns {
  import opened Division
  import opened Histogram
  import opened MetricCounters

  /** The two bucket maps: by model and group, and by channel. */
  datatype Identity = ModelGroup(model: string, group: string) | Channel(id: int)

  datatype Key = Key(of: Identity, ts: int)

  /** A sample on its way into one map: stamped at a time, then holding a bucket object. */
  datatype Pending = Pending(key: Key, sample: Sample, at: int, bucket: Held)

  datatype Held = Unloaded | Bucket(obj: nat)

  /** Where the flush of one bucket stands. */
  datatype Flight =
    | Resting
    | Drained(key: Key, obj: nat, value: Counters, since: int)
    | Written(key: Key, since: int)

  datatype Entry = Entry(key: Key, sample: Sample)

  /** `recorded` is history: every sample added so far. */
  datatype State = State(
    now: int,
    hot: map<Key, nat>,
    objects: seq<Counters>,
    pending: seq<Pending>,
    flight: Flight,
    stored: map<Key, Counters>,
    recorded: seq<Entry>)

  datatype Event =
    | Tick(seconds: nat)
    | Record(sample: Sample)
    | Load(i: nat)
    | Add(i: nat)
    | Drain(key: Key)
    | Write(ok: bool)
    | DeleteOld

  const DAY := 86400

  predicate Width(w: int) { w == 60 || w == 300 || w == 3600 }

  /** The start of a time's bucket; the remainder has the sign of the time. */
  function BucketStart(ts: int, w: int): int
    requires Width(w)
  {
    if ts >= 0 then ts - ts % w else ts + (-ts) % w
  }

  function Floor(x: nat, w: int): nat
    requires w > 0
  {
    w * (x / w)
  }

  lemma FloorIs(x: nat, w: int)
    requires w > 0
    ensures Floor(x, w) == x - x % w
  {}

  lemma FloorMonotone(a: nat, b: nat, w: int)
    requires w > 0 && a <= b
    ensures Floor(a, w) <= Floor(b, w)
  {
    assert a / w * w <= a;
    AtLeast(b, a / w, w);
    MulMonotone(a / w, b / w, w);
  }

  lemma MulMonotone(a: int, b: int, w: int)
    requires w > 0 && a <= b
    ensures w * a <= w * b
  {}

  lemma BucketStartMonotone(a: int, b: int, w: int)
    requires Width(w) && a <= b
    ensures BucketStart(a, w) <= BucketStart(b, w)
  {
    if a >= 0 {
      FloorIs(a, w);
      FloorIs(b, w);
      FloorMonotone(a, b, w);
    } else {
      FloorIs(-a, w);
      if b >= 0 {
        FloorIs(b, w);
      } else {
        FloorIs(-b, w);
        FloorMonotone(-b, -a, w);
      }
    }
  }

  /** Record's own clean-up of a sample. */
  function Cleaned(s: Sample): Sample {
    s.(group := if s.group == "" then "default" else s.group, latency := MetricCounters.Positive(s.latency))
  }

  function Stamped(s: State, sample: Sample, w: int): seq<Pending>
    requires Width(w)
  {
    var ts := BucketStart(s.now, w);
    var c := Cleaned(sample);
    [Pending(Key(ModelGroup(c.model, c.group), ts), c, s.now, Unloaded)] +
    if c.channel > 0 then [Pending(Key(Channel(c.channel), ts), c, s.now, Unloaded)] else []
  }

  /** What an upsert leaves in a row: a model row keeps only part of the record. */
  function RowPart(key: Key, c: Counters): Counters { if key.of.Channel? then c else RowOf(c) }

  function RowAt(stored: map<Key, Counters>, key: Key): Counters { if key in stored then stored[key] else ZERO }

  function Loaded(s: State, i: nat): State
    requires i < |s.pending|
  {
    var p := s.pending[i];
    if p.key in s.hot then s.(pending := s.pending[i := p.(bucket := Bucket(s.hot[p.key]))])
    else s.(hot := s.hot[p.key := |s.objects|], objects := s.objects + [ZERO],
            pending := s.pending[i := p.(bucket := Bucket(|s.objects|))])
  }

  function Added(s: State, i: nat): State
    requires i < |s.pending| && s.pending[i].bucket.Bucket? && s.pending[i].bucket.obj < |s.objects|
  {
    var p := s.pending[i];
    var c := s.objects[p.bucket.obj];
    s.(objects := s.objects[p.bucket.obj := Plus(c, OfSample(p.sample))],
       pending := s.pending[..i] + s.pending[i + 1..],
       recorded := s.recorded + [Entry(p.key, p.sample)])
  }

  function Taken(s: State, key: Key): State
    requires key in s.hot && s.hot[key] < |s.objects|
  {
    var obj := s.hot[key];
    s.(objects := s.objects[obj := ZERO], flight := Drained(key, obj, s.objects[obj], s.now))
  }

  function Finished(s: State, ok: bool): State
    requires s.flight.Drained? && s.flight.obj < |s.objects|
  {
    var f := s.flight;
    if f.value.requests == 0 then s.(flight := Written(f.key, f.since))
    else if ok then
      s.(stored := s.stored[f.key := Plus(RowAt(s.stored, f.key), RowPart(f.key, f.value))],
         flight := Written(f.key, f.since))
    else s.(objects := s.objects[f.obj := Plus(s.objects[f.obj], f.value)], flight := Resting)
  }

  predicate Deletable(s: State, key: Key, w: int)
    requires Width(w)
  {
    key.ts < BucketStart(s.now - DAY, w)
  }

  function Step(s: State, e: Event, w: int): State
    requires Width(w)
  {
    match e
    case Tick(seconds) => s.(now := s.now + seconds)
    case Record(sample) => if sample.model == "" then s else s.(pending := s.pending + Stamped(s, sample, w))
    case Load(i) => if i < |s.pending| && s.pending[i].bucket.Unloaded? then Loaded(s, i) else s
    case Add(i) =>
      if i < |s.pending| && s.pending[i].bucket.Bucket? && s.pending[i].bucket.obj < |s.objects| then Added(s, i) else s
    case Drain(key) =>
      if s.flight.Resting? && key in s.hot && s.hot[key] < |s.objects| && key.ts < BucketStart(s.now, w)
      then Taken(s, key) else s
    case Write(ok) => if s.flight.Drained? && s.flight.obj < |s.objects| then Finished(s, ok) else s
    case DeleteOld =>
      if !s.flight.Written? then s
      else if Deletable(s, s.flight.key, w) then s.(hot := s.hot - {s.flight.key}, flight := Resting)
      else s.(flight := Resting)
  }

  function Run(s: State, events: seq<Event>, w: int): State
    requires Width(w)
    decreases |events|
  {
    if events == [] then s else Run(Step(s, events[0], w), events[1..], w)
  }

  /** An add follows its stamp, and a bucket's deletion its drain, closely enough that the two delays
      together stay within a day: `slack` bounds the second. */
  predicate Timely(s: State, e: Event, slack: nat) {
    match e
    case Add(i) => i < |s.pending| ==> s.now < s.pending[i].at + DAY - slack
    case DeleteOld => s.flight.Written? ==> s.now <= s.flight.since + slack
    case _ => true
  }

  predicate TimelyRun(s: State, events: seq<Event>, w: int, slack: nat)
    requires Width(w)
    decreases |events|
  {
    events != [] ==> Timely(s, events[0], slack) && TimelyRun(Step(s, events[0], w), events[1..], w, slack)
  }

  // Conservation.

  /** The recorded total of one field for one bucket. */
  function Total(recorded: seq<Entry>, key: Key, f: Field): int {
    if recorded == [] then 0 else
      var last := recorded[|recorded| - 1];
      Total(recorded[..|recorded| - 1], key, f) + if last.key == key then Value(OfSample(last.sample), f) else 0
  }

  function HotAt(s: State, key: Key): Counters {
    if key in s.hot && s.hot[key] < |s.objects| then s.objects[s.hot[key]] else ZERO
  }

  function FlightAt(s: State, key: Key): Counters {
    if s.flight.Drained? && s.flight.key == key then s.flight.value else ZERO
  }

  /** The fields a row of this bucket keeps. */
  predicate Persisted(key: Key, f: Field) { key.of.Channel? || RowField(f) }

  /** Hot, in flight and persisted make up what was recorded. */
  ghost predicate Conserved(s: State, key: Key, f: Field) {
    Value(HotAt(s, key), f) + Value(FlightAt(s, key), f) + Value(RowAt(s.stored, key), f) == Total(s.recorded, key, f)
  }

  ghost predicate AllConserved(s: State) {
    forall key, f :: Persisted(key, f) ==> Conserved(s, key, f)
  }

  ghost predicate Injective(hot: map<Key, nat>) {
    forall j, k :: j in hot && k in hot && hot[j] == hot[k] ==> j == k
  }

  ghost predicate InRange(s: State) { forall k :: k in s.hot ==> s.hot[k] < |s.objects| }

  ghost predicate AllWhole(s: State) {
    && (forall i :: 0 <= i < |s.objects| ==> Whole(s.objects[i]))
    && (s.flight.Drained? ==> Whole(s.flight.value))
    && (forall k :: k in s.stored ==> Whole(s.stored[k]))
  }

  /** A bucket object in a sample's hands is mapped by no key but the sample's own. */
  ghost predicate HeldOk(s: State, p: Pending) {
    p.bucket.Bucket? ==> p.bucket.obj < |s.objects| && forall k :: k in s.hot && s.hot[k] == p.bucket.obj ==> k == p.key
  }

  /** The bucket a flush is working on is still the mapped one. */
  ghost predicate FlightHeld(s: State) {
    match s.flight
    case Resting => true
    case Drained(key, obj, _, _) => key in s.hot && s.hot[key] == obj
    case Written(key, _) => key in s.hot
  }

  /** What every step keeps, in time or not. */
  ghost predicate Based(s: State) {
    && Injective(s.hot) && InRange(s) && AllWhole(s)
    && (forall p :: p in s.pending ==> HeldOk(s, p))
    && FlightHeld(s)
  }

  /** A pending sample that may still be added holds the bucket its key maps to. */
  ghost predicate PendingOk(s: State, p: Pending, w: int, slack: nat)
    requires Width(w)
  {
    && p.at <= s.now && p.key.ts == BucketStart(p.at, w)
    && (p.bucket.Bucket? && s.now < p.at + DAY - slack ==> p.key in s.hot && s.hot[p.key] == p.bucket.obj)
  }

  /** A drained bucket is empty, or too young to be deleted within the slack. */
  ghost predicate FlightOk(s: State, w: int, slack: nat)
    requires Width(w)
  {
    !s.flight.Resting? ==>
      && s.flight.since <= s.now
      && (HotAt(s, s.flight.key) == ZERO || s.flight.key.ts >= BucketStart(s.flight.since + slack - DAY, w))
  }

  ghost predicate Sound(s: State, w: int, slack: nat)
    requires Width(w)
  {
    && Based(s)
    && (forall p :: p in s.pending ==> PendingOk(s, p, w, slack))
    && FlightOk(s, w, slack)
  }

  lemma OfSampleWhole(sample: Sample)
    ensures Whole(OfSample(sample))
  {}

  /** An add that has a bucket to go to. */
  predicate CanAdd(s: State, i: nat) {
    i < |s.pending| && s.pending[i].bucket.Bucket? && s.pending[i].bucket.obj < |s.objects|
  }

  predicate CanLoad(s: State, i: nat) { i < |s.pending| && s.pending[i].bucket.Unloaded? }

  predicate CanDrain(s: State, key: Key) { s.flight.Resting? && key in s.hot && s.hot[key] < |s.objects| }

  // The base invariant.

  lemma RecordBased(s: State, sample: Sample, w: int)
    requires Width(w) && Based(s)
    ensures Based(Step(s, Record(sample), w))
  {
    var t := Step(s, Record(sample), w);
    forall p | p in t.pending ensures HeldOk(t, p) { if p in s.pending { assert HeldOk(s, p); } }
  }

  lemma LoadBased(s: State, i: nat)
    requires Based(s) && CanLoad(s, i)
    ensures Based(Loaded(s, i))
  {
    var t := Loaded(s, i);
    forall p | p in t.pending ensures HeldOk(t, p) { if p in s.pending { assert HeldOk(s, p); } }
    ZeroWhole();
  }

  lemma AddBased(s: State, i: nat)
    requires Based(s) && CanAdd(s, i)
    ensures Based(Added(s, i))
  {
    var t, p := Added(s, i), s.pending[i];
    forall q | q in t.pending ensures HeldOk(t, q) { assert q in s.pending && HeldOk(s, q); }
    OfSampleWhole(p.sample);
    PlusWhole(s.objects[p.bucket.obj], OfSample(p.sample));
  }

  lemma DrainBased(s: State, key: Key)
    requires Based(s) && CanDrain(s, key)
    ensures Based(Taken(s, key))
  {
    var t := Taken(s, key);
    forall p | p in t.pending ensures HeldOk(t, p) { assert HeldOk(s, p); }
    ZeroWhole();
  }

  lemma RowPartWhole(key: Key, c: Counters)
    requires Whole(c)
    ensures Whole(RowPart(key, c))
  {
    forall f ensures Value(RowOf(c), f) == if RowField(f) then Value(c, f) else 0 { RowKeeps(c, f); }
  }

  lemma WriteBased(s: State, ok: bool)
    requires Based(s) && s.flight.Drained? && s.flight.obj < |s.objects|
    ensures Based(Finished(s, ok))
  {
    var t := Finished(s, ok);
    forall p | p in t.pending ensures HeldOk(t, p) { assert HeldOk(s, p); }
    PlusWhole(s.objects[s.flight.obj], s.flight.value);
    ZeroWhole();
    RowPartWhole(s.flight.key, s.flight.value);
    PlusWhole(RowAt(s.stored, s.flight.key), RowPart(s.flight.key, s.flight.value));
  }

  lemma OtherBased(s: State, e: Event, w: int)
    requires Width(w) && Based(s) && (e.Tick? || e.DeleteOld?)
    ensures Based(Step(s, e, w))
  {
    var t := Step(s, e, w);
    forall p | p in t.pending ensures HeldOk(t, p) { assert HeldOk(s, p); }
  }

  lemma StepBased(s: State, e: Event, w: int)
    requires Width(w) && Based(s)
    ensures Based(Step(s, e, w))
  {
    match e
    case Tick(_) => OtherBased(s, e, w);
    case Record(sample) => RecordBased(s, sample, w);
    case Load(i) => if CanLoad(s, i) { LoadBased(s, i); }
    case Add(i) => if CanAdd(s, i) { AddBased(s, i); }
    case Drain(key) => if CanDrain(s, key) { DrainBased(s, key); }
    case Write(ok) => if s.flight.Drained? && s.flight.obj < |s.objects| { WriteBased(s, ok); }
    case DeleteOld => OtherBased(s, e, w);
  }

  lemma TotalGrows(recorded: seq<Entry>, e: Entry, key: Key, f: Field)
    ensures Total(recorded + [e], key, f) == Total(recorded, key, f) + if e.key ==
      key then Value(OfSample(e.sample), f) else 0
  {
    assert (recorded + [e])[..|recorded|] == recorded;
  }

  /** Where a step could lose counts: an add into an object the map no longer holds for its key, and the
      deletion of a bucket that has taken samples since its drain. */
  predicate Lands(s: State, e: Event, w: int)
    requires Width(w)
  {
    match e
    case Add(i) => CanAdd(s, i) ==> s.pending[i].key in s.hot && s.hot[s.pending[i].key] == s.pending[i].bucket.obj
    case DeleteOld => s.flight.Written? && Deletable(s, s.flight.key, w) ==> HotAt(s, s.flight.key).requests == 0
    case _ => true
  }

  predicate AllLand(s: State, events: seq<Event>, w: int)
    requires Width(w)
    decreases |events|
  {
    events == [] || (Lands(s, events[0], w) && AllLand(Step(s, events[0], w), events[1..], w))
  }

  /** Nothing is missing and nothing is counted twice at any point of the run. */
  ghost predicate AlwaysConserved(s: State, events: seq<Event>, w: int)
    requires Width(w)
    decreases |events|
  {
    AllConserved(s) && (events == [] || AlwaysConserved(Step(s, events[0], w), events[1..], w))
  }

  lemma AddConserves(s: State, i: nat, key: Key, f: Field)
    requires Based(s) && Conserved(s, key, f) && CanAdd(s, i)
    requires s.pending[i].key in s.hot && s.hot[s.pending[i].key] == s.pending[i].bucket.obj
    ensures Conserved(Added(s, i), key, f)
  {
    var p := s.pending[i];
    TotalGrows(s.recorded, Entry(p.key, p.sample), key, f);
    PlusAdds(s.objects[p.bucket.obj], OfSample(p.sample), f);
  }

  /** An add that misses the map is counted nowhere. */
  lemma MissedAdd(s: State, i: nat)
    requires Based(s) && AllConserved(s) && CanAdd(s, i)
    requires !(s.pending[i].key in s.hot && s.hot[s.pending[i].key] == s.pending[i].bucket.obj)
    ensures !AllConserved(Added(s, i))
  {
    var p, t := s.pending[i], Added(s, i);
    assert HeldOk(s, p);
    assert HotAt(t, p.key) == HotAt(s, p.key);
    TotalGrows(s.recorded, Entry(p.key, p.sample), p.key, Requests);
    assert Conserved(s, p.key, Requests) && !Conserved(t, p.key, Requests);
  }

  lemma DrainConserves(s: State, drained: Key, key: Key, f: Field)
    requires Based(s) && Conserved(s, key, f) && CanDrain(s, drained)
    ensures Conserved(Taken(s, drained), key, f)
  {
    ZeroIsNothing(f);
  }

  lemma RestoreConserves(s: State, key: Key, f: Field)
    requires Based(s) && Conserved(s, key, f) && s.flight.Drained? && s.flight.obj < |s.objects|
      && s.flight.value.requests != 0
    ensures Conserved(Finished(s, false), key, f)
  {
    ZeroIsNothing(f);
    PlusAdds(s.objects[s.flight.obj], s.flight.value, f);
  }

  lemma UpsertConserves(s: State, key: Key, f: Field)
    requires Based(s) && Conserved(s, key, f) && Persisted(key, f) && s.flight.Drained? && s.flight.obj < |s.objects|
    ensures Conserved(Finished(s, true), key, f)
  {
    var fl := s.flight;
    ZeroIsNothing(f);
    PlusAdds(RowAt(s.stored, fl.key), RowPart(fl.key, fl.value), f);
    RowKeeps(fl.value, f);
  }

  lemma WriteConserves(s: State, ok: bool, key: Key, f: Field)
    requires Based(s) && Conserved(s, key, f) && Persisted(key, f)
    requires s.flight.Drained? && s.flight.obj < |s.objects|
    ensures Conserved(Finished(s, ok), key, f)
  {
    if ok || s.flight.value.requests == 0 { UpsertConserves(s, key, f); } else { RestoreConserves(s, key, f); }
  }

  lemma LoadConserves(s: State, i: nat, key: Key, f: Field)
    requires Based(s) && Conserved(s, key, f) && CanLoad(s, i)
    ensures Conserved(Loaded(s, i), key, f)
  {
    ZeroIsNothing(f);
  }

  lemma OtherConserves(s: State, e: Event, w: int, key: Key, f: Field)
    requires Width(w) && Based(s) && Conserved(s, key, f) && Persisted(key, f) && !e.Add? && !e.DeleteOld?
    ensures Conserved(Step(s, e, w), key, f)
  {
    match e
    case Tick(_) =>
    case Record(_) =>
    case Load(i) => if CanLoad(s, i) { LoadConserves(s, i, key, f); }
    case Drain(drained) => if CanDrain(s, drained) { DrainConserves(s, drained, key, f); }
    case Write(ok) => if s.flight.Drained? && s.flight.obj < |s.objects| { WriteConserves(s, ok, key, f); }
  }

  lemma AddExactly(s: State, i: nat, w: int)
    requires Width(w) && Based(s) && AllConserved(s)
    ensures AllConserved(Step(s, Add(i), w)) <==> Lands(s, Add(i), w)
  {
    if CanAdd(s, i) {
      if Lands(s, Add(i), w) {
        forall key, f | Persisted(key, f) ensures Conserved(Added(s, i), key, f) { AddConserves(s, i, key, f); }
      } else {
        MissedAdd(s, i);
      }
    }
  }

  /** Deleting a flushed bucket keeps every count exactly when the bucket is not old or took no sample
      since its drain. */
  lemma DeleteKeepsExactly(s: State, w: int)
    requires Width(w) && InRange(s) && AllWhole(s) && AllConserved(s)
    requires s.flight.Written? && s.flight.key in s.hot
    ensures AllConserved(Step(s, DeleteOld, w)) <==>
            !Deletable(s, s.flight.key, w) || HotAt(s, s.flight.key).requests == 0
  {
    var t, k := Step(s, DeleteOld, w), s.flight.key;
    if Deletable(s, k, w) {
      if HotAt(s, k).requests == 0 {
        forall key, f | Persisted(key, f) ensures Conserved(t, key, f) {
          assert Conserved(s, key, f);
          ZeroIsNothing(f);
        }
      } else {
        assert Conserved(s, k, Requests);
        ZeroIsNothing(Requests);
        assert !Conserved(t, k, Requests);
      }
    } else {
      forall key, f | Persisted(key, f) ensures Conserved(t, key, f) { assert Conserved(s, key, f); }
    }
  }

  /** A step conserves every count exactly when it lands. */
  lemma StepConservesExactly(s: State, e: Event, w: int)
    requires Width(w) && Based(s) && AllConserved(s)
    ensures AllConserved(Step(s, e, w)) <==> Lands(s, e, w)
  {
    if e.Add? {
      AddExactly(s, e.i, w);
    } else if e.DeleteOld? {
      if s.flight.Written? { DeleteKeepsExactly(s, w); }
    } else {
      forall key, f | Persisted(key, f) ensures Conserved(Step(s, e, w), key, f) { OtherConserves(s, e, w, key, f); }
    }
  }

  lemma {:induction false} RunConservesExactly(s: State, events: seq<Event>, w: int)
    requires Width(w) && Based(s) && AllConserved(s)
    ensures AlwaysConserved(s, events, w) <==> AllLand(s, events, w)
    decreases |events|
  {
    if events != [] {
      StepBased(s, events[0], w);
      StepConservesExactly(s, events[0], w);
      if Lands(s, events[0], w) { RunConservesExactly(Step(s, events[0], w), events[1..], w); }
    }
  }

  function Start(now: int): State { State(now, map[], [], [], Resting, map[], []) }

  lemma StartConserves(now: int)
    ensures Based(Start(now)) && AllConserved(Start(now))
  {
    forall key, f ensures Conserved(Start(now), key, f) { ZeroIsNothing(f); }
  }

  /** For every run, however steps interleave and upserts fail: hot, in-flight and persisted counters add up
      to the recorded samples at every point of it, for every field a row keeps, exactly when every add
      finds its bucket still mapped and no bucket is deleted that took a sample since its drain. */
  lemma ConservedExactly(now: int, events: seq<Event>, w: int)
    requires Width(w)
    ensures AlwaysConserved(Start(now), events, w) <==> AllLand(Start(now), events, w)
  {
    StartConserves(now);
    RunConservesExactly(Start(now), events, w);
  }

  // Timing under which every step lands.

  lemma TickSound(s: State, seconds: nat, w: int, slack: nat)
    requires Width(w) && Sound(s, w, slack)
    ensures Sound(Step(s, Tick(seconds), w), w, slack)
  {
    var t := Step(s, Tick(seconds), w);
    StepBased(s, Tick(seconds), w);
    forall p | p in t.pending ensures PendingOk(t, p, w, slack) { assert PendingOk(s, p, w, slack); }
  }

  lemma StampedNow(s: State, sample: Sample, w: int)
    requires Width(w)
    ensures forall p :: p in Stamped(s, sample, w) ==>
      p.at == s.now && p.key.ts == BucketStart(s.now, w) && p.bucket == Unloaded
  {}

  lemma RecordSound(s: State, sample: Sample, w: int, slack: nat)
    requires Width(w) && Sound(s, w, slack)
    ensures Sound(Step(s, Record(sample), w), w, slack)
  {
    if sample.model != "" {
      var stamped := Stamped(s, sample, w);
      var t := s.(pending := s.pending + stamped);
      RecordBased(s, sample, w);
      StampedNow(s, sample, w);
      forall p | p in t.pending ensures PendingOk(t, p, w, slack) {
        if p in s.pending { assert PendingOk(s, p, w, slack); } else { assert p in stamped; }
      }
    }
  }

  lemma LoadSound(s: State, i: nat, w: int, slack: nat)
    requires Width(w) && Sound(s, w, slack) && CanLoad(s, i)
    ensures Sound(Loaded(s, i), w, slack)
  {
    var t := Loaded(s, i);
    LoadBased(s, i);
    assert PendingOk(s, s.pending[i], w, slack);
    forall p | p in t.pending ensures PendingOk(t, p, w, slack) {
      if p in s.pending { assert PendingOk(s, p, w, slack); }
    }
  }

  /** A sample added in time belongs to a bucket no delete within the slack may take. */
  lemma YoungEnough(s: State, p: Pending, since: int, w: int, slack: nat)
    requires Width(w) && PendingOk(s, p, w, slack) && s.now < p.at + DAY - slack && since <= s.now
    ensures p.key.ts >= BucketStart(since + slack - DAY, w)
  {
    BucketStartMonotone(since + slack - DAY, p.at, w);
  }

  lemma AddPending(s: State, i: nat, w: int, slack: nat)
    requires Width(w) && Sound(s, w, slack) && CanAdd(s, i)
    ensures forall p :: p in Added(s, i).pending ==> PendingOk(Added(s, i), p, w, slack)
  {
    var t := Added(s, i);
    forall p | p in t.pending ensures PendingOk(t, p, w, slack) {
      assert p in s.pending;
      assert PendingOk(s, p, w, slack);
    }
  }

  lemma AddSound(s: State, i: nat, w: int, slack: nat)
    requires Width(w) && Sound(s, w, slack) && Timely(s, Add(i), slack) && CanAdd(s, i)
    ensures Sound(Added(s, i), w, slack)
  {
    AddBased(s, i);
    AddPending(s, i, w, slack);
    var p := s.pending[i];
    assert PendingOk(s, p, w, slack);
    if !s.flight.Resting? && s.flight.key == p.key { YoungEnough(s, p, s.flight.since, w, slack); }
  }

  lemma DrainSound(s: State, key: Key, w: int, slack: nat)
    requires Width(w) && Sound(s, w, slack) && CanDrain(s, key)
    ensures Sound(Taken(s, key), w, slack)
  {
    var t := Taken(s, key);
    DrainBased(s, key);
    forall p | p in t.pending ensures PendingOk(t, p, w, slack) { assert PendingOk(s, p, w, slack); }
  }

  lemma WriteSound(s: State, ok: bool, w: int, slack: nat)
    requires Width(w) && Sound(s, w, slack) && s.flight.Drained? && s.flight.obj < |s.objects|
    ensures Sound(Finished(s, ok), w, slack)
  {
    var t := Finished(s, ok);
    WriteBased(s, ok);
    forall p | p in t.pending ensures PendingOk(t, p, w, slack) { assert PendingOk(s, p, w, slack); }
  }

  lemma DeleteSound(s: State, w: int, slack: nat)
    requires Width(w) && Sound(s, w, slack)
    ensures Sound(Step(s, DeleteOld, w), w, slack)
  {
    var t := Step(s, DeleteOld, w);
    OtherBased(s, DeleteOld, w);
    forall p | p in t.pending ensures PendingOk(t, p, w, slack) {
      assert PendingOk(s, p, w, slack);
      if s.now < p.at + DAY - slack { BucketStartMonotone(s.now - DAY, p.at, w); }
    }
  }

  lemma StepSound(s: State, e: Event, w: int, slack: nat)
    requires Width(w) && Sound(s, w, slack) && Timely(s, e, slack)
    ensures Sound(Step(s, e, w), w, slack)
  {
    match e
    case Tick(seconds) => TickSound(s, seconds, w, slack);
    case Record(sample) => RecordSound(s, sample, w, slack);
    case Load(i) => if CanLoad(s, i) { LoadSound(s, i, w, slack); }
    case Add(i) => if CanAdd(s, i) { AddSound(s, i, w, slack); }
    case Drain(key) => if CanDrain(s, key) { DrainSound(s, key, w, slack); }
    case Write(ok) => if s.flight.Drained? && s.flight.obj < |s.objects| { WriteSound(s, ok, w, slack); }
    case DeleteOld => DeleteSound(s, w, slack);
  }

  lemma YoungIsKept(s: State, w: int, slack: nat)
    requires Width(w) && FlightOk(s, w, slack) && s.flight.Written? && s.now <= s.flight.since + slack
    ensures Deletable(s, s.flight.key, w) ==> HotAt(s, s.flight.key).requests == 0
  {
    BucketStartMonotone(s.now - DAY, s.flight.since + slack - DAY, w);
  }

  /** A timely step lands. */
  lemma TimelyLands(s: State, e: Event, w: int, slack: nat)
    requires Width(w) && Sound(s, w, slack) && Timely(s, e, slack)
    ensures Lands(s, e, w)
  {
    match e
    case Add(i) => if CanAdd(s, i) { assert PendingOk(s, s.pending[i], w, slack); }
    case DeleteOld => if s.flight.Written? { YoungIsKept(s, w, slack); }
    case _ =>
  }

  lemma {:induction false} TimelyRunLands(s: State, events: seq<Event>, w: int, slack: nat)
    requires Width(w) && Sound(s, w, slack) && TimelyRun(s, events, w, slack)
    ensures AllLand(s, events, w)
    decreases |events|
  {
    if events != [] {
      StepSound(s, events[0], w, slack);
      TimelyLands(s, events[0], w, slack);
      TimelyRunLands(Step(s, events[0], w), events[1..], w, slack);
    }
  }

  /** With the delay of an add and the gap between drain and delete together within a day, nothing is lost. */
  lemma NothingIsLost(now: int, events: seq<Event>, w: int, slack: nat)
    requires Width(w) && TimelyRun(Start(now), events, w, slack)
    ensures AlwaysConserved(Start(now), events, w)
  {
    StartConserves(now);
    TimelyRunLands(Start(now), events, w, slack);
    ConservedExactly(now, events, w);
  }

  /** The end of a conserved run. */
  lemma {:induction false} EndConserved(s: State, events: seq<Event>, w: int)
    requires Width(w) && Based(s) && AlwaysConserved(s, events, w)
    ensures Based(Run(s, events, w)) && AllConserved(Run(s, events, w))
    decreases |events|
  {
    if events != [] {
      StepBased(s, events[0], w);
      EndConserved(Step(s, events[0], w), events[1..], w);
    }
  }

  /** A flush that drains, waits, and deletes in a later bucket. */
  function SlowFlush(sample: Sample): State {
    Resumed(Waiting(sample))
  }

  function Waiting(sample: Sample): State {
    var recorded := Step(Step(Start(59), Record(sample), 60), Load(0), 60);
    Step(Step(recorded, Tick(86341), 60), Drain(KeyOf(sample)), 60)
  }

  function Resumed(drained: State): State {
    var late := Step(Step(drained, Write(true), 60), Tick(50), 60);
    Step(Step(Step(late, Add(0), 60), Tick(10), 60), DeleteOld, 60)
  }

  function KeyOf(sample: Sample): Key { Key(ModelGroup(sample.model, sample.group), 0) }

  lemma WaitingIs(sample: Sample)
    requires sample.model != "" && sample.group != "" && sample.channel <= 0
    ensures var key := KeyOf(sample);
      Waiting(sample) ==
      State(86400, map[key := 0], [ZERO], [Pending(key, Cleaned(sample), 59, Bucket(0))], Drained(key, 0, ZERO, 86400),
            map[], [])
  {
    var key := KeyOf(sample);
    var s1 := Step(Start(59), Record(sample), 60);
    assert s1.pending == [Pending(key, Cleaned(sample), 59, Unloaded)];
    var s2 := Step(s1, Load(0), 60);
    assert s2.objects == [ZERO] && s2.pending == [Pending(key, Cleaned(sample), 59, Bucket(0))];
  }

  lemma WrittenIs(drained: State, key: Key, p: Pending)
    requires drained == State(86400, map[key := 0], [ZERO], [p], Drained(key, 0, ZERO, 86400), map[], [])
    ensures Step(Step(drained, Write(true), 60), Tick(50), 60)
         == State(86450, map[key := 0], [ZERO], [p], Written(key, 86400), map[], [])
  {}

  lemma DeletedIs(late: State, key: Key, p: Pending)
    requires late == State(86450, map[key := 0], [ZERO], [p], Written(key, 86400), map[], [])
    requires p.key == key && key.ts == 0 && p.bucket == Bucket(0)
    ensures var s := Step(Step(Step(late, Add(0), 60), Tick(10), 60), DeleteOld, 60);
      s.hot == map[] && s.flight == Resting && s.stored == map[] && s.recorded == [Entry(key, p.sample)]
  {
    var added := Step(late, Add(0), 60);
    assert added == Added(late, 0);
    assert added.now == 86450 && added.hot == late.hot && added.flight == late.flight;
    assert added.recorded == [Entry(key, p.sample)];
    var ticked := Step(added, Tick(10), 60);
    assert ticked == added.(now := 86460) && BucketStart(60, 60) == 60;
    assert Deletable(ticked, key, 60);
  }

  /** Adding within a day of the stamp is not enough by itself: here the add comes 86391 seconds after
      it, the drain-to-delete gap takes 60, and the sample is nowhere. */
  lemma SlowFlushLoses(sample: Sample)
    requires sample.model != "" && sample.group != "" && sample.channel <= 0
    ensures var key, s := KeyOf(sample), SlowFlush(sample);
      && Total(s.recorded, key, Requests) == 1
      && HotAt(s, key) == ZERO && FlightAt(s, key) == ZERO && RowAt(s.stored, key) == ZERO
  {
    WaitingIs(sample);
    var p := Pending(KeyOf(sample), Cleaned(sample), 59, Bucket(0));
    WrittenIs(Waiting(sample), KeyOf(sample), p);
    DeletedIs(Step(Step(Waiting(sample), Write(true), 60), Tick(50), 60), KeyOf(sample), p);
    TotalGrows([], Entry(KeyOf(sample), Cleaned(sample)), KeyOf(sample), Requests);
    assert [] + [Entry(KeyOf(sample), Cleaned(sample))] == [Entry(KeyOf(sample), Cleaned(sample))];
  }
}
