/** What a difference report says, in terms of the configured and fetched values themselves: when two values
    agree, what the local value of an item is, what a channel shows, and whom it distrusts. */
module RatioMeaning {
  import opened RatioSync
  import opened RatioDiff

  /** The table gives the value for the model's field. */
  predicate Has(t: Table, f: Field, m: string, v: Any) { f in t && m in t[f] && t[f][m] == v }

  /** A value that stands for the number, however it is written. */
  predicate IsNumber(v: Any, r: real) {
    v == Float(r) || (v.Whole? && v.i as real == r) || (v.JsonNumber? && v.parsed == Some(r))
  }

  predicate HasNumber(v: Any) { v.Float? || v.Whole? || (v.JsonNumber? && v.parsed.Some?) }

  function NumberOf(v: Any): (r: real)
    requires HasNumber(v)
    ensures IsNumber(v, r)
  {
    match v case Float(r) => r case Whole(i) => i as real case JsonNumber(_, parsed) => parsed.value
  }

  /** Less than a billionth apart. */
  predicate Near(a: real, b: real) { -0.000000001 < a - b < 0.000000001 }

  /** The fields compared as numbers: everything but the billing mode and expression. */
  predicate IsPrice(f: Field) {
    f in {ModelRatio, CompletionRatio, CacheRatio, CreateCacheRatio, ImageRatio, AudioRatio, AudioCompletionRatio,
          ModelPrice}
  }

  /** Numbers agree when they are near, whether they were floats, whole numbers or JSON numbers; anything else
      agrees with itself only. */
  predicate Agrees(f: Field, a: Any, b: Any) {
    if IsPrice(f) && HasNumber(a) && HasNumber(b) then Near(NumberOf(a), NumberOf(b))
    else if a.Float? && b.Float? then Near(a.r, b.r)
    else a == b && !(IsPrice(f) && HasNumber(a))
  }

  lemma NearIs(a: real, b: real)
    ensures NearlyEqual(a, b) <==> Near(a, b)
  {}

  lemma NormalizedIs(f: Field, v: Any)
    ensures Normalized(f, v) == if IsPrice(f) && HasNumber(v) then Float(NumberOf(v)) else v
  {}

  lemma AgreesIs(f: Field, a: Any, b: Any)
    ensures ValuesEqual(Normalized(f, a), Normalized(f, b)) <==> Agrees(f, a, b)
  {
    NormalizedIs(f, a);
    NormalizedIs(f, b);
    if HasNumber(a) && HasNumber(b) { NearIs(NumberOf(a), NumberOf(b)); }
    if a.Float? && b.Float? { NearIs(a.r, b.r); }
  }

  lemma GivenIs(t: Table, f: Field, m: string)
    ensures Given(t, f, m).Some? <==> exists v :: Has(t, f, m, v)
    ensures forall v :: Has(t, f, m, v) ==> Given(t, f, m) == Some(Normalized(f, v))
  {
    if f in t && m in t[f] { assert Has(t, f, m, t[f][m]); }
  }

  /** The local value a channel's value is compared with, when there is one that is not null. */
  ghost predicate HasLocal(local: Table, f: Field, m: string, v: Any) { Has(local, f, m, v) && v != Nil }

  lemma LocalIs(local: Table, f: Field, m: string)
    ensures LocalValue(local, f, m) != Nil <==> exists l :: HasLocal(local, f, m, l)
    ensures forall l :: HasLocal(local, f, m, l) ==> LocalValue(local, f, m) == Normalized(f, l)
  {
    GivenIs(local, f, m);
    forall l | HasLocal(local, f, m, l) ensures Normalized(f, l) != Nil { NormalizedIs(f, l); }
    if LocalValue(local, f, m) != Nil {
      NormalizedIs(f, local[f][m]);
      assert HasLocal(local, f, m, local[f][m]);
    }
  }

  /** The local side has a value, and the channel's agrees with it. */
  ghost predicate AgreesWithLocal(local: Table, f: Field, m: string, v: Any) {
    exists l :: HasLocal(local, f, m, l) && Agrees(f, l, v)
  }

  /** A channel differs exactly when it has a value and the local side has none, or one that does not agree. */
  lemma DifferentMeans(local: Table, c: Channel, f: Field, m: string)
    ensures Different(local, c, f, m) <==> exists v :: Has(c.data, f, m, v) && !AgreesWithLocal(local, f, m, v)
  {
    GivenIs(c.data, f, m);
    LocalIs(local, f, m);
    if Given(c.data, f, m).Some? {
      var v := c.data[f][m];
      assert Has(c.data, f, m, v);
      forall l | HasLocal(local, f, m, l) { AgreesIs(f, l, v); }
    }
  }

  /** The number itself, or the value as it stands. */
  predicate Displays(f: Field, shown: Any, v: Any) {
    if IsPrice(f) && HasNumber(v) then shown == Float(NumberOf(v)) else shown == v
  }

  /** What a channel shows: its own value where it differs, the word for sameness where it agrees or neither side
      has anything, and nothing where only the local side has a value. */
  lemma ShownMeans(local: Table, c: Channel, f: Field, m: string)
    ensures Different(local, c, f, m) ==>
      forall v :: Has(c.data, f, m, v) && v != Nil ==> Displays(f, ShownOf(local, c, f, m), v)
    ensures !Different(local, c, f, m) && (exists v :: Has(c.data, f, m, v)) ==> ShownOf(local, c, f, m) == SAME
    ensures !(exists v :: Has(c.data, f, m, v)) ==>
      ShownOf(local, c, f, m) == if exists l :: HasLocal(local, f, m, l) then Nil else SAME
  {
    GivenIs(c.data, f, m);
    LocalIs(local, f, m);
    forall v | Has(c.data, f, m, v) { NormalizedIs(f, v); }
  }

  /** Each reported item carries the local value, or null when there is none. */
  lemma CurrentMeans(local: Table, cs: seq<Channel>, r: Report, f: Field, m: string)
    requires IsReport(local, cs, r) && Lists(r, m, f)
    ensures forall l :: Has(local, f, m, l) ==> Displays(f, r[m][f].current, l)
    ensures (forall l :: !Has(local, f, m, l)) ==> r[m][f].current == Nil
  {
    var first, keep :| IsReportFrom(local, cs, first, keep, r);
    GivenIs(local, f, m);
    forall l | Has(local, f, m, l) { NormalizedIs(f, l); }
  }

  /** The pair of ratios a channel gives that has no prices of its own. */
  ghost predicate IsPlaceholder(c: Channel, m: string) {
    && (exists a, x :: Has(c.data, ModelRatio, m, a) && IsNumber(a, x) && Near(x, 37.5))
    && (exists b, y :: Has(c.data, CompletionRatio, m, b) && IsNumber(b, y) && Near(y, 1.0))
  }

  lemma NumberHas(v: Any, r: real)
    ensures IsNumber(v, r) <==> HasNumber(v) && NumberOf(v) == r
  {}

  lemma TrustedIs(c: Channel, m: string)
    ensures Trusted(c, m) <==> !IsPlaceholder(c, m)
  {
    forall v, r { NumberHas(v, r); }
    forall a, b { NearIs(a, b); }
    if !Trusted(c, m) {
      var a, b := c.data[ModelRatio][m], c.data[CompletionRatio][m];
      assert Has(c.data, ModelRatio, m, a) && IsNumber(a, NumberOf(a)) && Near(NumberOf(a), 37.5);
      assert Has(c.data, CompletionRatio, m, b) && IsNumber(b, NumberOf(b)) && Near(NumberOf(b), 1.0);
    }
  }

  lemma {:induction false} TrustBySpeaker(cs: seq<Channel>, c: Channel, m: string)
    requires Speaks(cs, c)
    ensures c.name in TrustIn(cs, m) && TrustIn(cs, m)[c.name] == Trusted(c, m)
    decreases |cs|
  {
    if c != cs[|cs| - 1] {
      SpeaksInit(cs, c);
      TrustBySpeaker(cs[..|cs| - 1], c, m);
    }
  }

  /** A listed channel is trusted exactly when it does not give the placeholder pair for the model. */
  lemma TrustMeans(local: Table, cs: seq<Channel>, r: Report, f: Field, m: string, c: Channel)
    requires IsReport(local, cs, r) && Lists(r, m, f) && Speaks(cs, c) && VisibleSomewhere(local, c)
    ensures c.name in r[m][f].confidence && r[m][f].confidence[c.name] == !IsPlaceholder(c, m)
  {
    ListsExactly(local, cs, r, f, m, c);
    var first, keep :| IsReportFrom(local, cs, first, keep, r);
    TrustBySpeaker(cs, c, m);
    TrustedIs(c, m);
  }
}
