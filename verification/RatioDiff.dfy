/** The price difference report: what each upstream channel says against the local configuration. */
module RatioDiff {
  import opened RatioSync

  /** A configured or fetched value; a JSON number keeps its text and the float it parses to. */
  datatype Any = Nil | Float(r: real) | Whole(i: int)
      | JsonNumber(digits: string, parsed: Option<real>) | Text(s: string) | Flag(b: bool)

  datatype Field =
    | ModelRatio | CompletionRatio | CacheRatio | CreateCacheRatio | ImageRatio
    | AudioRatio | AudioCompletionRatio | ModelPrice
    | BillingMode | BillingExpr

  const FIELDS: seq<Field> := [ModelRatio, CompletionRatio, CacheRatio, CreateCacheRatio, ImageRatio, AudioRatio,
                               AudioCompletionRatio, ModelPrice, BillingMode, BillingExpr]

  predicate Numeric(f: Field) { f != BillingMode && f != BillingExpr }

  type Table = map<Field, map<string, Any>>

  datatype Channel = Channel(name: string, data: Table)

  /** One line of the report: the local value, what each listed channel shows, and how far to trust it. */
  datatype Item = Item(current: Any, upstreams: map<string, Any>, confidence: map<string, bool>)

  type Report = map<string, map<Field, Item>>

  const SAME: Any := Text("same")

  function AsFloat(v: Any): Option<real> {
    match v
    case Float(r) => Some(r)
    case Whole(i) => Some(i as real)
    case JsonNumber(_, parsed) => parsed
    case _ => None
  }

  function Normalized(f: Field, v: Any): Any {
    if Numeric(f) && AsFloat(v).Some? then Float(AsFloat(v).value) else v
  }

  /** Floats are equal up to the epsilon, anything else when it is the same. */
  predicate ValuesEqual(a: Any, b: Any) {
    if a.Float? && b.Float? then NearlyEqual(a.r, b.r) else a == b
  }

  function Values(t: Table, f: Field): map<string, Any> { if f in t then t[f] else map[] }

  /** A model's value for a field, if any. */
  function Given(t: Table, f: Field, m: string): Option<Any> {
    if m in Values(t, f) then Some(Normalized(f, Values(t, f)[m])) else None
  }

  function LocalValue(t: Table, f: Field, m: string): Any { if Given(t, f, m).Some? then Given(t, f, m).value else Nil }

  /** What a channel shows against a local value. */
  function Shown(l: Any, given: Option<Any>): Any {
    var u :=
      match given
      case None => Nil
      case Some(v) => if l != Nil && !ValuesEqual(l, v) then v else if ValuesEqual(l, v) then SAME else v;
    if u == Nil && l == Nil then SAME else u
  }

  /** Whether it counts as a difference. */
  predicate Differs(l: Any, given: Option<Any>) {
    || (given.Some? && l != Nil && !ValuesEqual(l, given.value))
    || (l == Nil && Shown(l, given) != Nil && Shown(l, given) != SAME)
  }

  function ShownBy(cs: seq<Channel>, l: Any, f: Field, m: string): map<string, Any> {
    if cs == [] then map[] else
      var last := cs[|cs| - 1];
      ShownBy(cs[..|cs| - 1], l, f, m)[last.name := Shown(l, Given(last.data, f, m))]
  }

  predicate AnyDiffers(cs: seq<Channel>, l: Any, f: Field, m: string) {
    cs != [] && (AnyDiffers(cs[..|cs| - 1], l, f, m) || Differs(l, Given(cs[|cs| - 1].data, f, m)))
  }

  predicate AnyGiven(cs: seq<Channel>, f: Field, m: string) {
    cs != [] && (AnyGiven(cs[..|cs| - 1], f, m) || Given(cs[|cs| - 1].data, f, m).Some?)
  }

  /** A channel whose ratios are the placeholder pair is not trusted for that model. */
  predicate Trusted(c: Channel, m: string) {
    var a, b := Values(c.data, ModelRatio), Values(c.data, CompletionRatio);
    !(m in a && m in b && AsFloat(a[m]).Some? && AsFloat(b[m]).Some?
      && NearlyEqual(AsFloat(a[m]).value, 37.5) && NearlyEqual(AsFloat(b[m]).value, 1.0))
  }

  function TrustIn(cs: seq<Channel>, m: string): map<string, bool> {
    if cs == [] then map[] else
      var last := cs[|cs| - 1];
      TrustIn(cs[..|cs| - 1], m)[last.name := Trusted(last, m)]
  }

  predicate Included(local: Table, cs: seq<Channel>, f: Field, m: string) {
    var l := LocalValue(local, f, m);
    if l != Nil then AnyDiffers(cs, l, f, m) else AnyGiven(cs, f, m)
  }

  function FirstItem(local: Table, cs: seq<Channel>, f: Field, m: string): Item {
    var l := LocalValue(local, f, m);
    Item(l, ShownBy(cs, l, f, m), TrustIn(cs, m))
  }

  // Reading a report.

  predicate Lists(r: Report, m: string, f: Field) { m in r && f in r[m] }

  /** A channel that shows something of its own somewhere in the report. */
  ghost predicate HasDiff(r: Report, name: string) {
    exists m, f :: Lists(r, m, f) && Deviates(r[m][f], name)
  }

  predicate Deviates(item: Item, name: string) {
    name in item.upstreams && item.upstreams[name] != Nil && item.upstreams[name] != SAME
  }

  function Pruned(item: Item, keep: set<string>): Item {
    item.(upstreams := map n | n in item.upstreams && n in keep :: item.upstreams[n],
          confidence := map n | n in item.confidence && (n in keep || n !in item.upstreams) :: item.confidence[n])
  }

  predicate AllSame(item: Item) { forall n :: n in item.upstreams ==> item.upstreams[n] == SAME }

  /** The report before pruning: exactly the included pairs. */
  ghost predicate IsFirst(local: Table, cs: seq<Channel>, r: Report) {
    && (forall m, f :: Lists(r, m, f) <==> Included(local, cs, f, m))
    && (forall m, f :: Lists(r, m, f) ==> r[m][f] == FirstItem(local, cs, f, m))
  }

  /** After pruning: channels without a difference are gone, then items that show nothing but sameness. */
  ghost predicate IsFinal(first: Report, keep: set<string>, r: Report) {
    && (forall m, f :: Lists(r, m, f) <==> Lists(first, m, f) && !AllSame(Pruned(first[m][f], keep)))
    && (forall m, f :: Lists(r, m, f) ==> r[m][f] == Pruned(first[m][f], keep))
    && NoEmptyRow(r)
  }

  // The three phases.

  function Names(cs: seq<Channel>): set<string> { set i | 0 <= i < |cs| :: cs[i].name }

  lemma NamesGrow(cs: seq<Channel>, c: Channel)
    ensures Names(cs + [c]) == Names(cs) + {c.name}
  {
    var all := cs + [c];
    assert all[|cs|] == c;
    forall n | n in Names(cs) ensures n in Names(all) {
      var i :| 0 <= i < |cs| && cs[i].name == n;
      assert all[i].name == n;
    }
  }

  lemma {:induction false} MapsCoverNames(cs: seq<Channel>, l: Any, f: Field, m: string)
    ensures ShownBy(cs, l, f, m).Keys == Names(cs) == TrustIn(cs, m).Keys
    decreases |cs|
  {
    if cs != [] {
      MapsCoverNames(cs[..|cs| - 1], l, f, m);
      NamesGrow(cs[..|cs| - 1], cs[|cs| - 1]);
      assert cs == cs[..|cs| - 1] + [cs[|cs| - 1]];
    }
  }

  ghost predicate HasModel(t: Table, m: string) { exists f :: m in Values(t, f) }

  ghost predicate IsModel(local: Table, cs: seq<Channel>, m: string) {
    HasModel(local, m) || exists i :: 0 <= i < |cs| && HasModel(cs[i].data, m)
  }

  method ModelsOf(t: Table) returns (models: set<string>)
    ensures forall m :: m in models <==> HasModel(t, m)
  {
    models := {};
    var i := 0;
    while i < |FIELDS|
      invariant 0 <= i <= |FIELDS|
      invariant forall m :: m in models <==> exists j :: 0 <= j < i && m in Values(t, FIELDS[j])
    {
      models := models + Values(t, FIELDS[i]).Keys;
      i := i + 1;
    }
    forall m ensures m in models <==> HasModel(t, m) {
      if HasModel(t, m) {
        var f :| m in Values(t, f);
        EveryField(f);
      }
    }
  }

  lemma EveryField(f: Field)
    ensures exists j :: 0 <= j < |FIELDS| && FIELDS[j] == f
  {
    assert FIELDS[0] == ModelRatio && FIELDS[1] == CompletionRatio
      && FIELDS[2] == CacheRatio && FIELDS[3] == CreateCacheRatio;
    assert FIELDS[4] == ImageRatio && FIELDS[5] == AudioRatio
      && FIELDS[6] == AudioCompletionRatio && FIELDS[7] == ModelPrice;
    assert FIELDS[8] == BillingMode && FIELDS[9] == BillingExpr;
  }

  method AllModels(local: Table, cs: seq<Channel>) returns (models: set<string>)
    ensures forall m :: m in models <==> IsModel(local, cs, m)
  {
    models := ModelsOf(local);
    var i := 0;
    while i < |cs|
      invariant 0 <= i <= |cs|
      invariant forall m :: m in models <==> HasModel(local, m) || exists j :: 0 <= j < i && HasModel(cs[j].data, m)
    {
      var more := ModelsOf(cs[i].data);
      models := models + more;
      i := i + 1;
    }
  }

  lemma IncludedIsModel(local: Table, cs: seq<Channel>, f: Field, m: string)
    requires Included(local, cs, f, m)
    ensures IsModel(local, cs, m)
  {
    if LocalValue(local, f, m) != Nil {
      assert m in Values(local, f);
    } else {
      var c := AnyGivenMeans(cs, f, m);
      var i :| 0 <= i < |cs| && cs[i] == c;
      assert m in Values(cs[i].data, f);
    }
  }

  type Trust = map<string, map<string, bool>>

  ghost predicate TrustOk(trust: Trust, cs: seq<Channel>, models: set<string>) {
    && trust.Keys == Names(cs)
    && forall n, m :: n in trust && m in models ==>
        m in trust[n] && n in TrustIn(cs, m) && trust[n][m] == TrustIn(cs, m)[n]
  }

  method TrustRow(c: Channel, models: set<string>) returns (row: map<string, bool>)
    ensures row == map m | m in models :: Trusted(c, m)
  {
    row := map[];
    var left := models;
    while left != {}
      invariant left <= models && row == map m | m in models && m !in left :: Trusted(c, m)
    {
      var m :| m in left;
      row, left := row[m := Trusted(c, m)], left - {m};
    }
  }

  lemma TrustGrows(trust: Trust, cs: seq<Channel>, c: Channel, models: set<string>, row: map<string, bool>)
    requires TrustOk(trust, cs, models) && row == map m | m in models :: Trusted(c, m)
    ensures TrustOk(trust[c.name := row], cs + [c], models)
  {
    NamesGrow(cs, c);
    assert (cs + [c])[..|cs|] == cs;
  }

  method BuildTrust(cs: seq<Channel>, models: set<string>) returns (trust: Trust)
    ensures TrustOk(trust, cs, models)
  {
    trust := map[];
    var i := 0;
    while i < |cs|
      invariant 0 <= i <= |cs| && TrustOk(trust, cs[..i], models)
    {
      var row := TrustRow(cs[i], models);
      TrustGrows(trust, cs[..i], cs[i], models, row);
      assert cs[..i + 1] == cs[..i] + [cs[i]];
      trust := trust[cs[i].name := row];
      i := i + 1;
    }
    assert cs[..i] == cs;
  }

  /** One channel's value against the local one. */
  method CompareValue(localValue: Any, given: Option<Any>) returns (upstreamValue: Any, differs: bool)
    ensures upstreamValue == Shown(localValue, given) && (differs <==> Differs(localValue, given))
  {
    upstreamValue, differs := Nil, false;
    if given.Some? {
      upstreamValue := given.value;
      if localValue != Nil && !ValuesEqual(localValue, upstreamValue) {
        differs := true;
      } else if ValuesEqual(localValue, upstreamValue) {
        upstreamValue := SAME;
      }
    }
    if upstreamValue == Nil && localValue == Nil { upstreamValue := SAME; }
    if localValue == Nil && upstreamValue != Nil && upstreamValue != SAME { differs := true; }
  }

  /** What a field's comparison knows after some channels. */
  ghost predicate Compared(done: seq<Channel>, l: Any, f: Field, m: string, shown: map<string, Any>, given: bool,
                           differs: bool) {
    shown == ShownBy(done, l, f, m) && (given <==> AnyGiven(done, f, m)) && (differs <==> AnyDiffers(done, l, f, m))
  }

  lemma ComparedGrows(done: seq<Channel>, c: Channel, l: Any, f: Field, m: string, shown: map<string, Any>, given: bool,
                      differs: bool)
    requires Compared(done, l, f, m, shown, given, differs)
    ensures Compared(done + [c], l, f, m, shown[c.name := Shown(l, Given(c.data, f, m))],
                     given || Given(c.data, f, m).Some?, differs || Differs(l, Given(c.data, f, m)))
  {
    ShownGrows(done, c, l, f, m);
    AnyGrows(done, c, l, f, m);
  }

  lemma ShownGrows(done: seq<Channel>, c: Channel, l: Any, f: Field, m: string)
    ensures ShownBy(done + [c], l, f, m) == ShownBy(done, l, f, m)[c.name := Shown(l, Given(c.data, f, m))]
  {
    assert (done + [c])[..|done|] == done;
  }

  lemma AnyGrows(done: seq<Channel>, c: Channel, l: Any, f: Field, m: string)
    ensures AnyGiven(done + [c], f, m) <==> AnyGiven(done, f, m) || Given(c.data, f, m).Some?
    ensures AnyDiffers(done + [c], l, f, m) <==> AnyDiffers(done, l, f, m) || Differs(l, Given(c.data, f, m))
  {
    assert (done + [c])[..|done|] == done;
  }

  lemma {:induction false} AnyGivenMeans(cs: seq<Channel>, f: Field, m: string) returns (c: Channel)
    requires AnyGiven(cs, f, m)
    ensures c in cs && Given(c.data, f, m).Some?
  {
    if Given(cs[|cs| - 1].data, f, m).Some? { c := cs[|cs| - 1]; } else { c := AnyGivenMeans(cs[..|cs| - 1], f, m); }
  }

  lemma {:induction false} AnyDiffersMeans(cs: seq<Channel>, l: Any, f: Field, m: string) returns (c: Channel)
    requires AnyDiffers(cs, l, f, m)
    ensures c in cs && Differs(l, Given(c.data, f, m))
  {
    if Differs(l, Given(cs[|cs| - 1].data, f, m)) {
      c := cs[|cs| - 1];
    } else {
      c := AnyDiffersMeans(cs[..|cs| - 1], l, f, m);
    }
  }

  lemma {:induction false} AnyOf(cs: seq<Channel>, c: Channel, l: Any, f: Field, m: string)
    requires c in cs
    ensures Given(c.data, f, m).Some? ==> AnyGiven(cs, f, m)
    ensures Differs(l, Given(c.data, f, m)) ==> AnyDiffers(cs, l, f, m)
    decreases |cs|
  {
    if cs[|cs| - 1] != c {
      assert c in cs[..|cs| - 1];
      AnyOf(cs[..|cs| - 1], c, l, f, m);
    }
  }

  method Confidences(cs: seq<Channel>, m: string, trust: Trust, ghost models: set<string>)
    returns (confidence: map<string, bool>)
    requires TrustOk(trust, cs, models) && m in models
    ensures confidence == TrustIn(cs, m)
  {
    confidence := map[];
    var i := 0;
    while i < |cs|
      invariant 0 <= i <= |cs| && confidence.Keys == Names(cs[..i])
      invariant forall n :: n in confidence ==> n in TrustIn(cs, m) && confidence[n] == TrustIn(cs, m)[n]
    {
      assert cs[..i + 1] == cs[..i] + [cs[i]];
      NamesGrow(cs[..i], cs[i]);
      assert cs[i].name in Names(cs);
      confidence := confidence[cs[i].name := trust[cs[i].name][m]];
      i := i + 1;
    }
    assert cs[..i] == cs;
    MapsCoverNames(cs, Nil, ModelRatio, m);
  }

  /** One model's field across all channels. */
  method CompareField(local: Table, cs: seq<Channel>, f: Field, m: string, trust: Trust, ghost models: set<string>)
    returns (item: Item, shouldInclude: bool)
    requires TrustOk(trust, cs, models) && m in models
    ensures item == FirstItem(local, cs, f, m) && (shouldInclude <==> Included(local, cs, f, m))
  {
    var localValue := LocalValue(local, f, m);
    var upstreamValues: map<string, Any> := map[];
    var hasUpstreamValue, hasDifference := false, false;
    var i := 0;
    while i < |cs|
      invariant 0 <= i <= |cs| && Compared(cs[..i], localValue, f, m, upstreamValues, hasUpstreamValue, hasDifference)
    {
      var given := Given(cs[i].data, f, m);
      var upstreamValue, differs := CompareValue(localValue, given);
      ComparedGrows(cs[..i], cs[i], localValue, f, m, upstreamValues, hasUpstreamValue, hasDifference);
      assert cs[..i + 1] == cs[..i] + [cs[i]];
      upstreamValues := upstreamValues[cs[i].name := upstreamValue];
      hasUpstreamValue := hasUpstreamValue || given.Some?;
      hasDifference := hasDifference || differs;
      i := i + 1;
    }
    assert cs[..i] == cs;
    var confidenceValues := Confidences(cs, m, trust, models);
    item := Item(localValue, upstreamValues, confidenceValues);
    shouldInclude := if localValue != Nil then hasDifference else hasUpstreamValue;
  }

  method BuildModel(local: Table, cs: seq<Channel>, m: string, trust: Trust, ghost models: set<string>)
    returns (items: map<Field, Item>)
    requires TrustOk(trust, cs, models) && m in models
    ensures forall f :: f in items <==> Included(local, cs, f, m)
    ensures forall f :: f in items ==> items[f] == FirstItem(local, cs, f, m)
  {
    items := map[];
    var i := 0;
    while i < |FIELDS|
      invariant 0 <= i <= |FIELDS|
      invariant forall f :: f in items <==> f in FIELDS[..i] && Included(local, cs, f, m)
      invariant forall f :: f in items ==> items[f] == FirstItem(local, cs, f, m)
    {
      var item, shouldInclude := CompareField(local, cs, FIELDS[i], m, trust, models);
      if shouldInclude { items := items[FIELDS[i] := item]; }
      i := i + 1;
    }
    forall f ensures f in FIELDS[..i] { EveryField(f); }
  }

  method BuildFirst(local: Table, cs: seq<Channel>) returns (r: Report)
    ensures IsFirst(local, cs, r) && NoEmptyRow(r)
  {
    var models := AllModels(local, cs);
    var trust := BuildTrust(cs, models);
    r := map[];
    var left := models;
    while left != {}
      invariant left <= models
      invariant forall m, f :: Lists(r, m, f) <==> m in models && m !in left && Included(local, cs, f, m)
      invariant forall m, f :: Lists(r, m, f) ==> r[m][f] == FirstItem(local, cs, f, m)
      invariant NoEmptyRow(r)
    {
      var m :| m in left;
      var items := BuildModel(local, cs, m, trust, models);
      ghost var before := r;
      if items != map[] { r := r[m := items]; } else { r := r - {m}; }
      forall n, f ensures Lists(r, n, f) <==> if n == m then f in items else Lists(before, n, f) {}
      left := left - {m};
    }
    forall m, f | Included(local, cs, f, m) ensures m in models { IncludedIsModel(local, cs, f, m); }
  }

  method ItemDeviates(item: Item) returns (found: set<string>)
    ensures forall n :: n in found <==> Deviates(item, n)
  {
    found := {};
    var left := item.upstreams.Keys;
    while left != {}
      invariant left <= item.upstreams.Keys && forall n :: n in found <==> n !in left && Deviates(item, n)
    {
      var n :| n in left;
      if item.upstreams[n] != Nil && item.upstreams[n] != SAME { found := found + {n}; }
      left := left - {n};
    }
  }

  ghost predicate RowDeviates(items: map<Field, Item>, n: string) { exists f :: f in items && Deviates(items[f], n) }

  method RowDeviations(items: map<Field, Item>) returns (found: set<string>)
    ensures forall n :: n in found <==> RowDeviates(items, n)
  {
    found := {};
    var left := items.Keys;
    while left != {}
      invariant left <= items.Keys
      invariant forall n :: n in found <==> exists f :: f in items && f !in left && Deviates(items[f], n)
    {
      var f :| f in left;
      var more := ItemDeviates(items[f]);
      found, left := found + more, left - {f};
    }
  }

  /** The second phase: which channels differ anywhere in the report. */
  method ChannelsWithDiff(r: Report) returns (found: set<string>)
    ensures forall n :: n in found <==> HasDiff(r, n)
  {
    found := {};
    var left := r.Keys;
    while left != {}
      invariant left <= r.Keys
      invariant forall n :: n in found <==> exists m :: m in r && m !in left && RowDeviates(r[m], n)
    {
      var m :| m in left;
      var more := RowDeviations(r[m]);
      found, left := found + more, left - {m};
    }
    forall n ensures n in found <==> HasDiff(r, n) { HasDiffByRows(r, n); }
  }

  lemma HasDiffByRows(r: Report, n: string)
    ensures HasDiff(r, n) <==> exists m :: m in r && RowDeviates(r[m], n)
  {
    if HasDiff(r, n) {
      var m, f :| Lists(r, m, f) && Deviates(r[m][f], n);
      assert RowDeviates(r[m], n);
    }
    if m :| m in r && RowDeviates(r[m], n) {
      var f :| f in r[m] && Deviates(r[m][f], n);
      assert Lists(r, m, f);
    }
  }

  /** Deleting from one item the channels that differ nowhere. */
  method PruneItem(item: Item, keep: set<string>) returns (pruned: Item)
    ensures pruned == Pruned(item, keep)
  {
    var upstreams, confidence := item.upstreams, item.confidence;
    var left := item.upstreams.Keys;
    while left != {}
      invariant left <= item.upstreams.Keys
      invariant upstreams == map n | n in item.upstreams && (n in left || n in keep) :: item.upstreams[n]
      invariant confidence == map n | n in item.confidence
        && (n in left || n in keep || n !in item.upstreams) :: item.confidence[n]
    {
      var n :| n in left;
      if n !in keep { upstreams, confidence := upstreams - {n}, confidence - {n}; }
      left := left - {n};
    }
    pruned := Item(item.current, upstreams, confidence);
  }

  method IsAllSame(item: Item) returns (same: bool)
    ensures same <==> AllSame(item)
  {
    var left := item.upstreams.Keys;
    while left != {}
      invariant left <= item.upstreams.Keys
        && forall n :: n in item.upstreams && n !in left ==> item.upstreams[n] == SAME
    {
      var n :| n in left;
      if item.upstreams[n] != SAME { return false; }
      left := left - {n};
    }
    same := true;
  }

  /** What pruning leaves of one model's items. */
  function PrunedRow(row: map<Field, Item>, keep: set<string>): map<Field, Item> {
    map f | f in row && !AllSame(Pruned(row[f], keep)) :: Pruned(row[f], keep)
  }

  ghost predicate IsRowPruned(row: map<Field, Item>, keep: set<string>, pruned: map<Field, Item>) {
    pruned == PrunedRow(row, keep)
  }

  method PruneRow(row: map<Field, Item>, keep: set<string>, ghost want: map<Field, Item>)
    returns (items: map<Field, Item>)
    requires IsRowPruned(row, keep, want)
    ensures items == want
  {
    items := row;
    var left := row.Keys;
    while left != {}
      invariant left <= row.Keys
      invariant forall f :: f in items <==> f in row && (f in left || !AllSame(Pruned(row[f], keep)))
      invariant forall f :: f in items ==> items[f] == if f in left then row[f] else Pruned(row[f], keep)
    {
      var f :| f in left;
      var item := PruneItem(row[f], keep);
      var same := IsAllSame(item);
      if same { items := items - {f}; } else { items := items[f := item]; }
      left := left - {f};
    }
  }

  ghost predicate NoEmptyRow(r: Report) { forall m :: m in r ==> r[m] != map[] }

  /** Every row pruned, and rows left without items removed, in place. */
  method PruneRows(first: Report, keep: set<string>, ghost want: map<string, map<Field, Item>>) returns (r: Report)
    requires want.Keys == first.Keys
    requires forall m {:trigger IsRowPruned(first[m], keep, want[m])} :: m in first ==>
      IsRowPruned(first[m], keep, want[m])
    ensures r.Keys <= first.Keys && forall m :: m in first ==> (m in r <==> want[m] != map[]) && (m in r ==>
      r[m] == want[m])
  {
    r := first;
    var left := first.Keys;
    while left != {}
      invariant left <= first.Keys && left <= r.Keys <= first.Keys
      invariant forall m :: m in left ==> r[m] == first[m]
      invariant forall m :: m in first && m !in left ==> (m in r <==> want[m] != map[]) && (m in r ==> r[m] == want[m])
    {
      var m :| m in left;
      assert IsRowPruned(first[m], keep, want[m]);
      var items := PruneRow(r[m], keep, want[m]);
      if items == map[] { r := r - {m}; } else { r := r[m := items]; }
      left := left - {m};
    }
  }

  /** The third phase. */
  method Prune(first: Report, keep: set<string>) returns (r: Report)
    ensures IsFinal(first, keep, r)
  {
    ghost var want := map m | m in first :: PrunedRow(first[m], keep);
    r := PruneRows(first, keep, want);
    PrunedRowsAreFinal(first, keep, r);
  }

  lemma PrunedRowsAreFinal(first: Report, keep: set<string>, r: Report)
    requires r.Keys <= first.Keys
    requires forall m :: m in first ==> (m in r <==> PrunedRow(first[m], keep) != map[]) && (m in r ==>
      r[m] == PrunedRow(first[m], keep))
    ensures IsFinal(first, keep, r)
  {
    forall m, f ensures Lists(r, m, f) <==> Lists(first, m, f) && !AllSame(Pruned(first[m][f], keep)) {
      if m in first && m !in r { assert f !in PrunedRow(first[m], keep); }
    }
  }

  ghost predicate IsReportFrom(local: Table, cs: seq<Channel>, first: Report, keep: set<string>, r: Report) {
    IsFirst(local, cs, first) && (forall n :: n in keep <==> HasDiff(first, n)) && IsFinal(first, keep, r)
  }

  ghost predicate IsReport(local: Table, cs: seq<Channel>, r: Report) {
    exists first, keep :: IsReportFrom(local, cs, first, keep, r)
  }

  /** The report: everything included, pruned to the channels that differ somewhere. */
  method BuildDifferences(local: Table, cs: seq<Channel>) returns (r: Report)
    ensures IsReport(local, cs, r)
  {
    var built := BuildFirst(local, cs);
    var channelHasDiff := ChannelsWithDiff(built);
    r := Prune(built, channelHasDiff);
    assert IsReportFrom(local, cs, built, channelHasDiff, r);
  }

  // What the report means.

  /** A channel has a value, and it is not the local one. */
  predicate Different(local: Table, c: Channel, f: Field, m: string) {
    var l, given := LocalValue(local, f, m), Given(c.data, f, m);
    given.Some? && (l == Nil || !ValuesEqual(l, given.value))
  }

  ghost predicate SomeDifferent(local: Table, cs: seq<Channel>, f: Field, m: string) {
    exists c :: c in cs && Different(local, c, f, m)
  }

  /** What a channel shows for a model's field. */
  function ShownOf(local: Table, c: Channel, f: Field, m: string): Any {
    Shown(LocalValue(local, f, m), Given(c.data, f, m))
  }

  /** A value of its own: neither null nor the report's word for sameness. */
  predicate Visible(local: Table, c: Channel, f: Field, m: string) {
    ShownOf(local, c, f, m) != Nil && ShownOf(local, c, f, m) != SAME
  }

  /** What is visible is different; the converse fails for null and for a literal "same". */
  lemma VisibleIsDifferent(local: Table, c: Channel, f: Field, m: string)
    ensures Visible(local, c, f, m) <==>
      Different(local, c, f, m) && Given(c.data, f, m).value != Nil && Given(c.data, f, m).value != SAME
  {}

  ghost predicate VisibleSomewhere(local: Table, c: Channel) { exists f, m :: Visible(local, c, f, m) }

  /** Channels are stored by name, so the last of two with one name is the one that is shown. */
  ghost predicate Speaks(cs: seq<Channel>, c: Channel) {
    exists i :: 0 <= i < |cs| && cs[i] == c && forall j :: i < j < |cs| ==> cs[j].name != c.name
  }

  lemma SpeaksInit(cs: seq<Channel>, c: Channel)
    requires Speaks(cs, c) && c != cs[|cs| - 1]
    ensures Speaks(cs[..|cs| - 1], c) && cs[|cs| - 1].name != c.name
  {
    var i :| 0 <= i < |cs| && cs[i] == c && forall j :: i < j < |cs| ==> cs[j].name != c.name;
    assert cs[..|cs| - 1][i] == c;
  }

  lemma {:induction false} ShownBySpeaker(local: Table, cs: seq<Channel>, c: Channel, f: Field, m: string)
    requires Speaks(cs, c)
    ensures var shown := ShownBy(cs, LocalValue(local, f, m), f, m);
      c.name in shown && shown[c.name] == ShownOf(local, c, f, m)
    decreases |cs|
  {
    if c != cs[|cs| - 1] {
      SpeaksInit(cs, c);
      ShownBySpeaker(local, cs[..|cs| - 1], c, f, m);
    }
  }

  /** Every name has a speaker. */
  lemma {:induction false} SpeakerOf(cs: seq<Channel>, n: string) returns (c: Channel)
    requires n in Names(cs)
    ensures Speaks(cs, c) && c.name == n
    decreases |cs|
  {
    var init, last := cs[..|cs| - 1], cs[|cs| - 1];
    if last.name == n {
      c := last;
      assert cs[|cs| - 1] == c;
    } else {
      assert cs == init + [last];
      NamesGrow(init, last);
      c := SpeakerOf(init, n);
      var i :| 0 <= i < |init| && init[i] == c && forall j :: i < j < |init| ==> init[j].name != c.name;
      assert cs[i] == c && forall j :: i < j < |init| ==> cs[j] == init[j];
    }
  }

  lemma SpeakerIsNamed(cs: seq<Channel>, c: Channel)
    requires Speaks(cs, c)
    ensures c in cs && c.name in Names(cs)
  {}

  /** A pair is in the report before pruning exactly when some channel differs. */
  lemma IncludedMeans(local: Table, cs: seq<Channel>, f: Field, m: string)
    ensures Included(local, cs, f, m) <==> SomeDifferent(local, cs, f, m)
  {
    var l := LocalValue(local, f, m);
    if Included(local, cs, f, m) {
      if l != Nil {
        var c := AnyDiffersMeans(cs, l, f, m);
        assert Different(local, c, f, m);
      } else {
        var c := AnyGivenMeans(cs, f, m);
        assert Different(local, c, f, m);
      }
    }
    if SomeDifferent(local, cs, f, m) {
      var c :| c in cs && Different(local, c, f, m);
      AnyOf(cs, c, l, f, m);
    }
  }

  lemma HasDiffMeans(local: Table, cs: seq<Channel>, first: Report, c: Channel)
    requires IsFirst(local, cs, first) && Speaks(cs, c)
    ensures HasDiff(first, c.name) <==> VisibleSomewhere(local, c)
  {
    if HasDiff(first, c.name) {
      var m, f :| Lists(first, m, f) && Deviates(first[m][f], c.name);
      ShownBySpeaker(local, cs, c, f, m);
      assert Visible(local, c, f, m);
    }
    if VisibleSomewhere(local, c) {
      var f, m :| Visible(local, c, f, m);
      VisibleIsDifferent(local, c, f, m);
      SpeakerIsNamed(cs, c);
      IncludedMeans(local, cs, f, m);
      ShownBySpeaker(local, cs, c, f, m);
      assert Lists(first, m, f) && Deviates(first[m][f], c.name);
    }
  }

  /** Some channel that stays in the report shows something other than sameness for the pair. */
  ghost predicate SomeoneSpeaksUp(local: Table, cs: seq<Channel>, f: Field, m: string) {
    exists c :: Speaks(cs, c) && VisibleSomewhere(local, c) && ShownOf(local, c, f, m) != SAME
  }

  lemma NotAllSame(local: Table, cs: seq<Channel>, first: Report, keep: set<string>, f: Field, m: string)
    requires IsFirst(local, cs, first) && (forall n :: n in keep <==> HasDiff(first, n)) && Lists(first, m, f)
    ensures AllSame(Pruned(first[m][f], keep)) <==> !SomeoneSpeaksUp(local, cs, f, m)
  {
    var p := Pruned(first[m][f], keep);
    MapsCoverNames(cs, LocalValue(local, f, m), f, m);
    if SomeoneSpeaksUp(local, cs, f, m) {
      var c :| Speaks(cs, c) && VisibleSomewhere(local, c) && ShownOf(local, c, f, m) != SAME;
      HasDiffMeans(local, cs, first, c);
      ShownBySpeaker(local, cs, c, f, m);
      assert c.name in p.upstreams;
    }
    if !AllSame(p) {
      var n :| n in p.upstreams && p.upstreams[n] != SAME;
      var c := SpeakerOf(cs, n);
      HasDiffMeans(local, cs, first, c);
      ShownBySpeaker(local, cs, c, f, m);
    }
  }

  /** For all inputs: a model's field is reported exactly when some channel differs from the local value
      and some channel with a visible difference anywhere shows something other than sameness here. */
  lemma ReportedExactly(local: Table, cs: seq<Channel>, r: Report, f: Field, m: string)
    requires IsReport(local, cs, r)
    ensures Lists(r, m, f) <==> SomeDifferent(local, cs, f, m) && SomeoneSpeaksUp(local, cs, f, m)
  {
    var first, keep :| IsReportFrom(local, cs, first, keep, r);
    IncludedMeans(local, cs, f, m);
    if Lists(first, m, f) { NotAllSame(local, cs, first, keep, f, m); }
  }

  /** For all inputs: each reported item lists exactly the channels with a visible difference anywhere,
      each with what it shows, and a trust for each of them and no one else. */
  lemma ListsExactly(local: Table, cs: seq<Channel>, r: Report, f: Field, m: string, c: Channel)
    requires IsReport(local, cs, r) && Lists(r, m, f) && Speaks(cs, c)
    ensures c.name in r[m][f].upstreams <==> VisibleSomewhere(local, c)
    ensures c.name in r[m][f].confidence <==> VisibleSomewhere(local, c)
    ensures VisibleSomewhere(local, c) ==> r[m][f].upstreams[c.name] == ShownOf(local, c, f, m)
  {
    var first, keep :| IsReportFrom(local, cs, first, keep, r);
    MapsCoverNames(cs, LocalValue(local, f, m), f, m);
    SpeakerIsNamed(cs, c);
    HasDiffMeans(local, cs, first, c);
    ShownBySpeaker(local, cs, c, f, m);
  }

  lemma ListsOnlyChannels(local: Table, cs: seq<Channel>, r: Report, f: Field, m: string, n: string)
    requires IsReport(local, cs, r) && Lists(r, m, f) && (n in r[m][f].upstreams || n in r[m][f].confidence)
    ensures exists c :: Speaks(cs, c) && c.name == n && VisibleSomewhere(local, c)
  {
    var first, keep :| IsReportFrom(local, cs, first, keep, r);
    MapsCoverNames(cs, LocalValue(local, f, m), f, m);
    var c := SpeakerOf(cs, n);
    ListsExactly(local, cs, r, f, m, c);
  }

  // Configurations on which the report is exact.

  ghost predicate UniqueNames(cs: seq<Channel>) { forall i, j :: 0 <= i < j < |cs| ==> cs[i].name != cs[j].name }

  /** A value that is neither null nor the report's own word for sameness. */
  predicate PlainValue(given: Option<Any>) { given.Some? ==> given.value != Nil && given.value != SAME }

  lemma UniqueSpeaks(cs: seq<Channel>, c: Channel)
    requires UniqueNames(cs) && c in cs
    ensures Speaks(cs, c)
  {}

  /** With unique names, a pair at which every channel has a plain value or none is reported exactly when
      some channel's value differs from the local one, whatever the other fields hold. */
  lemma PlainPairIsReported(local: Table, cs: seq<Channel>, r: Report, f: Field, m: string)
    requires UniqueNames(cs) && IsReport(local, cs, r)
    requires forall c :: c in cs ==> PlainValue(Given(c.data, f, m))
    ensures Lists(r, m, f) <==> SomeDifferent(local, cs, f, m)
  {
    ReportedExactly(local, cs, r, f, m);
    if SomeDifferent(local, cs, f, m) {
      var c :| c in cs && Different(local, c, f, m);
      UniqueSpeaks(cs, c);
      VisibleIsDifferent(local, c, f, m);
      assert Visible(local, c, f, m);
    }
  }

  /** A literal "same" hides a difference: the one channel has a billing expression the local side lacks,
      and the pair is not reported. */
  lemma LiteralSameIsHidden(name: string, model: string, r: Report)
    requires IsReport(map[], [Channel(name, map[BillingExpr := map[model := SAME]])], r)
    ensures Different(map[], Channel(name, map[BillingExpr := map[model := SAME]]), BillingExpr, model)
    ensures !Lists(r, model, BillingExpr)
  {
    var c := Channel(name, map[BillingExpr := map[model := SAME]]);
    ReportedExactly(map[], [c], r, BillingExpr, model);
    forall d | Speaks([c], d) ensures ShownOf(map[], d, BillingExpr, model) == SAME { assert d == c; }
  }
}
