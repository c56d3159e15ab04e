/** Comparing prices up to an epsilon, and choosing one models.dev price per model. */
module RatioSync {
  import opened Text

  const EPSILON: real := 0.000000001

  predicate NearlyEqual(a: real, b: real) { if a > b then a - b < EPSILON else b - a < EPSILON }

  /** Nearness is not transitive. */
  lemma NotTransitive()
    ensures exists a, b, c :: NearlyEqual(a, b) && NearlyEqual(b, c) && !NearlyEqual(a, c)
  {
    var a, b, c := 0.0, 0.0000000006, 0.0000000012;
    assert NearlyEqual(a, b) && NearlyEqual(b, c) && !NearlyEqual(a, c);
  }

  // Candidates.

  datatype Option<T> = None | Some(value: T)

  datatype Cost = Cost(input: Option<real>, output: Option<real>, cacheRead: Option<real>)

  datatype Candidate = Candidate(provider: string, input: real, output: Option<real>, cacheRead: Option<real>)

  /** A usable price: a non-negative input, a non-negative output if any, and not free input with a
      charged output. A negative cache price is dropped, not refused. */
  function BuildCandidate(provider: string, cost: Cost): (r: Option<Candidate>)
    ensures r.Some? <==> cost.input.Some? && cost.input.value >= 0.0
                         && (cost.output.Some? ==> cost.output.value >= 0.0 && (cost.output.value > 0.0 ==>
                             cost.input.value > 0.0))
    ensures r.Some? ==>
      r.value.provider == provider && r.value.input == cost.input.value && r.value.output == cost.output
    ensures r.Some? ==> (r.value.cacheRead.Some? <==> cost.cacheRead.Some? && cost.cacheRead.value >= 0.0)
    ensures r.Some? && r.value.cacheRead.Some? ==> r.value.cacheRead == cost.cacheRead
  {
    if cost.input.None? || cost.input.value < 0.0 then None
    else if cost.output.Some? && cost.output.value < 0.0 then None
    else if cost.input.value == 0.0 && cost.output.Some? && cost.output.value > 0.0 then None
    else
      var cache := if cost.cacheRead.Some? && cost.cacheRead.value >= 0.0 then cost.cacheRead else None;
      Some(Candidate(provider, cost.input.value, cost.output, cache))
  }

  predicate ShouldReplace(current: Candidate, next: Candidate) {
    if (current.input > 0.0) != (next.input > 0.0) then next.input > 0.0
    else if next.input > 0.0 && !NearlyEqual(next.input, current.input) then next.input < current.input
    else Less(next.provider, current.provider)
  }

  /** The loop over one model's candidates, in the order they come. */
  function Chosen(cs: seq<Candidate>): (r: Candidate)
    requires cs != []
    ensures r in cs
  {
    if |cs| == 1 then cs[0] else
      var current := Chosen(cs[..|cs| - 1]);
      if ShouldReplace(current, cs[|cs| - 1]) then cs[|cs| - 1] else current
  }

  ghost predicate ByProvider(cs: seq<Candidate>) {
    forall i, j :: 0 <= i < j < |cs| ==> Less(cs[i].provider, cs[j].provider)
  }

  ghost predicate Valid(cs: seq<Candidate>) { forall i :: 0 <= i < |cs| ==> cs[i].input >= 0.0 }

  /** With providers in order the tie-break never fires, so the price only moves to a clearly lower one. */
  lemma {:induction false} ChosenIsLow(cs: seq<Candidate>, k: nat)
    requires cs != [] && ByProvider(cs) && Valid(cs) && k < |cs| && cs[k].input > 0.0
    ensures 0.0 < Chosen(cs).input < cs[k].input + EPSILON
    decreases |cs|
  {
    if |cs| > 1 {
      var init, last := cs[..|cs| - 1], cs[|cs| - 1];
      var current := Chosen(init);
      var i :| 0 <= i < |init| && init[i] == current;
      assert Less(cs[i].provider, last.provider);
      LessTotal(cs[i].provider, last.provider);
      if k < |cs| - 1 { ChosenIsLow(init, k); }
      assert current.input >= 0.0;
    }
  }

  /** The choice is made at its first chance: a chosen non-zero price is strictly below every non-zero price of an
      earlier provider, and when all prices are zero the first provider is chosen. */
  lemma {:induction false} ChosenIsFirst(cs: seq<Candidate>, k: nat)
    requires cs != [] && ByProvider(cs) && Valid(cs) && k < |cs| && Less(cs[k].provider, Chosen(cs).provider)
    ensures Chosen(cs).input > 0.0 && (cs[k].input > 0.0 ==> Chosen(cs).input < cs[k].input)
    decreases |cs|
  {
    LessTotal(cs[0].provider, cs[0].provider);
    if |cs| > 1 {
      var init, last := cs[..|cs| - 1], cs[|cs| - 1];
      var current := Chosen(init);
      var i :| 0 <= i < |init| && init[i] == current;
      assert Less(cs[i].provider, last.provider);
      LessTotal(cs[i].provider, last.provider);
      if ShouldReplace(current, last) {
        if k < |init| && cs[k].input > 0.0 { ChosenIsLow(init, k); } else { LessTotal(last.provider, last.provider); }
      } else {
        if k == |cs| - 1 { LessTotal(last.provider, current.provider); } else { ChosenIsFirst(init, k); }
      }
    }
  }

  /** A non-zero price is chosen whenever there is one, and it lies below every non-zero candidate plus
      the epsilon. */
  lemma EpsilonMinimum(cs: seq<Candidate>)
    requires cs != [] && ByProvider(cs) && Valid(cs)
    ensures (exists k :: 0 <= k < |cs| && cs[k].input > 0.0) <==> Chosen(cs).input > 0.0
    ensures forall k :: 0 <= k < |cs| && cs[k].input > 0.0 ==> Chosen(cs).input < cs[k].input + EPSILON
  {
    forall k | 0 <= k < |cs| && cs[k].input > 0.0 ensures 0.0 < Chosen(cs).input < cs[k].input + EPSILON {
      ChosenIsLow(cs, k);
    }
    if Chosen(cs).input > 0.0 {
      var k :| 0 <= k < |cs| && cs[k] == Chosen(cs);
    }
  }

  /** Out of provider order the tie-break can climb, step by near step, past the epsilon. */
  lemma OrderMatters()
    ensures var cs := [Candidate("c", 1.0, None, None), Candidate("b", 1.0000000006, None, None),
                       Candidate("a", 1.0000000012, None, None)];
      Chosen(cs).input >= cs[0].input + EPSILON
  {
    var c, b, a := Candidate("c", 1.0, None, None), Candidate("b", 1.0000000006, None, None), Candidate("a",
        1.0000000012, None, None);
    assert [c, b, a][..2] == [c, b] && [c, b][..1] == [c];
    assert Less("b", "c") && Less("a", "b");
    assert Chosen([c, b]) == b;
  }

  // The selection loop.

  type Prices = map<string, Cost>

  /** The usable candidates of one model, in provider order. */
  function CandidatesOf(upstream: map<string, Prices>, providers: seq<string>, model: string): seq<Candidate>
    requires forall p :: p in providers ==> p in upstream
  {
    if providers == [] then [] else
      var last := providers[|providers| - 1];
      var rest := CandidatesOf(upstream, providers[..|providers| - 1], model);
      if model !in upstream[last] then rest else
        match BuildCandidate(last, upstream[last][model])
        case None => rest
        case Some(c) => rest + [c]
  }

  ghost predicate Sorted(names: seq<string>) { forall i, j :: 0 <= i < j < |names| ==> Less(names[i], names[j]) }

  lemma {:induction false} CandidatesInOrder(upstream: map<string, Prices>, providers: seq<string>, model: string)
    requires Sorted(providers) && forall p :: p in providers ==> p in upstream
    ensures var cs := CandidatesOf(upstream, providers, model);
      ByProvider(cs) && Valid(cs) && forall i :: 0 <= i < |cs| ==> cs[i].provider in providers
    decreases |providers|
  {
    if providers != [] {
      var init := providers[..|providers| - 1];
      CandidatesInOrder(upstream, init, model);
      var cs := CandidatesOf(upstream, init, model);
      forall i | 0 <= i < |cs| ensures Less(cs[i].provider, providers[|providers| - 1]) {
        var j :| 0 <= j < |init| && init[j] == cs[i].provider;
      }
    }
  }

  function InsertName(name: string, sorted: seq<string>): (r: seq<string>)
    ensures forall n :: n in r <==> n == name || n in sorted
  {
    if sorted == [] || Less(name, sorted[0]) then [name] + sorted else [sorted[0]] + InsertName(name, sorted[1..])
  }

  lemma SortedCons(name: string, rest: seq<string>)
    requires Sorted(rest) && forall n :: n in rest ==> Less(name, n)
    ensures Sorted([name] + rest)
  {
    var all := [name] + rest;
    forall j | 0 < j < |all| ensures Less(name, all[j]) { assert all[j] == rest[j - 1] && rest[j - 1] in rest; }
  }

  lemma SortedTail(names: seq<string>)
    requires Sorted(names) && names != []
    ensures Sorted(names[1..]) && forall n :: n in names[1..] ==> Less(names[0], n)
  {}

  lemma {:induction false} InsertNameSorted(name: string, sorted: seq<string>)
    requires Sorted(sorted) && name !in sorted
    ensures Sorted(InsertName(name, sorted))
  {
    if sorted == [] {
    } else {
      SortedTail(sorted);
      if Less(name, sorted[0]) {
        forall n | n in sorted ensures Less(name, n) {
          if n != sorted[0] { assert n in sorted[1..]; LessTransitive(name, sorted[0], n); }
        }
        SortedCons(name, sorted);
      } else {
        LessTotal(name, sorted[0]);
        InsertNameSorted(name, sorted[1..]);
        SortedCons(sorted[0], InsertName(name, sorted[1..]));
      }
    }
  }

  method SortedNames(names: set<string>) returns (r: seq<string>)
    ensures Sorted(r) && forall n :: n in r <==> n in names
  {
    r := [];
    var left := names;
    while left != {}
      invariant left <= names && Sorted(r) && forall n :: n in r <==> n in names && n !in left
    {
      var name :| name in left;
      InsertNameSorted(name, r);
      r, left := InsertName(name, r), left - {name};
    }
  }

  /** What is selected after some providers: the choice among the candidates seen so far. */
  ghost predicate Selected(upstream: map<string, Prices>, providers: seq<string>, chosen: map<string, Candidate>)
    requires forall p :: p in providers ==> p in upstream
  {
    forall m ::
      && (m in chosen <==> CandidatesOf(upstream, providers, m) != [])
      && (m in chosen ==> chosen[m] == Chosen(CandidatesOf(upstream, providers, m)))
  }

  ghost predicate IsInOrder(upstream: map<string, Prices>, providers: seq<string>) {
    Sorted(providers) && forall p :: p in providers <==> p in upstream
  }

  ghost predicate SelectedBy(upstream: map<string, Prices>, providers: seq<string>, chosen: map<string, Candidate>) {
    IsInOrder(upstream, providers) && Selected(upstream, providers, chosen)
  }

  /** What is selected after all providers, in order of their names. */
  ghost predicate IsSelection(upstream: map<string, Prices>, chosen: map<string, Candidate>) {
    exists providers :: SelectedBy(upstream, providers, chosen)
  }

  /** Each model's candidates are met in provider order, and each is kept or replaces the current one. */
  method SelectCandidates(upstream: map<string, Prices>) returns (chosen: map<string, Candidate>)
    ensures IsSelection(upstream, chosen)
  {
    var names := SortedNames(upstream.Keys);
    chosen := SelectInOrder(upstream, names);
    assert SelectedBy(upstream, names, chosen);
  }

  method SelectInOrder(upstream: map<string, Prices>, names: seq<string>) returns (chosen: map<string, Candidate>)
    requires forall p :: p in names ==> p in upstream
    ensures Selected(upstream, names, chosen)
  {
    chosen := map[];
    var i := 0;
    while i < |names|
      invariant 0 <= i <= |names| && Selected(upstream, names[..i], chosen)
    {
      chosen := SelectFrom(upstream, names[..i], names[i], chosen);
      assert names[..i + 1] == names[..i] + [names[i]];
      i := i + 1;
    }
    assert names[..i] == names;
  }

  method SelectFrom(upstream: map<string, Prices>, ghost before: seq<string>, provider: string,
                    current: map<string, Candidate>)
    returns (chosen: map<string, Candidate>)
    requires provider in upstream && forall p :: p in before ==> p in upstream
    requires Selected(upstream, before, current)
    ensures Selected(upstream, before + [provider], chosen)
  {
    chosen := current;
    var models := upstream[provider].Keys;
    assert (before + [provider])[..|before|] == before;
    while models != {}
      invariant models <= upstream[provider].Keys
      invariant forall m :: m in models ==> (m in chosen <==> m in current) && (m in chosen ==> chosen[m] == current[m])
      invariant forall m :: m !in models ==>
        && (m in chosen <==> CandidatesOf(upstream, before + [provider], m) != [])
        && (m in chosen ==> chosen[m] == Chosen(CandidatesOf(upstream, before + [provider], m)))
    {
      var model :| model in models;
      var candidate := BuildCandidate(provider, upstream[provider][model]);
      ghost var seen := CandidatesOf(upstream, before, model);
      if candidate.Some? {
        ghost var all := seen + [candidate.value];
        assert all[..|all| - 1] == seen;
        if model !in chosen || ShouldReplace(chosen[model], candidate.value) {
          chosen := chosen[model := candidate.value];
        }
      }
      models := models - {model};
    }
  }

  lemma {:induction false} CandidateIsSeen(upstream: map<string, Prices>, providers: seq<string>, p: string,
                                           model: string)
    requires forall q :: q in providers ==> q in upstream
    requires p in providers && model in upstream[p] && BuildCandidate(p, upstream[p][model]).Some?
    ensures BuildCandidate(p, upstream[p][model]).value in CandidatesOf(upstream, providers, model)
    decreases |providers|
  {
    if providers[|providers| - 1] != p {
      assert p in providers[..|providers| - 1];
      CandidateIsSeen(upstream, providers[..|providers| - 1], p, model);
    }
  }

  /** Whatever upstream says: a model with any usable non-zero price gets one, below each of them plus the
      epsilon. */
  lemma SelectionIsLow(upstream: map<string, Prices>, chosen: map<string, Candidate>, p: string, model: string)
    requires IsSelection(upstream, chosen)
    requires p in upstream && model in upstream[p] && BuildCandidate(p, upstream[p][model]).Some?
    ensures model in chosen
    ensures upstream[p][model].input.value > 0.0 ==>
      0.0 < chosen[model].input < upstream[p][model].input.value + EPSILON
  {
    var providers :| SelectedBy(upstream, providers, chosen);
    var cs := CandidatesOf(upstream, providers, model);
    CandidateIsSeen(upstream, providers, p, model);
    CandidatesInOrder(upstream, providers, model);
    var k :| 0 <= k < |cs| && cs[k] == BuildCandidate(p, upstream[p][model]).value;
    if cs[k].input > 0.0 { ChosenIsLow(cs, k); }
  }

  lemma {:induction false} CandidateIsOffered(upstream: map<string, Prices>, providers: seq<string>, model: string,
                                              c: Candidate)
    requires forall q :: q in providers ==> q in upstream
    requires c in CandidatesOf(upstream, providers, model)
    ensures c.provider in upstream && model in upstream[c.provider]
    ensures BuildCandidate(c.provider, upstream[c.provider][model]) == Some(c)
    decreases |providers|
  {
    var last, init := providers[|providers| - 1], providers[..|providers| - 1];
    assert last in upstream;
    if c in CandidatesOf(upstream, init, model) { CandidateIsOffered(upstream, init, model, c); }
  }

  /** What is selected is a usable price its provider offers, and it is zero only when every usable price
      of the model is. */
  lemma SelectionIsOffered(upstream: map<string, Prices>, chosen: map<string, Candidate>, model: string)
    requires IsSelection(upstream, chosen) && model in chosen
    ensures chosen[model].provider in upstream && model in upstream[chosen[model].provider]
    ensures BuildCandidate(chosen[model].provider, upstream[chosen[model].provider][model]) == Some(chosen[model])
    ensures chosen[model].input == 0.0 ==>
      forall p :: p in upstream && model in upstream[p] && BuildCandidate(p, upstream[p][model]).Some? ==>
        upstream[p][model].input.value == 0.0
  {
    var providers :| SelectedBy(upstream, providers, chosen);
    CandidateIsOffered(upstream, providers, model, chosen[model]);
    forall p | p in upstream && model in upstream[p] &&
      BuildCandidate(p, upstream[p][model]).Some? && upstream[p][model].input.value != 0.0
      ensures chosen[model].input > 0.0
    {
      SelectionIsLow(upstream, chosen, p, model);
    }
  }

  /** The price is taken from the first provider that offers it: every usable non-zero price of an earlier
      provider is higher, and an earlier provider with a usable price is passed over only for a non-zero one. */
  lemma SelectionIsFirst(upstream: map<string, Prices>, chosen: map<string, Candidate>, p: string, model: string)
    requires IsSelection(upstream, chosen) && model in chosen && Less(p, chosen[model].provider)
    requires p in upstream && model in upstream[p] && BuildCandidate(p, upstream[p][model]).Some?
    ensures chosen[model].input > 0.0
    ensures upstream[p][model].input.value > 0.0 ==> chosen[model].input < upstream[p][model].input.value
  {
    var providers :| SelectedBy(upstream, providers, chosen);
    var cs := CandidatesOf(upstream, providers, model);
    CandidateIsSeen(upstream, providers, p, model);
    CandidatesInOrder(upstream, providers, model);
    var k :| 0 <= k < |cs| && cs[k] == BuildCandidate(p, upstream[p][model]).value;
    ChosenIsFirst(cs, k);
  }
}
