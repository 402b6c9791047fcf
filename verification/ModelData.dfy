/**
 What a provider does with its models and headers between refreshes: the overlay of dynamic models over
 the baseline, the merge of header lists whose names ignore case, and the price of a request.
 */
module ModelData {
  import opened Common

  // ---------------------------------------------------------------- the overlay of dynamic models

  type Details(==)

  datatype Model = Model(id: string, details: Details)

  /** What a lookup by id returns. */
  function Find(models: seq<Model>, id: string): Option<Model> {
    if models == [] then None else if models[0].id == id then Some(models[0]) else Find(models[1..], id)
  }

  function FindLast(models: seq<Model>, id: string): Option<Model> {
    if models == [] then None
    else if models[|models| - 1].id == id then Some(models[|models| - 1])
    else FindLast(models[..|models| - 1], id)
  }

  function Ids(models: seq<Model>): (ids: seq<string>)
    ensures |ids| == |models| && forall i :: 0 <= i < |models| ==> ids[i] == models[i].id
  {
    seq(|models|, i requires 0 <= i < |models| => models[i].id)
  }

  /** The ids of the second list not in the first, in order of first appearance. */
  function NewIds(known: seq<string>, models: seq<Model>): seq<string> {
    if models == [] then []
    else
      var before := NewIds(known, models[..|models| - 1]);
      var id := models[|models| - 1].id;
      if id in known || id in before then before else before + [id]
  }

  /** The list with `m` in the place of the first model of its id, or at the end. */
  function Overlaid(models: seq<Model>, m: Model): seq<Model> {
    if models == [] then [m]
    else if models[0].id == m.id then [m] + models[1..]
    else [models[0]] + Overlaid(models[1..], m)
  }

  function Overlay(baseline: seq<Model>, dynamics: seq<Model>): seq<Model> {
    if dynamics == [] then baseline
    else Overlaid(Overlay(baseline, dynamics[..|dynamics| - 1]), dynamics[|dynamics| - 1])
  }

  method CurrentModels(baselineModels: seq<Model>, dynamicModels: seq<Model>) returns (merged: seq<Model>)
    ensures merged == Overlay(baselineModels, dynamicModels)
  {
    merged := baselineModels;
    var d := 0;
    while d < |dynamicModels|
      invariant 0 <= d <= |dynamicModels|
      invariant merged == Overlay(baselineModels, dynamicModels[..d])
    {
      var model := dynamicModels[d];
      var index := 0;
      while index < |merged| && merged[index].id != model.id
        invariant 0 <= index <= |merged|
        invariant forall i :: 0 <= i < index ==> merged[i].id != model.id
      {
        index := index + 1;
      }
      OverlaidAt(merged, model, index);
      if index < |merged| { merged := merged[index := model]; } else { merged := merged + [model]; }
      assert dynamicModels[..d + 1][..d] == dynamicModels[..d];
      d := d + 1;
    }
    assert dynamicModels[..d] == dynamicModels;
  }

  lemma OverlaidPast(models: seq<Model>, m: Model)
    requires models != [] && models[0].id != m.id
    ensures Overlaid(models, m) == [models[0]] + Overlaid(models[1..], m)
  {
  }

  lemma {:induction false} OverlaidAt(models: seq<Model>, m: Model, index: nat)
    requires index <= |models| && forall i :: 0 <= i < index ==> models[i].id != m.id
    requires index < |models| ==> models[index].id == m.id
    ensures Overlaid(models, m) == if index < |models| then models[index := m] else models + [m]
    decreases |models|
  {
    if models != [] && models[0].id != m.id {
      OverlaidPast(models, m);
      hide Overlaid;
      var rest := models[1..];
      assert models == [models[0]] + rest;
      OverlaidAt(rest, m, index - 1);
      if index < |models| {
        assert [models[0]] + rest[index - 1 := m] == models[index := m];
      } else {
        assert [models[0]] + (rest + [m]) == models + [m];
      }
    }
  }

  lemma {:induction false} OverlaidFind(models: seq<Model>, m: Model, id: string)
    ensures Find(Overlaid(models, m), id) == if m.id == id then Some(m) else Find(models, id)
    decreases |models|
  {
    if models != [] && models[0].id != m.id {
      OverlaidFind(models[1..], m, id);
    }
  }

  /** A lookup finds the last dynamic model of the id, and the first baseline model only if there is none. */
  lemma {:induction false} OverlayFind(baseline: seq<Model>, dynamics: seq<Model>, id: string)
    ensures Find(Overlay(baseline, dynamics), id) ==
            if FindLast(dynamics, id).Some? then FindLast(dynamics, id) else Find(baseline, id)
    decreases |dynamics|
  {
    if dynamics != [] {
      var n := |dynamics| - 1;
      OverlayFind(baseline, dynamics[..n], id);
      OverlaidFind(Overlay(baseline, dynamics[..n]), dynamics[n], id);
    }
  }

  lemma {:induction false} OverlaidIds(models: seq<Model>, m: Model)
    ensures Ids(Overlaid(models, m)) == Ids(models) + if m.id in Ids(models) then [] else [m.id]
    decreases |models|
  {
    if models != [] && models[0].id != m.id {
      OverlaidIds(models[1..], m);
      assert Ids(models) == [models[0].id] + Ids(models[1..]);
    } else if models != [] {
      assert Ids(models)[0] == m.id;
    }
  }

  /** The baseline keeps its order, duplicates included; new models follow, each id once, as they first appear. */
  lemma {:induction false} OverlayIds(baseline: seq<Model>, dynamics: seq<Model>)
    ensures Ids(Overlay(baseline, dynamics)) == Ids(baseline) + NewIds(Ids(baseline), dynamics)
    decreases |dynamics|
  {
    if dynamics != [] {
      var n := |dynamics| - 1;
      OverlayIds(baseline, dynamics[..n]);
      OverlaidIds(Overlay(baseline, dynamics[..n]), dynamics[n]);
    }
  }

  lemma OverlaidKeepsIds(models: seq<Model>, m: Model)
    ensures |models| <= |Overlaid(models, m)|
    ensures forall j :: 0 <= j < |models| ==> Overlaid(models, m)[j].id == models[j].id
  {
    OverlaidIds(models, m);
    var o := Overlaid(models, m);
    assert |o| == |Ids(o)|;
    forall j | 0 <= j < |models| ensures o[j].id == models[j].id { assert Ids(o)[j] == Ids(models)[j]; }
  }

  lemma {:induction false} OverlaidRest(models: seq<Model>, m: Model, i: nat, j: nat)
    requires j < i < |models| && models[j].id == models[i].id
    ensures i < |Overlaid(models, m)| && Overlaid(models, m)[i] == models[i]
    decreases |models|
  {
    if models[0].id != m.id {
      if j > 0 {
        OverlaidRest(models[1..], m, i - 1, j - 1);
      } else {
        OverlaidOther(models[1..], m, i - 1);
      }
    }
  }

  lemma {:induction false} OverlaidOther(models: seq<Model>, m: Model, i: nat)
    requires i < |models| && models[i].id != m.id
    ensures i < |Overlaid(models, m)| && Overlaid(models, m)[i] == models[i]
    decreases |models|
  {
    if i > 0 && models[0].id != m.id { OverlaidOther(models[1..], m, i - 1); }
  }

  /** Only the first model of an id is ever replaced: a later duplicate in the baseline stays as it was. */
  lemma {:induction false} DuplicatesStay(baseline: seq<Model>, dynamics: seq<Model>, i: nat)
    requires i < |baseline| && exists j :: 0 <= j < i && baseline[j].id == baseline[i].id
    ensures i < |Overlay(baseline, dynamics)| && Overlay(baseline, dynamics)[i] == baseline[i]
    ensures forall j :: 0 <= j <= i ==> Overlay(baseline, dynamics)[j].id == baseline[j].id
    decreases |dynamics|
  {
    if dynamics != [] {
      var n := |dynamics| - 1;
      DuplicatesStay(baseline, dynamics[..n], i);
      var o := Overlay(baseline, dynamics[..n]);
      var j :| 0 <= j < i && baseline[j].id == baseline[i].id;
      assert o[j].id == o[i].id;
      OverlaidRest(o, dynamics[n], i, j);
      OverlaidKeepsIds(o, dynamics[n]);
    }
  }

  // ---------------------------------------------------------------- headers

  /** A header whose value may be null, which removes it further on. */
  datatype Header = Header(name: string, value: Option<string>)

  /** Headers in insertion order. */
  type Headers = seq<Header>

  type Folding = string -> string

  /** The headers whose name differs from `name` even when case is ignored. */
  function Without(h: Headers, name: string, lower: Folding): Headers {
    if h == [] then []
    else (if lower(h[0].name) == lower(name) then [] else [h[0]]) + Without(h[1..], name, lower)
  }

  /** The headers of one name, case ignored. */
  function Variants(h: Headers, key: string, lower: Folding): Headers {
    if h == [] then []
    else (if lower(h[0].name) == key then [h[0]] else []) + Variants(h[1..], key, lower)
  }

  /** `base` with each override taking the place of everything of its name. */
  function Merged(base: Headers, override: Headers, lower: Folding): Headers {
    if override == [] then base
    else
      var n := |override| - 1;
      Without(Merged(base, override[..n], lower), override[n].name, lower) + [override[n]]
  }

  /** The inner loop: delete what has the name, whatever its case. */
  method DeleteVariants(all: Headers, name: string, lower: Folding) returns (kept: Headers)
    ensures kept == Without(all, name, lower)
  {
    kept := [];
    var k := 0;
    WithoutStart(all, name, lower);
    while k < |all|
      invariant 0 <= k <= |all|
      invariant kept + Without(all[k..], name, lower) == Without(all, name, lower)
    {
      hide Without;
      WithoutNext(all, k, name, lower);
      if lower(all[k].name) != lower(name) {
        Regroup(kept, all[k], Without(all[k + 1..], name, lower));
        kept := kept + [all[k]];
      } else {
        assert [] + Without(all[k + 1..], name, lower) == Without(all[k + 1..], name, lower);
      }
      k := k + 1;
    }
    WithoutStart(all[k..], name, lower);
  }

  lemma Regroup<T>(a: seq<T>, x: T, b: seq<T>)
    ensures a + [x] + b == a + ([x] + b)
  {
  }

  method MergeHeaders(base: Option<Headers>, override: Option<Headers>, lower: Folding)
      returns (merged: Option<Headers>)
    ensures merged == if base.None? && override.None? then None
                      else Some(Merged(Given(base), Given(override), lower))
  {
    if base.None? && override.None? { return None; }
    var all := Given(base);
    var added := Given(override);
    var i := 0;
    while i < |added|
      invariant 0 <= i <= |added|
      invariant all == Merged(Given(base), added[..i], lower)
    {
      var kept := DeleteVariants(all, added[i].name, lower);
      all := kept + [added[i]];
      assert added[..i + 1][..i] == added[..i];
      i := i + 1;
    }
    assert added[..i] == added;
    return Some(all);
  }

  lemma WithoutStart(h: Headers, name: string, lower: Folding)
    ensures h == h[0..] && (h == [] ==> Without(h, name, lower) == [])
  {
  }

  lemma WithoutNext(h: Headers, k: nat, name: string, lower: Folding)
    requires k < |h|
    ensures Without(h[k..], name, lower) == (if lower(h[k].name) == lower(name) then []
      else [h[k]]) + Without(h[k + 1..], name, lower)
  {
    assert h[k..][1..] == h[k + 1..];
  }

  function Given(h: Option<Headers>): Headers { if h.Some? then h.value else [] }

  lemma {:induction false} VariantsAppend(a: Headers, b: Headers, key: string, lower: Folding)
    ensures Variants(a + b, key, lower) == Variants(a, key, lower) + Variants(b, key, lower)
    decreases |a|
  {
    if a == [] {
      assert a + b == b;
    } else {
      VariantsFirst(a, key, lower);
      VariantsFirst(a + b, key, lower);
      hide Variants;
      assert (a + b)[1..] == a[1..] + b;
      VariantsAppend(a[1..], b, key, lower);
      Associates(if lower(a[0].name) == key then [a[0]] else [], Variants(a[1..], key, lower), Variants(b, key, lower));
    }
  }

  lemma VariantsFirst(h: Headers, key: string, lower: Folding)
    requires h != []
    ensures Variants(h, key, lower) == (if lower(h[0].name) == key then [h[0]] else []) + Variants(h[1..], key, lower)
  {
  }

  lemma {:induction false} VariantsWithout(h: Headers, name: string, key: string, lower: Folding)
    ensures Variants(Without(h, name, lower), key, lower) == if key == lower(name) then [] else Variants(h, key, lower)
    decreases |h|
  {
    if h != [] {
      VariantsWithout(h[1..], name, key, lower);
      var own := if lower(h[0].name) == lower(name) then [] else [h[0]];
      VariantsAppend(own, Without(h[1..], name, lower), key, lower);
    }
  }

  lemma VariantsOne(h: Header, key: string, lower: Folding)
    ensures Variants([h], key, lower) == if lower(h.name) == key then [h] else []
  {
    assert [h][1..] == [];
  }

  function LastOnly(h: Headers): Headers { if h == [] then [] else [h[|h| - 1]] }

  /**
   Field names ignore case (section 5.1 of RFC 9110): whatever spellings `base` and `override` use, an
   overridden name keeps its last override alone, and every other name keeps what `base` had.
   */
  lemma {:induction false} OverrideWins(base: Headers, override: Headers, key: string, lower: Folding)
    ensures Variants(Merged(base, override, lower), key, lower) ==
            if Variants(override, key, lower) == [] then Variants(base, key, lower)
            else LastOnly(Variants(override, key, lower))
    decreases |override|
  {
    if override != [] {
      var n := |override| - 1;
      var before, h := Merged(base, override[..n], lower), override[n];
      MergedNext(base, override, lower);
      hide Merged, Without;
      OverrideWins(base, override[..n], key, lower);
      assert override == override[..n] + [h];
      VariantsAppend(override[..n], [h], key, lower);
      VariantsAppend(Without(before, h.name, lower), [h], key, lower);
      VariantsWithout(before, h.name, key, lower);
      VariantsOne(h, key, lower);
      hide Variants;
      if lower(h.name) == key {
        assert (Variants(override[..n], key, lower) + [h])[|Variants(override[..n], key, lower)|] == h;
      } else {
        assert Variants(override, key, lower) == Variants(override[..n], key, lower);
      }
    } else {
      assert Variants(override, key, lower) == [];
    }
  }

  lemma MergedNext(base: Headers, override: Headers, lower: Folding)
    requires override != []
    ensures var n := |override| - 1;
      Merged(base, override, lower) == Without(Merged(base, override[..n], lower), override[n].name,
          lower) + [override[n]]
  {
  }

  lemma {:induction false} WithoutAppend(a: Headers, b: Headers, name: string, lower: Folding)
    ensures Without(a + b, name, lower) == Without(a, name, lower) + Without(b, name, lower)
    decreases |a|
  {
    if a == [] {
      assert a + b == b;
    } else {
      WithoutNext(a, 0, name, lower);
      WithoutNext(a + b, 0, name, lower);
      hide Without;
      assert a[0..] == a && (a + b)[0..] == a + b && (a + b)[1..] == a[1..] + b;
      WithoutAppend(a[1..], b, name, lower);
      Associates(if lower(a[0].name) == lower(name) then []
          else [a[0]], Without(a[1..], name, lower), Without(b, name, lower));
    }
  }

  lemma {:induction false} WithoutTwice(h: Headers, m: string, n: string, lower: Folding)
    ensures Without(Without(h, m, lower), n, lower) == Without(Without(h, n, lower), m, lower)
    ensures lower(m) == lower(n) ==> Without(Without(h, m, lower), n, lower) == Without(h, m, lower)
    decreases |h|
  {
    if h != [] {
      WithoutTwice(h[1..], m, n, lower);
      WithoutOne(h[0], m, lower);
      WithoutOne(h[0], n, lower);
      WithoutAppend(Without([h[0]], m, lower), Without(h[1..], m, lower), n, lower);
      WithoutAppend(Without([h[0]], n, lower), Without(h[1..], n, lower), m, lower);
    }
  }

  lemma WithoutOne(h: Header, name: string, lower: Folding)
    ensures Without([h], name, lower) == if lower(h.name) == lower(name) then [] else [h]
  {
    assert [h][1..] == [];
  }

  lemma MergedSnoc(base: Headers, override: Headers, h: Header, lower: Folding)
    ensures Merged(base, override + [h], lower) == Without(Merged(base, override, lower), h.name, lower) + [h]
  {
    assert (override + [h])[..|override|] == override;
  }

  /** Dropping a name commutes with merging. */
  lemma {:induction false} WithoutMerged(a: Headers, b: Headers, name: string, lower: Folding)
    ensures Without(Merged(a, b, lower), name, lower) == Merged(Without(a, name, lower), Without(b, name, lower), lower)
    decreases |b|
  {
    if b != [] {
      hide Merged, Without;
      var rest, h := b[..|b| - 1], b[|b| - 1];
      assert b == rest + [h];
      WithoutMerged(a, rest, name, lower);
      WithoutMergedNext(a, rest, h, name, lower);
    }
  }

  lemma WithoutMergedNext(a: Headers, rest: Headers, h: Header, name: string, lower: Folding)
    requires Without(Merged(a, rest, lower), name, lower) == Merged(Without(a, name, lower), Without(rest, name, lower),
      lower)
    ensures Without(Merged(a, rest + [h], lower), name, lower) ==
            Merged(Without(a, name, lower), Without(rest + [h], name, lower), lower)
  {
    var m, kept := Merged(a, rest, lower), Without(rest, name, lower);
    MergedSnoc(a, rest, h, lower);
    MergedSnoc(Without(a, name, lower), kept, h, lower);
    WithoutOne(h, name, lower);
    hide Merged, Without;
    WithoutAppend(rest, [h], name, lower);
    WithoutAppend(Without(m, h.name, lower), [h], name, lower);
    WithoutTwice(m, h.name, name, lower);
    if lower(h.name) == lower(name) {
      assert kept + [] == kept;
      SameDrop(m, h.name, name, lower);
      assert Without(m, h.name, lower) + [] == Without(m, h.name, lower);
    }
  }

  lemma {:induction false} SameDrop(h: Headers, m: string, n: string, lower: Folding)
    requires lower(m) == lower(n)
    ensures Without(h, m, lower) == Without(h, n, lower)
    decreases |h|
  {
    if h != [] { SameDrop(h[1..], m, n, lower); }
  }

  /** Of one name, only the last mention counts: dropping it from the overrides as well changes nothing. */
  lemma {:induction false} MergedDropped(a: Headers, b: Headers, name: string, lower: Folding)
    ensures Without(Merged(a, b, lower), name, lower) == Without(Merged(a, Without(b, name, lower), lower), name, lower)
  {
    WithoutMerged(a, b, name, lower);
    WithoutMerged(a, Without(b, name, lower), name, lower);
    WithoutTwice(b, name, name, lower);
  }

  /** Merging in two steps or in one gives the same headers in the same order. */
  lemma {:induction false} MergeAssociates(a: Headers, b: Headers, c: Headers, lower: Folding)
    ensures Merged(Merged(a, b, lower), c, lower) == Merged(a, Merged(b, c, lower), lower)
    decreases |c|
  {
    if c != [] {
      var n := |c| - 1;
      var rest, h := c[..n], c[n];
      MergeAssociates(a, b, rest, lower);
      var bc := Merged(b, rest, lower);
      var dropped := Without(bc, h.name, lower);
      assert (dropped + [h])[..|dropped|] == dropped;
      MergedDropped(a, bc, h.name, lower);
    }
  }

  // ---------------------------------------------------------------- the price of a request

  datatype Rates = Rates(input: real, output: real, cacheRead: real, cacheWrite: real)

  datatype Tier = Tier(inputTokensAbove: int, rates: Rates)

  datatype Pricing = Pricing(rates: Rates, tiers: seq<Tier>)

  datatype Usage = Usage(input: nat, output: nat, cacheRead: nat, cacheWrite: nat, cacheWrite1h: nat)

  datatype Cost = Cost(input: real, output: real, cacheRead: real, cacheWrite: real, total: real)

  predicate Matches(t: Tier, tokens: nat) { tokens > t.inputTokensAbove >= 0 }

  /** The rates of the highest tier the request exceeds, the first one if several have its threshold. */
  ghost predicate Applicable(p: Pricing, tokens: nat, rates: Rates) {
    if forall t :: t in p.tiers ==> !Matches(t, tokens) then rates == p.rates
    else exists k :: 0 <= k < |p.tiers| && rates == p.tiers[k].rates && Matches(p.tiers[k], tokens)
                     && (forall i :: 0 <= i < |p.tiers| && Matches(p.tiers[i], tokens) ==>
                         p.tiers[i].inputTokensAbove <= p.tiers[k].inputTokensAbove)
                     && (forall i :: 0 <= i < k ==> p.tiers[i].inputTokensAbove != p.tiers[k].inputTokensAbove)
  }

  /** There is one answer. */
  lemma ApplicableUnique(p: Pricing, tokens: nat, a: Rates, b: Rates)
    requires Applicable(p, tokens, a) && Applicable(p, tokens, b)
    ensures a == b
  {
  }

  /** One million tokens of each kind cost the rate; a write kept for an hour costs twice the input rate. */
  ghost predicate Charged(u: Usage, r: Rates, c: Cost) {
    && c.input * 1000000.0 == r.input * u.input as real
    && c.output * 1000000.0 == r.output * u.output as real
    && c.cacheRead * 1000000.0 == r.cacheRead * u.cacheRead as real
    && c.cacheWrite * 1000000.0 ==
       r.cacheWrite * (u.cacheWrite - u.cacheWrite1h) as real + r.input * 2.0 * u.cacheWrite1h as real
    && c.total == c.input + c.output + c.cacheRead + c.cacheWrite
  }

  method CalculateCost(pricing: Pricing, usage: Usage) returns (cost: Cost)
    ensures exists rates :: Applicable(pricing, usage.input + usage.cacheRead + usage.cacheWrite,
      rates) && Charged(usage, rates, cost)
  {
    hide Applicable;
    var inputTokens := usage.input + usage.cacheRead + usage.cacheWrite;
    var chosen := ChooseRates(pricing, inputTokens);
    var longWrite := usage.cacheWrite1h;
    var shortWrite := usage.cacheWrite - longWrite;
    var input := PerMillion(chosen.input, usage.input);
    var output := PerMillion(chosen.output, usage.output);
    var cacheRead := PerMillion(chosen.cacheRead, usage.cacheRead);
    var writes := chosen.cacheWrite * shortWrite as real + chosen.input * 2.0 * longWrite as real;
    Divided(writes);
    cost := Cost(input, output, cacheRead, writes / 1000000.0, input + output + cacheRead + writes / 1000000.0);
    assert Charged(usage, chosen, cost);
    assert Applicable(pricing, usage.input + usage.cacheRead + usage.cacheWrite, chosen);
  }

  lemma Divided(x: real)
    ensures (x / 1000000.0) * 1000000.0 == x
  {
  }

  method ChooseRates(pricing: Pricing, inputTokens: nat) returns (chosen: Rates)
    ensures Applicable(pricing, inputTokens, chosen)
  {
    chosen := pricing.rates;
    var matchedThreshold := -1;
    ghost var at := 0;
    var i := 0;
    while i < |pricing.tiers|
      invariant 0 <= i <= |pricing.tiers| && matchedThreshold >= -1
      invariant matchedThreshold == -1 ==> chosen == pricing.rates && forall j :: 0 <= j < i ==>
        !Matches(pricing.tiers[j], inputTokens)
      invariant matchedThreshold >= 0 ==>
                  && 0 <= at < i && pricing.tiers[at].inputTokensAbove == matchedThreshold < inputTokens
                  && chosen == pricing.tiers[at].rates
                  && (forall j :: 0 <= j < at ==> pricing.tiers[j].inputTokensAbove != matchedThreshold)
                  && (forall j :: 0 <= j < i && Matches(pricing.tiers[j], inputTokens) ==>
                      pricing.tiers[j].inputTokensAbove <= matchedThreshold)
    {
      var tier := pricing.tiers[i];
      if inputTokens > tier.inputTokensAbove && tier.inputTokensAbove > matchedThreshold {
        chosen, matchedThreshold, at := tier.rates, tier.inputTokensAbove, i;
      }
      i := i + 1;
    }
    if matchedThreshold >= 0 {
      assert Matches(pricing.tiers[at], inputTokens);
      assert pricing.tiers[at] in pricing.tiers;
    } else {
      assert forall t :: t in pricing.tiers ==> !Matches(t, inputTokens);
    }
  }

  function PerMillion(rate: real, tokens: nat): (c: real)
    ensures c * 1000000.0 == rate * tokens as real
  {
    ScaleDown(rate, tokens as real);
    (rate / 1000000.0) * tokens as real
  }

  lemma ScaleDown(rate: real, tokens: real)
    ensures (rate / 1000000.0) * tokens * 1000000.0 == rate * tokens
  {
    var q := rate / 1000000.0;
    assert rate == q * 1000000.0;
    assert q * tokens * 1000000.0 == q * 1000000.0 * tokens;
  }
}
