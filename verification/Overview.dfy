// Prices per model, and the cost of one request.
module Pricing {
  import opened Wrappers

  datatype Tier = Tier(threshold: int, inputMultiplier: real, outputMultiplier: real)

  datatype Price = Price(
    pattern: string, input: real, output: real, cacheRead: real, cacheCreation: real, reasoning: real, longContext: Option<Tier>)

  datatype Usage = Usage(input: int, output: int, cached: int, reasoning: int, cacheCreation: int) {
    function Add(u: Usage): Usage {
      Usage(input + u.input, output + u.output, cached + u.cached, reasoning + u.reasoning, cacheCreation + u.cacheCreation)
    }
  }

  const NO_USAGE := Usage(0, 0, 0, 0, 0)

  const FALLBACK := Price("", 3.0, 15.0, 0.3, 3.75, 15.0, None)

  // ---- which price ----

  function Lower(s: string): (r: string)
    ensures |r| == |s|
  {
    seq(|s|, i requires 0 <= i < |s| => if 'A' <= s[i] <= 'Z' then (s[i] as int + 32) as char else s[i])
  }

  function TrimPercent(s: string): string
    decreases |s|
  {
    if s != "" && s[|s| - 1] == '%' then TrimPercent(s[..|s| - 1]) else s
  }

  predicate OccursAt(s: string, part: string, i: nat) { i + |part| <= |s| && s[i..i + |part|] == part }

  predicate Contains(s: string, part: string) { exists i :: 0 <= i <= |s| && OccursAt(s, part, i) }

  function PatternOf(p: Price): string { Lower(TrimPercent(p.pattern)) }

  function LengthOf(p: Price): nat { ByteLength(PatternOf(p)) }

  // Lengths are in bytes of UTF-8.
  function CharBytes(c: char): nat {
    if c as int < 0x80 then 1 else if c as int < 0x800 then 2 else if c as int < 0x1_0000 then 3 else 4
  }

  function ByteLength(s: string): (n: nat)
    ensures n >= |s|
    decreases |s|
  {
    if s == "" then 0 else CharBytes(s[0]) + ByteLength(s[1..])
  }

  predicate Matches(p: Price, model: string) { PatternOf(p) != "" && Contains(Lower(model), PatternOf(p)) }

  // The longest pattern wins, the earlier entry on ties.
  ghost predicate IsBest(entries: seq<Price>, model: string, best: Option<nat>) {
    match best
    case None => forall j :: 0 <= j < |entries| ==> !Matches(entries[j], model)
    case Some(i) =>
      && i < |entries| && Matches(entries[i], model)
      && forall j :: 0 <= j < |entries| && Matches(entries[j], model) ==>
           LengthOf(entries[j]) <= LengthOf(entries[i]) && (LengthOf(entries[j]) == LengthOf(entries[i]) ==> i <= j)
  }

  function Best(entries: seq<Price>, model: string): (best: Option<nat>)
    ensures best.Some? ==> best.value < |entries|
    decreases |entries|
  {
    if entries == [] then None
    else
      var n := |entries| - 1;
      var before := Best(entries[..n], model);
      if Matches(entries[n], model) && (before.None? || LengthOf(entries[n]) > LengthOf(entries[before.value])) then Some(n)
      else before
  }

  lemma {:induction false} BestIsBest(entries: seq<Price>, model: string)
    ensures IsBest(entries, model, Best(entries, model))
    decreases |entries|
  {
    if entries != [] {
      var init := entries[..|entries| - 1];
      BestIsBest(init, model);
      hide Matches, PatternOf, LengthOf;
      assert forall j :: 0 <= j < |init| ==> entries[j] == init[j];
    }
  }

  // `matched`: the longest pattern found in the model's name.
  method Matched(entries: seq<Price>, model: string) returns (best: Option<Price>)
    ensures best == match Best(entries, model) case None => None case Some(i) => Some(entries[i])
    ensures exists i :: IsBest(entries, model, i) && best == match i case None => None case Some(k) => Some(entries[k])
  {
    var lower := Lower(model);
    best := None;
    var bestLen := 0;
    for n := 0 to |entries|
      invariant best == match Best(entries[..n], model) case None => None case Some(i) => Some(entries[i])
      invariant bestLen == match best case None => 0 case Some(p) => LengthOf(p)
    {
      assert entries[..n + 1][..n] == entries[..n];
      var pattern := PatternOf(entries[n]);
      if pattern != "" && Contains(lower, pattern) && ByteLength(pattern) > bestLen {
        best := Some(entries[n]);
        bestLen := ByteLength(pattern);
      }
    }
    assert entries[..|entries|] == entries;
    BestIsBest(entries, model);
  }

  function PriceFor(entries: seq<Price>, model: string): Price {
    match Best(entries, model)
    case None => FALLBACK
    case Some(i) => entries[i]
  }

  // ---- what a request costs ----

  function Max(a: int, b: int): int { if a < b then b else a }

  function Clamp(x: int, low: int, high: int): int { if x < low then low else if x > high then high else x }

  // Five disjoint buckets from counters that may not make sense.
  function Normalized(u: Usage): Usage {
    Usage(Max(u.input, 0), Max(u.output, 0), Clamp(u.cached, 0, Max(u.input, 0)), Clamp(u.reasoning, 0, Max(u.output, 0)),
          Max(u.cacheCreation, 0))
  }

  predicate WellFormed(u: Usage) { 0 <= u.cached <= u.input && 0 <= u.reasoning <= u.output && 0 <= u.cacheCreation }

  function MaxReal(a: real, b: real): real { if a < b then b else a }

  function InputMultiplier(p: Price, long: bool): real {
    if long && p.longContext.Some? then MaxReal(p.longContext.value.inputMultiplier, 0.0) else 1.0
  }

  function OutputMultiplier(p: Price, long: bool): real {
    if long && p.longContext.Some? then MaxReal(p.longContext.value.outputMultiplier, 0.0) else 1.0
  }

  function ReasoningRate(p: Price): real { if p.reasoning > 0.0 then p.reasoning else p.output }

  const MILLION: real := 1000000.0

  // `estimate_usd_for_context`.
  function ForContext(p: Price, u: Usage, long: bool): real {
    var cached, reasoning := Clamp(u.cached, 0, Max(u.input, 0)), Clamp(u.reasoning, 0, Max(u.output, 0));
    (((Max(u.input, 0) - cached) as real * p.input + cached as real * p.cacheRead
      + Max(u.cacheCreation, 0) as real * p.cacheCreation) * InputMultiplier(p, long)
     + ((Max(u.output, 0) - reasoning) as real * p.output + reasoning as real * ReasoningRate(p)) * OutputMultiplier(p, long))
    / MILLION
  }

  predicate IsLong(p: Price, input: int) { p.longContext.Some? && input > Max(p.longContext.value.threshold, 0) }

  // `estimate_usd`: one request, priced in the tier its own input puts it in.
  function Estimate(p: Price, u: Usage): real { ForContext(p, u, IsLong(p, Max(u.input, 0))) }

  // `cache_savings_usd_for_context`.
  function Savings(p: Price, cached: int, long: bool): real {
    MaxReal(Max(cached, 0) as real * (p.input - p.cacheRead) * InputMultiplier(p, long) / MILLION, 0.0)
  }

  // Normalizing first changes no price.
  lemma NormalizedPrices(p: Price, u: Usage, long: bool)
    ensures WellFormed(Normalized(u)) && ForContext(p, Normalized(u), long) == ForContext(p, u, long)
    ensures WellFormed(u) ==> Normalized(u) == u
    ensures IsLong(p, Normalized(u).input) == IsLong(p, Max(u.input, 0)) == IsLong(p, u.input)
  {
  }

  // On well-formed counters the price is linear, so totals of one tier cost what their parts cost.
  lemma PricesAdd(p: Price, u: Usage, v: Usage, long: bool)
    requires WellFormed(u) && WellFormed(v)
    ensures WellFormed(u.Add(v)) && ForContext(p, u.Add(v), long) == ForContext(p, u, long) + ForContext(p, v, long)
  {
    LinearOnWellFormed(p, u, long);
    LinearOnWellFormed(p, v, long);
    LinearOnWellFormed(p, u.Add(v), long);
    hide ForContext;
    Distribute(p.input, (u.input - u.cached) as real, (v.input - v.cached) as real);
    Distribute(p.cacheRead, u.cached as real, v.cached as real);
    Distribute(p.cacheCreation, u.cacheCreation as real, v.cacheCreation as real);
    Distribute(p.output, (u.output - u.reasoning) as real, (v.output - v.reasoning) as real);
    Distribute(ReasoningRate(p), u.reasoning as real, v.reasoning as real);
    Distribute(InputMultiplier(p, long), InputSide(p, u), InputSide(p, v));
    Distribute(OutputMultiplier(p, long), OutputSide(p, u), OutputSide(p, v));
  }

  function InputSide(p: Price, u: Usage): real {
    (u.input - u.cached) as real * p.input + u.cached as real * p.cacheRead + u.cacheCreation as real * p.cacheCreation
  }

  function OutputSide(p: Price, u: Usage): real {
    (u.output - u.reasoning) as real * p.output + u.reasoning as real * ReasoningRate(p)
  }

  lemma LinearOnWellFormed(p: Price, u: Usage, long: bool)
    requires WellFormed(u)
    ensures ForContext(p, u, long)
            == (InputSide(p, u) * InputMultiplier(p, long) + OutputSide(p, u) * OutputMultiplier(p, long)) / MILLION
  {
  }

  lemma Distribute(rate: real, a: real, b: real)
    ensures (a + b) * rate == a * rate + b * rate
  {
  }

  lemma SavingsAdd(p: Price, a: int, b: int, long: bool)
    requires a >= 0 && b >= 0
    ensures Savings(p, a + b, long) == Savings(p, a, long) + Savings(p, b, long)
  {
    var rate := (p.input - p.cacheRead) * InputMultiplier(p, long) / MILLION;
    SavingsRate(p, a, long, rate);
    SavingsRate(p, b, long, rate);
    SavingsRate(p, a + b, long, rate);
    hide Savings;
    Distribute(rate, a as real, b as real);
    Distribute(0.0, a as real, b as real);
  }

  lemma SavingsRate(p: Price, cached: int, long: bool, rate: real)
    requires cached >= 0 && rate == (p.input - p.cacheRead) * InputMultiplier(p, long) / MILLION
    ensures Savings(p, cached, long) == cached as real * (if rate < 0.0 then 0.0 else rate)
  {
    var c := cached as real;
    assert c * (p.input - p.cacheRead) * InputMultiplier(p, long) / MILLION == c * rate;
    SignOfProduct(c, rate);
  }

  lemma SignOfProduct(c: real, rate: real)
    requires c >= 0.0
    ensures rate < 0.0 ==> c * rate <= 0.0
    ensures rate >= 0.0 ==> c * rate >= 0.0
  {
  }
}

// The cost on the overview page, computed in one pass over the rows or from grouped totals.
module Overview {
  import opened Pricing

  const ONE_PASS_OVERVIEW_THRESHOLD: nat := 100000

  // What every model costs.
  type Prices = string -> Price

  function PriceAt(prices: Prices, model: string): Price { prices(model) }

  function Table(table: seq<Price>): Prices { model => PriceFor(table, model) }

  // A row of `exchanges`, missing counters read as 0.
  datatype Row = Row(model: string, usage: Usage)

  // ---- what the cost should be ----

  function TotalCost(prices: Prices, rows: seq<Row>): real
    decreases |rows|
  {
    if rows == [] then 0.0
    else TotalCost(prices, rows[..|rows| - 1]) + CostOf(prices, rows[|rows| - 1])
  }

  function CostOf(prices: Prices, row: Row): real { Estimate(PriceAt(prices, row.model), row.usage) }

  function TotalSavings(prices: Prices, rows: seq<Row>): real
    decreases |rows|
  {
    if rows == [] then 0.0
    else TotalSavings(prices, rows[..|rows| - 1]) + SavingsOf(prices, rows[|rows| - 1])
  }

  function SavingsOf(prices: Prices, row: Row): real {
    Savings(PriceAt(prices, row.model), Normalized(row.usage).cached, LongFor(prices, row))
  }

  function LongFor(prices: Prices, row: Row): bool { IsLong(PriceAt(prices, row.model), row.usage.input) }

  // ---- groups ----

  // A model and one of its context tiers.
  type Group = (string, bool)

  function UsageOf(groups: map<Group, Usage>, g: Group): Usage { if g in groups then groups[g] else NO_USAGE }

  // What a group's totals are worth: cost and savings.
  function Worth(prices: Prices, g: Group, u: Usage): (real, real) {
    (ForContext(PriceAt(prices, g.0), u, g.1), Savings(PriceAt(prices, g.0), u.cached, g.1))
  }

  function Plus(a: (real, real), b: (real, real)): (real, real) { (a.0 + b.0, a.1 + b.1) }

  // The worth of all groups; the order of the keys does not matter.
  ghost function AllWorth(prices: Prices, groups: map<Group, Usage>, keys: set<Group>): (real, real)
    decreases keys
  {
    if keys == {} then (0.0, 0.0)
    else
      var g :| g in keys;
      Plus(Worth(prices, g, UsageOf(groups, g)), AllWorth(prices, groups, keys - {g}))
  }

  lemma PlusSwaps(a: (real, real), b: (real, real), c: (real, real))
    ensures Plus(a, Plus(b, c)) == Plus(b, Plus(a, c))
  {
  }

  lemma {:induction false} AnyKeyFirst(prices: Prices, groups: map<Group, Usage>, keys: set<Group>, g: Group)
    requires g in keys
    ensures AllWorth(prices, groups, keys) == Plus(Worth(prices, g, UsageOf(groups, g)), AllWorth(prices, groups, keys - {g}))
    decreases keys
  {
    hide Worth, Plus;
    var h :| h in keys && AllWorth(prices, groups, keys)
                          == Plus(Worth(prices, h, UsageOf(groups, h)), AllWorth(prices, groups, keys - {h}));
    if h != g {
      AnyKeyFirst(prices, groups, keys - {h}, g);
      AnyKeyFirst(prices, groups, keys - {g}, h);
      assert keys - {h} - {g} == keys - {g} - {h};
      PlusSwaps(Worth(prices, h, UsageOf(groups, h)), Worth(prices, g, UsageOf(groups, g)), AllWorth(prices, groups, keys - {h} - {g}));
    }
  }

  lemma {:induction false} WorthLocal(prices: Prices, a: map<Group, Usage>, b: map<Group, Usage>, keys: set<Group>)
    requires forall g :: g in keys ==> UsageOf(a, g) == UsageOf(b, g)
    ensures AllWorth(prices, a, keys) == AllWorth(prices, b, keys)
    decreases keys
  {
    hide Worth;
    if keys != {} {
      var g :| g in keys;
      AnyKeyFirst(prices, a, keys, g);
      AnyKeyFirst(prices, b, keys, g);
      WorthLocal(prices, a, b, keys - {g});
    }
  }

  // One more row in its group.
  function Grouped(groups: map<Group, Usage>, g: Group, u: Usage): map<Group, Usage> { groups[g := UsageOf(groups, g).Add(u)] }

  lemma GroupedWorth(prices: Prices, groups: map<Group, Usage>, g: Group, u: Usage)
    requires AllWellFormed(groups) && WellFormed(u)
    ensures AllWellFormed(Grouped(groups, g, u))
    ensures AllWorth(prices, Grouped(groups, g, u), Grouped(groups, g, u).Keys)
            == Plus(AllWorth(prices, groups, groups.Keys), Worth(prices, g, u))
  {
    var next, was := Grouped(groups, g, u), UsageOf(groups, g);
    assert WellFormed(was) && WellFormed(was.Add(u)) && AllWellFormed(next);
    hide Worth, Plus, Usage.Add, WellFormed;
    AnyKeyFirst(prices, next, next.Keys, g);
    WorthLocal(prices, groups, next, groups.Keys - {g});
    assert next.Keys - {g} == groups.Keys - {g};
    WorthAdds(prices, g, was, u);
    var rest := AllWorth(prices, groups, groups.Keys - {g});
    if g in groups {
      AnyKeyFirst(prices, groups, groups.Keys, g);
    } else {
      NoUsageIsFree(prices, g);
      assert groups.Keys - {g} == groups.Keys;
      PlusZero(rest);
    }
    PlusRotates(Worth(prices, g, was), Worth(prices, g, u), rest);
  }

  lemma PlusZero(a: (real, real))
    ensures Plus((0.0, 0.0), a) == a
  {
  }

  lemma PlusRotates(a: (real, real), b: (real, real), c: (real, real))
    ensures Plus(Plus(a, b), c) == Plus(Plus(a, c), b)
  {
  }

  lemma WorthAdds(prices: Prices, g: Group, u: Usage, v: Usage)
    requires WellFormed(u) && WellFormed(v)
    ensures Worth(prices, g, u.Add(v)) == Plus(Worth(prices, g, u), Worth(prices, g, v))
  {
    PricesAdd(PriceAt(prices, g.0), u, v, g.1);
    SavingsAdd(PriceAt(prices, g.0), u.cached, v.cached, g.1);
    hide ForContext, Savings, PriceFor;
  }

  lemma NoUsageIsFree(prices: Prices, g: Group)
    ensures Worth(prices, g, NO_USAGE) == (0.0, 0.0)
  {
    var p := PriceAt(prices, g.0);
    LinearOnWellFormed(p, NO_USAGE, g.1);
    SavingsRate(p, 0, g.1, (p.input - p.cacheRead) * InputMultiplier(p, g.1) / MILLION);
    ZeroSides(p);
    ZeroTimes(InputMultiplier(p, g.1));
    ZeroTimes(OutputMultiplier(p, g.1));
    hide ForContext, Savings, PriceFor, InputSide, OutputSide;
  }

  lemma ZeroTimes(x: real)
    ensures 0.0 * x == 0.0
  {
  }

  lemma ZeroSides(p: Price)
    ensures InputSide(p, NO_USAGE) == 0.0 && OutputSide(p, NO_USAGE) == 0.0
  {
    ZeroTimes(p.input);
    ZeroTimes(p.cacheRead);
    ZeroTimes(p.cacheCreation);
    ZeroTimes(p.output);
    ZeroTimes(ReasoningRate(p));
  }

  ghost predicate AllWellFormed(groups: map<Group, Usage>) { forall g :: g in groups ==> WellFormed(groups[g]) }

  lemma RowWorth(prices: Prices, row: Row)
    ensures Worth(prices, (row.model, LongFor(prices, row)), Normalized(row.usage)) == (CostOf(prices, row), SavingsOf(prices, row))
  {
    NormalizedPrices(PriceAt(prices, row.model), row.usage, LongFor(prices, row));
    hide ForContext, Savings, PriceFor;
  }

  lemma TotalsSnoc(prices: Prices, init: seq<Row>, last: Row)
    ensures TotalCost(prices, init + [last]) == TotalCost(prices, init) + CostOf(prices, last)
    ensures TotalSavings(prices, init + [last]) == TotalSavings(prices, init) + SavingsOf(prices, last)
  {
    assert (init + [last])[..|init|] == init;
  }

  ghost predicate WorthOfRows(prices: Prices, groups: map<Group, Usage>, rows: seq<Row>) {
    && AllWellFormed(groups)
    && AllWorth(prices, groups, groups.Keys) == (TotalCost(prices, rows), TotalSavings(prices, rows))
  }

  // A row, normalized, joins its group.
  lemma RowJoins(prices: Prices, groups: map<Group, Usage>, init: seq<Row>, last: Row)
    requires WorthOfRows(prices, groups, init)
    ensures WorthOfRows(prices, Grouped(groups, (last.model, LongFor(prices, last)), Normalized(last.usage)), init + [last])
  {
    NormalizedPrices(PriceAt(prices, last.model), last.usage, false);
    RowWorth(prices, last);
    hide Worth, AllWorth, CostOf, SavingsOf, PriceFor, Grouped, AllWellFormed, Normalized, WellFormed, LongFor, TotalCost, TotalSavings;
    TotalsSnoc(prices, init, last);
    GroupedWorth(prices, groups, (last.model, LongFor(prices, last)), Normalized(last.usage));
  }

  // GROUP BY model and tier, of the rows as they are and of the rows normalized.
  function RawTotals(prices: Prices, rows: seq<Row>): map<Group, Usage>
    decreases |rows|
  {
    if rows == [] then map[]
    else
      var last := rows[|rows| - 1];
      Grouped(RawTotals(prices, rows[..|rows| - 1]), (last.model, LongFor(prices, last)), last.usage)
  }

  function NormalTotals(prices: Prices, rows: seq<Row>): map<Group, Usage>
    decreases |rows|
  {
    if rows == [] then map[]
    else
      var last := rows[|rows| - 1];
      Grouped(NormalTotals(prices, rows[..|rows| - 1]), (last.model, LongFor(prices, last)), Normalized(last.usage))
  }

  lemma NormalSnoc(prices: Prices, init: seq<Row>, last: Row)
    ensures NormalTotals(prices, init + [last])
            == Grouped(NormalTotals(prices, init), (last.model, LongFor(prices, last)), Normalized(last.usage))
  {
    hide Grouped, Normalized, LongFor;
    assert (init + [last])[..|init|] == init;
  }

  lemma NothingIsWorth(prices: Prices)
    ensures WorthOfRows(prices, map[], [])
  {
  }

  // Normalized totals are worth what the rows cost, whatever the rows are.
  lemma {:induction false} TotalsAreWorth(prices: Prices, rows: seq<Row>)
    ensures WorthOfRows(prices, NormalTotals(prices, rows), rows)
    decreases |rows|
  {
    hide WorthOfRows, Grouped, Normalized, LongFor;
    if rows == [] {
      NothingIsWorth(prices);
    } else {
      var init, last := rows[..|rows| - 1], rows[|rows| - 1];
      TotalsAreWorth(prices, init);
      RowJoins(prices, NormalTotals(prices, init), init, last);
      NormalSnoc(prices, init, last);
      assert rows == init + [last];
    }
  }

  // The sum over the groups, in whatever order they come.
  method SumGroups(table: seq<Price>, groups: map<Group, Usage>) returns (cost: real, savings: real)
    ensures (cost, savings) == AllWorth(Table(table), groups, groups.Keys)
  {
    cost, savings := 0.0, 0.0;
    var todo := groups.Keys;
    while todo != {}
      invariant todo <= groups.Keys
      invariant AllWorth(Table(table), groups, groups.Keys) == Plus((cost, savings), AllWorth(Table(table), groups, todo))
      decreases todo
    {
      var g :| g in todo;
      AnyKeyFirst(Table(table), groups, todo, g);
      var worth := Worth(Table(table), g, groups[g]);
      hide AllWorth, Worth;
      cost, savings := cost + worth.0, savings + worth.1;
      todo := todo - {g};
    }
  }

  // `build_overview_one_pass`: every row is normalized, put into its model's tier, and the tiers priced.
  method OnePass(table: seq<Price>, rows: seq<Row>) returns (cost: real, savings: real)
    ensures cost == TotalCost(Table(table), rows) && savings == TotalSavings(Table(table), rows)
  {
    var groups: map<Group, Usage> := map[];
    hide Grouped, PriceFor, Normalized;
    for i := 0 to |rows|
      invariant groups == NormalTotals(Table(table), rows[..i])
    {
      assert rows[..i + 1][..i] == rows[..i];
      var normalized := Normalized(rows[i].usage);
      var price := PriceFor(table, rows[i].model);
      var long := IsLong(price, normalized.input);
      NormalizedPrices(price, rows[i].usage, long);
      groups := Grouped(groups, (rows[i].model, long), normalized);
    }
    assert rows[..|rows|] == rows;
    TotalsAreWorth(Table(table), rows);
    cost, savings := SumGroups(table, groups);
  }

  // `build_overview_multi_query`: raw totals per model and tier, priced as they are.
  method MultiQuery(table: seq<Price>, rows: seq<Row>) returns (cost: real, savings: real)
    ensures (cost, savings) == AllWorth(Table(table), RawTotals(Table(table), rows), RawTotals(Table(table), rows).Keys)
    ensures CostsBalance(Table(table), rows) ==> cost == TotalCost(Table(table), rows)
    ensures SavingsBalance(Table(table), rows) ==> savings == TotalSavings(Table(table), rows)
  {
    var groups: map<Group, Usage> := map[];
    for i := 0 to |rows|
      invariant groups == RawTotals(Table(table), rows[..i])
    {
      assert rows[..i + 1][..i] == rows[..i];
      groups := Grouped(groups, (rows[i].model, LongFor(Table(table), rows[i])), rows[i].usage);
    }
    assert rows[..|rows|] == rows;
    BalancedTotals(Table(table), rows);
    cost, savings := SumGroups(table, groups);
  }

  // `build_overview`: how many rows there are, or whether a client is asked for, decides how the cost
  // is computed but, where the counters make sense, not what it is.
  method BuildOverview(table: seq<Price>, rows: seq<Row>, client: bool) returns (cost: real, savings: real)
    ensures client || |rows| >= ONE_PASS_OVERVIEW_THRESHOLD || (forall i :: 0 <= i < |rows| ==> WellFormed(rows[i].usage)) ==>
              cost == TotalCost(Table(table), rows) && savings == TotalSavings(Table(table), rows)
  {
    if client || |rows| >= ONE_PASS_OVERVIEW_THRESHOLD {
      cost, savings := OnePass(table, rows);
    } else {
      if forall i :: 0 <= i < |rows| ==> WellFormed(rows[i].usage) { WellFormedBalances(Table(table), rows); }
      cost, savings := MultiQuery(table, rows);
    }
  }

  // ---- exactly when raw totals cost what the rows cost ----

  // Capping the totals of a group is the same as adding up what was capped row by row.
  ghost predicate CostsBalance(prices: Prices, rows: seq<Row>) {
    forall g :: g in RawTotals(prices, rows) ==> Normalized(RawTotals(prices, rows)[g]) == UsageOf(NormalTotals(prices, rows), g)
  }

  ghost predicate SavingsBalance(prices: Prices, rows: seq<Row>) {
    forall g :: g in RawTotals(prices, rows) ==> Max(RawTotals(prices, rows)[g].cached, 0) == UsageOf(NormalTotals(prices, rows), g).cached
  }

  lemma {:induction false} SameGroups(prices: Prices, rows: seq<Row>)
    ensures RawTotals(prices, rows).Keys == NormalTotals(prices, rows).Keys
    decreases |rows|
  {
    if rows != [] { SameGroups(prices, rows[..|rows| - 1]); }
  }

  // Rows whose counters make sense balance.
  lemma {:induction false} WellFormedTotals(prices: Prices, rows: seq<Row>)
    requires forall i :: 0 <= i < |rows| ==> WellFormed(rows[i].usage)
    ensures RawTotals(prices, rows) == NormalTotals(prices, rows)
    decreases |rows|
  {
    if rows != [] {
      WellFormedTotals(prices, rows[..|rows| - 1]);
      NormalizedPrices(PriceAt(prices, ""), rows[|rows| - 1].usage, false);
      hide Normalized, WellFormed;
    }
  }

  lemma WellFormedBalances(prices: Prices, rows: seq<Row>)
    requires forall i :: 0 <= i < |rows| ==> WellFormed(rows[i].usage)
    ensures CostsBalance(prices, rows) && SavingsBalance(prices, rows)
  {
    WellFormedTotals(prices, rows);
    TotalsAreWorth(prices, rows);
    hide RawTotals, NormalTotals, AllWorth;
  }

  lemma {:induction false} CostLocal(prices: Prices, a: map<Group, Usage>, b: map<Group, Usage>, keys: set<Group>)
    requires forall g :: g in keys ==> Worth(prices, g, UsageOf(a, g)).0 == Worth(prices, g, UsageOf(b, g)).0
    ensures AllWorth(prices, a, keys).0 == AllWorth(prices, b, keys).0
    decreases keys
  {
    hide Worth;
    if keys != {} {
      var g :| g in keys;
      AnyKeyFirst(prices, a, keys, g);
      AnyKeyFirst(prices, b, keys, g);
      CostLocal(prices, a, b, keys - {g});
    }
  }

  lemma {:induction false} SavingsLocal(prices: Prices, a: map<Group, Usage>, b: map<Group, Usage>, keys: set<Group>)
    requires forall g :: g in keys ==> Worth(prices, g, UsageOf(a, g)).1 == Worth(prices, g, UsageOf(b, g)).1
    ensures AllWorth(prices, a, keys).1 == AllWorth(prices, b, keys).1
    decreases keys
  {
    hide Worth;
    if keys != {} {
      var g :| g in keys;
      AnyKeyFirst(prices, a, keys, g);
      AnyKeyFirst(prices, b, keys, g);
      SavingsLocal(prices, a, b, keys - {g});
    }
  }

  // Balanced totals cost what the rows cost, at any prices.
  lemma BalancedTotals(prices: Prices, rows: seq<Row>)
    ensures var worth := AllWorth(prices, RawTotals(prices, rows), RawTotals(prices, rows).Keys);
            && (CostsBalance(prices, rows) ==> worth.0 == TotalCost(prices, rows))
            && (SavingsBalance(prices, rows) ==> worth.1 == TotalSavings(prices, rows))
  {
    var raw, normal := RawTotals(prices, rows), NormalTotals(prices, rows);
    SameGroups(prices, rows);
    TotalsAreWorth(prices, rows);
    hide RawTotals, NormalTotals, AllWorth, TotalCost, TotalSavings, ForContext, Savings, Normalized;
    if CostsBalance(prices, rows) {
      forall g | g in raw ensures Worth(prices, g, UsageOf(raw, g)).0 == Worth(prices, g, UsageOf(normal, g)).0 {
        NormalizedPrices(PriceAt(prices, g.0), raw[g], g.1);
      }
      CostLocal(prices, raw, normal, raw.Keys);
    }
    if SavingsBalance(prices, rows) {
      forall g | g in raw ensures Worth(prices, g, UsageOf(raw, g)).1 == Worth(prices, g, UsageOf(normal, g)).1 {
        SavingsOfMax(PriceAt(prices, g.0), raw[g].cached, g.1);
      }
      SavingsLocal(prices, raw, normal, raw.Keys);
    }
  }

  lemma SavingsOfMax(p: Price, cached: int, long: bool)
    ensures Savings(p, Max(cached, 0), long) == Savings(p, cached, long)
  {
  }
}
