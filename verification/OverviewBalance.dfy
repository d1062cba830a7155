// When grouped totals cost what the requests cost, exactly.
module OverviewBalance {
  import opened Wrappers
  import opened Pricing
  import opened Overview

  // ---- prices that show one bucket of one model ----

  datatype Bucket = Uncached | Cached | Creation | Output | Reasoning

  function Rate(chosen: Option<Bucket>, b: Bucket): real { if chosen == Some(b) then 1.0 else 0.0 }

  // A price of one for one bucket; long contexts are free or priced alike.
  function ProbePrice(tier: Option<Tier>, chosen: Option<Bucket>, long: bool): Price {
    var x := if long then 1.0 else 0.0;
    Price("", Rate(chosen, Uncached), Rate(chosen, Output), Rate(chosen, Cached), Rate(chosen, Creation), Rate(chosen, Reasoning),
          match tier case None => None case Some(t) => Some(Tier(t.threshold, x, x)))
  }

  function Probe(prices: Prices, m: string, b: Bucket, long: bool): Prices {
    model => ProbePrice(PriceAt(prices, model).longContext, if model == m then Some(b) else None, long)
  }

  function Amount(b: Bucket, u: Usage): int {
    var n := Normalized(u);
    match b
    case Uncached => n.input - n.cached
    case Cached => n.cached
    case Creation => n.cacheCreation
    case Output => n.output
    case Reasoning => n.reasoning
  }

  function Multiplier(tier: Option<Tier>, long: bool, isLong: bool): real { if isLong && tier.Some? && !long then 0.0 else 1.0 }

  lemma ProbeShows(tier: Option<Tier>, b: Bucket, long: bool, u: Usage, isLong: bool)
    ensures ForContext(ProbePrice(tier, Some(b), long), u, isLong) == Amount(b, u) as real * Multiplier(tier, long, isLong) / MILLION
  {
  }

  lemma ProbeSaves(tier: Option<Tier>, long: bool, cached: int, isLong: bool)
    ensures Savings(ProbePrice(tier, Some(Uncached), long), cached, isLong)
            == Max(cached, 0) as real * Multiplier(tier, long, isLong) / MILLION
  {
  }

  lemma ProbeIsFree(tier: Option<Tier>, long: bool, u: Usage, isLong: bool)
    ensures ForContext(ProbePrice(tier, None, long), u, isLong) == 0.0 && Savings(ProbePrice(tier, None, long), u.cached, isLong) == 0.0
  {
  }

  // ---- one model's worth ----

  lemma {:induction false} RestIsFree(prices: Prices, groups: map<Group, Usage>, keys: set<Group>)
    requires forall g :: g in keys ==> Worth(prices, g, UsageOf(groups, g)) == (0.0, 0.0)
    ensures AllWorth(prices, groups, keys) == (0.0, 0.0)
    decreases keys
  {
    hide Worth;
    if keys != {} {
      var g :| g in keys;
      AnyKeyFirst(prices, groups, keys, g);
      RestIsFree(prices, groups, keys - {g});
    }
  }

  // A group that is not there is worth nothing.
  lemma TakeOut(prices: Prices, groups: map<Group, Usage>, keys: set<Group>, g: Group)
    requires keys <= groups.Keys && (g in groups ==> g in keys)
    ensures AllWorth(prices, groups, keys) == Plus(Worth(prices, g, UsageOf(groups, g)), AllWorth(prices, groups, keys - {g}))
  {
    hide Worth;
    if g in keys {
      AnyKeyFirst(prices, groups, keys, g);
    } else {
      NoUsageIsFree(prices, g);
      assert keys - {g} == keys;
      PlusZero(AllWorth(prices, groups, keys));
    }
  }

  lemma ProbeAt(prices: Prices, m: string, b: Bucket, long: bool, model: string)
    ensures PriceAt(Probe(prices, m, b, long), model)
            == ProbePrice(PriceAt(prices, model).longContext, if model == m then Some(b) else None, long)
  {
  }

  lemma OthersAreFree(prices: Prices, m: string, b: Bucket, long: bool, g: Group, u: Usage)
    requires g.0 != m
    ensures Worth(Probe(prices, m, b, long), g, u) == (0.0, 0.0)
  {
    ProbeAt(prices, m, b, long, g.0);
    ProbeIsFree(PriceAt(prices, g.0).longContext, long, u, g.1);
    hide ForContext, Savings, ProbePrice, Probe;
  }

  lemma PairOf(g: Group)
    ensures g == (g.0, g.1) && (g == (g.0, true) || g == (g.0, false))
  {
    if g.1 { assert g == (g.0, true); } else { assert g == (g.0, false); }
  }

  // Under a probe only the two tiers of its model count.
  lemma ProbeTotal(prices: Prices, m: string, b: Bucket, long: bool, groups: map<Group, Usage>)
    ensures var q, short, high := Probe(prices, m, b, long), (m, false), (m, true);
            AllWorth(q, groups, groups.Keys) == Plus(Worth(q, short, UsageOf(groups, short)), Worth(q, high, UsageOf(groups, high)))
  {
    hide Worth, AllWorth, Probe;
    var q, short, high := Probe(prices, m, b, long), (m, false), (m, true);
    TakeOut(q, groups, groups.Keys, short);
    TakeOut(q, groups, groups.Keys - {short}, high);
    var rest := groups.Keys - {short} - {high};
    forall g | g in rest ensures Worth(q, g, UsageOf(groups, g)) == (0.0, 0.0) {
      PairOf(g);
      OthersAreFree(prices, m, b, long, g, UsageOf(groups, g));
    }
    RestIsFree(q, groups, rest);
  }

  // ---- for all rates ----

  // Prices may differ, but not where the tiers of a model part.
  ghost predicate SameTiers(p: Prices, q: Prices) {
    forall m :: Threshold(PriceAt(p, m)) == Threshold(PriceAt(q, m))
  }

  function Threshold(p: Price): Option<int> { match p.longContext case None => None case Some(t) => Some(t.threshold) }

  lemma SameTier(p: Prices, q: Prices, row: Row)
    requires SameTiers(p, q)
    ensures LongFor(p, row) == LongFor(q, row)
  {
    assert Threshold(PriceAt(p, row.model)) == Threshold(PriceAt(q, row.model));
  }

  lemma {:induction false} SameTotals(p: Prices, q: Prices, rows: seq<Row>)
    requires SameTiers(p, q)
    ensures RawTotals(p, rows) == RawTotals(q, rows) && NormalTotals(p, rows) == NormalTotals(q, rows)
    decreases |rows|
  {
    hide SameTiers, Grouped, Normalized, LongFor;
    if rows != [] {
      SameTotals(p, q, rows[..|rows| - 1]);
      SameTier(p, q, rows[|rows| - 1]);
    }
  }

  lemma ProbeKeepsTiers(prices: Prices, m: string, b: Bucket, long: bool)
    ensures SameTiers(prices, Probe(prices, m, b, long))
  {
    var q := Probe(prices, m, b, long);
    hide Probe;
    forall model ensures Threshold(PriceAt(prices, model)) == Threshold(PriceAt(q, model)) { ProbeAt(prices, m, b, long, model); }
  }

  ghost predicate CostsAgree(prices: Prices, rows: seq<Row>) {
    AllWorth(prices, RawTotals(prices, rows), RawTotals(prices, rows).Keys).0 == TotalCost(prices, rows)
  }

  ghost predicate SavingsAgree(prices: Prices, rows: seq<Row>) {
    AllWorth(prices, RawTotals(prices, rows), RawTotals(prices, rows).Keys).1 == TotalSavings(prices, rows)
  }

  // A long tier exists only where the price has one.
  lemma {:induction false} LongGroupsHaveTiers(prices: Prices, rows: seq<Row>, m: string)
    ensures (m, true) in RawTotals(prices, rows) ==> PriceAt(prices, m).longContext.Some?
    decreases |rows|
  {
    if rows != [] { LongGroupsHaveTiers(prices, rows[..|rows| - 1], m); }
  }

  // What two prices that differ only in the long tier tell of the short tier and of the long one.
  lemma TwoProbes(short: int, high: int, s: int, h: int, x: real)
    requires x == 0.0 || x == 1.0
    requires short as real * 1.0 / MILLION + high as real * x / MILLION == s as real * 1.0 / MILLION + h as real * x / MILLION
    ensures x == 0.0 ==> short == s
    ensures x == 1.0 ==> short + high == s + h
  {
  }

  function Amounts(b: Bucket, groups: map<Group, Usage>, m: string, long: bool): int { Amount(b, UsageOf(groups, (m, long))) }

  // What the groups are worth under a probe.
  lemma ProbeWorth(prices: Prices, m: string, b: Bucket, long: bool, groups: map<Group, Usage>)
    ensures var x := Multiplier(PriceAt(prices, m).longContext, long, true);
            AllWorth(Probe(prices, m, b, long), groups, groups.Keys).0
            == Amounts(b, groups, m, false) as real * 1.0 / MILLION + Amounts(b, groups, m, true) as real * x / MILLION
  {
    hide AllWorth, ForContext, Savings, Amount, ProbePrice, Probe;
    ProbeTotal(prices, m, b, long, groups);
    ProbeAt(prices, m, b, long, m);
    var tier := PriceAt(prices, m).longContext;
    ProbeShows(tier, b, long, UsageOf(groups, (m, false)), false);
    ProbeShows(tier, b, long, UsageOf(groups, (m, true)), true);
  }

  lemma ProbeSavings(prices: Prices, m: string, long: bool, groups: map<Group, Usage>)
    ensures var x := Multiplier(PriceAt(prices, m).longContext, long, true);
            AllWorth(Probe(prices, m, Uncached, long), groups, groups.Keys).1
            == Max(UsageOf(groups, (m, false)).cached, 0) as real * 1.0 / MILLION
               + Max(UsageOf(groups, (m, true)).cached, 0) as real * x / MILLION
  {
    hide AllWorth, ForContext, Savings, ProbePrice, Probe, Max;
    ProbeTotal(prices, m, Uncached, long, groups);
    ProbeAt(prices, m, Uncached, long, m);
    var tier := PriceAt(prices, m).longContext;
    ProbeSaves(tier, long, UsageOf(groups, (m, false)).cached, false);
    ProbeSaves(tier, long, UsageOf(groups, (m, true)).cached, true);
  }

  // The two computations under a probe.
  lemma ProbeTotals(prices: Prices, rows: seq<Row>, m: string, b: Bucket, long: bool)
    ensures var q := Probe(prices, m, b, long);
            && RawTotals(q, rows) == RawTotals(prices, rows) && SameTiers(prices, q)
            && AllWorth(q, NormalTotals(prices, rows), NormalTotals(prices, rows).Keys) == (TotalCost(q, rows), TotalSavings(q, rows))
  {
    var q := Probe(prices, m, b, long);
    hide RawTotals, NormalTotals, AllWorth, TotalCost, TotalSavings, SameTiers, Probe;
    ProbeKeepsTiers(prices, m, b, long);
    SameTotals(prices, q, rows);
    TotalsAreWorth(q, rows);
  }

  // Both tiers show the same amounts when probes with free and with priced long contexts agree.
  lemma AmountsAgree(tier: Option<Tier>, short: int, high: int, s: int, h: int)
    requires tier.None? ==> high == h == 0
    requires forall long :: var x := Multiplier(tier, long, true);
               short as real * 1.0 / MILLION + high as real * x / MILLION == s as real * 1.0 / MILLION + h as real * x / MILLION
    ensures short == s && high == h
  {
    assert Multiplier(tier, true, true) == 1.0;
    TwoProbes(short, high, s, h, Multiplier(tier, true, true));
    TwoProbes(short, high, s, h, Multiplier(tier, false, true));
  }

  lemma CostsTellAmounts(prices: Prices, rows: seq<Row>, m: string, b: Bucket)
    requires forall q :: SameTiers(prices, q) ==> CostsAgree(q, rows)
    ensures Amounts(b, RawTotals(prices, rows), m, false) == Amounts(b, NormalTotals(prices, rows), m, false)
    ensures Amounts(b, RawTotals(prices, rows), m, true) == Amounts(b, NormalTotals(prices, rows), m, true)
  {
    var raw, normal, tier := RawTotals(prices, rows), NormalTotals(prices, rows), PriceAt(prices, m).longContext;
    SameGroups(prices, rows);
    LongGroupsHaveTiers(prices, rows, m);
    hide RawTotals, NormalTotals, AllWorth, TotalCost, TotalSavings, SameTiers, Probe;
    forall long
      ensures var x := Multiplier(tier, long, true);
              Amounts(b, raw, m, false) as real * 1.0 / MILLION + Amounts(b, raw, m, true) as real * x / MILLION
              == Amounts(b, normal, m, false) as real * 1.0 / MILLION + Amounts(b, normal, m, true) as real * x / MILLION
    {
      ProbeTotals(prices, rows, m, b, long);
      assert CostsAgree(Probe(prices, m, b, long), rows);
      ProbeWorth(prices, m, b, long, raw);
      ProbeWorth(prices, m, b, long, normal);
      hide Amounts;
    }
    AmountsAgree(tier, Amounts(b, raw, m, false), Amounts(b, raw, m, true), Amounts(b, normal, m, false), Amounts(b, normal, m, true));
  }

  lemma {:induction false} NormalIsWellFormed(prices: Prices, rows: seq<Row>)
    ensures AllWellFormed(NormalTotals(prices, rows))
  {
    TotalsAreWorth(prices, rows);
  }

  lemma BucketsDetermine(u: Usage, v: Usage)
    requires WellFormed(v) && forall b :: Amount(b, u) == Amount(b, v)
    ensures Normalized(u) == v
  {
    assert Amount(Uncached, u) == Amount(Uncached, v) && Amount(Cached, u) == Amount(Cached, v);
    assert Amount(Creation, u) == Amount(Creation, v) && Amount(Output, u) == Amount(Output, v);
    assert Amount(Reasoning, u) == Amount(Reasoning, v);
  }

  lemma BalanceIsEnough(prices: Prices, q: Prices, rows: seq<Row>)
    requires SameTiers(prices, q)
    ensures CostsBalance(prices, rows) ==> CostsAgree(q, rows)
    ensures SavingsBalance(prices, rows) ==> SavingsAgree(q, rows)
  {
    hide RawTotals, NormalTotals, AllWorth, TotalCost, TotalSavings, SameTiers, Normalized, Max;
    SameTotals(prices, q, rows);
    BalancedTotals(q, rows);
    assert CostsBalance(prices, rows) ==> CostsBalance(q, rows);
    assert SavingsBalance(prices, rows) ==> SavingsBalance(q, rows);
  }

  lemma AgreementBalances(prices: Prices, rows: seq<Row>, g: Group)
    requires (forall q :: SameTiers(prices, q) ==> CostsAgree(q, rows)) && g in RawTotals(prices, rows)
    ensures Normalized(RawTotals(prices, rows)[g]) == UsageOf(NormalTotals(prices, rows), g)
  {
    hide CostsAgree, RawTotals, NormalTotals, SameTiers, Amount, Normalized;
    var u, v := RawTotals(prices, rows)[g], UsageOf(NormalTotals(prices, rows), g);
    SameGroups(prices, rows);
    NormalIsWellFormed(prices, rows);
    PairOf(g);
    forall b ensures Amount(b, u) == Amount(b, v) { CostsTellAmounts(prices, rows, g.0, b); }
    BucketsDetermine(u, v);
  }

  // Grouped totals cost what the requests cost at all rates, the tiers kept, exactly when in each group
  // capping the totals is adding up the capped rows. A single row always costs the same; it takes two in
  // one group, what is capped in one being set off against the other.
  lemma CostsAgreeExactly(prices: Prices, rows: seq<Row>)
    ensures (forall q :: SameTiers(prices, q) ==> CostsAgree(q, rows)) <==> CostsBalance(prices, rows)
  {
    hide CostsAgree, RawTotals, NormalTotals, SameTiers, Normalized;
    if CostsBalance(prices, rows) {
      forall q | SameTiers(prices, q) ensures CostsAgree(q, rows) { BalanceIsEnough(prices, q, rows); }
    }
    if forall q :: SameTiers(prices, q) ==> CostsAgree(q, rows) {
      forall g | g in RawTotals(prices, rows)
        ensures Normalized(RawTotals(prices, rows)[g]) == UsageOf(NormalTotals(prices, rows), g)
      {
        AgreementBalances(prices, rows, g);
      }
    }
  }

  lemma SavingsTellCached(prices: Prices, rows: seq<Row>, m: string)
    requires forall q :: SameTiers(prices, q) ==> SavingsAgree(q, rows)
    ensures forall long :: Max(UsageOf(RawTotals(prices, rows), (m, long)).cached, 0)
                           == Max(UsageOf(NormalTotals(prices, rows), (m, long)).cached, 0)
  {
    var raw, normal, tier := RawTotals(prices, rows), NormalTotals(prices, rows), PriceAt(prices, m).longContext;
    SameGroups(prices, rows);
    LongGroupsHaveTiers(prices, rows, m);
    hide RawTotals, NormalTotals, AllWorth, TotalCost, TotalSavings, SameTiers, Probe;
    var a, b, c, d := Max(UsageOf(raw, (m, false)).cached, 0), Max(UsageOf(raw, (m, true)).cached, 0),
                      Max(UsageOf(normal, (m, false)).cached, 0), Max(UsageOf(normal, (m, true)).cached, 0);
    forall long
      ensures var x := Multiplier(tier, long, true);
              a as real * 1.0 / MILLION + b as real * x / MILLION == c as real * 1.0 / MILLION + d as real * x / MILLION
    {
      ProbeTotals(prices, rows, m, Uncached, long);
      assert SavingsAgree(Probe(prices, m, Uncached, long), rows);
      ProbeSavings(prices, m, long, raw);
      ProbeSavings(prices, m, long, normal);
      hide Max, UsageOf;
    }
    AmountsAgree(tier, a, b, c, d);
    forall long ensures Max(UsageOf(raw, (m, long)).cached, 0) == Max(UsageOf(normal, (m, long)).cached, 0) {
      if long { assert b == d; } else { assert a == c; }
    }
  }

  lemma AgreementBalancesSavings(prices: Prices, rows: seq<Row>, g: Group)
    requires (forall q :: SameTiers(prices, q) ==> SavingsAgree(q, rows)) && g in RawTotals(prices, rows)
    ensures Max(RawTotals(prices, rows)[g].cached, 0) == UsageOf(NormalTotals(prices, rows), g).cached
  {
    hide SavingsAgree, RawTotals, NormalTotals, SameTiers;
    SameGroups(prices, rows);
    NormalIsWellFormed(prices, rows);
    SavingsTellCached(prices, rows, g.0);
    PairOf(g);
  }

  // The savings shown agree at all rates exactly when the cached counts do; here one row is enough to differ.
  lemma SavingsAgreeExactly(prices: Prices, rows: seq<Row>)
    ensures (forall q :: SameTiers(prices, q) ==> SavingsAgree(q, rows)) <==> SavingsBalance(prices, rows)
  {
    hide SavingsAgree, RawTotals, NormalTotals, SameTiers, Max;
    if SavingsBalance(prices, rows) {
      forall q | SameTiers(prices, q) ensures SavingsAgree(q, rows) { BalanceIsEnough(prices, q, rows); }
    }
    if forall q :: SameTiers(prices, q) ==> SavingsAgree(q, rows) {
      forall g | g in RawTotals(prices, rows)
        ensures Max(RawTotals(prices, rows)[g].cached, 0) == UsageOf(NormalTotals(prices, rows), g).cached
      {
        AgreementBalancesSavings(prices, rows, g);
      }
    }
  }

  lemma AddNothing(u: Usage)
    ensures NO_USAGE.Add(u) == u
  {
  }

  lemma OneRowTotals(prices: Prices, row: Row)
    ensures var g := (row.model, LongFor(prices, row));
            RawTotals(prices, [row]) == map[g := row.usage] && NormalTotals(prices, [row]) == map[g := Normalized(row.usage)]
  {
    hide LongFor, Normalized, Usage.Add;
    assert [row][..0] == [];
    AddNothing(row.usage);
    AddNothing(Normalized(row.usage));
  }

  // One row costs the same either way, whatever its counters are.
  lemma OneRowBalances(prices: Prices, row: Row)
    ensures CostsBalance(prices, [row])
  {
    OneRowTotals(prices, row);
    hide RawTotals, NormalTotals, LongFor, Normalized;
  }
}
