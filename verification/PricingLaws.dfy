// What a price means: token by token, by tier, and as a saving.
module PricingLaws {
  import opened Wrappers
  import opened Pricing
  import Identity

  // What one token of the input, or of the output, is multiplied by.
  function Factor(rate: Option<real>, long: bool): real {
    if !long || rate.None? then 1.0 else if rate.value < 0.0 then 0.0 else rate.value
  }

  function InputFactor(p: Price, long: bool): real {
    Factor(if p.longContext.Some? then Some(p.longContext.value.inputMultiplier) else None, long)
  }

  function OutputFactor(p: Price, long: bool): real {
    Factor(if p.longContext.Some? then Some(p.longContext.value.outputMultiplier) else None, long)
  }

  lemma Sides(p: Price, u: Usage, long: bool)
    requires WellFormed(u)
    ensures ForContext(p, u, long) * 1000000.0
            == InputSide(p, u) * InputFactor(p, long) + OutputSide(p, u) * OutputFactor(p, long)
  {
    LinearOnWellFormed(p, u, long);
    var sides := InputSide(p, u) * InputFactor(p, long) + OutputSide(p, u) * OutputFactor(p, long);
    assert InputMultiplier(p, long) == InputFactor(p, long) && OutputMultiplier(p, long) == OutputFactor(p, long);
    hide ForContext, InputSide, OutputSide;
    assert sides / 1000000.0 * 1000000.0 == sides;
  }

  // Nothing costs nothing, and one more token costs its own rate: a plain or a cached one of the input, one written to
  // the cache, a plain one of the output, or one of the reasoning, which is an output token at a rate of its own if there is one.
  lemma TokenByToken(p: Price, u: Usage, long: bool)
    requires WellFormed(u)
    ensures ForContext(p, NO_USAGE, long) == 0.0
    ensures var i, o, cost := InputFactor(p, long), OutputFactor(p, long), ForContext(p, u, long) * 1000000.0;
            && ForContext(p, u.(input := u.input + 1), long) * 1000000.0 == cost + p.input * i
            && ForContext(p, u.(input := u.input + 1, cached := u.cached + 1), long) * 1000000.0 == cost + p.cacheRead * i
            && ForContext(p, u.(cacheCreation := u.cacheCreation + 1), long) * 1000000.0 == cost + p.cacheCreation * i
            && ForContext(p, u.(output := u.output + 1), long) * 1000000.0 == cost + p.output * o
            && ForContext(p, u.(output := u.output + 1, reasoning := u.reasoning + 1), long) * 1000000.0
               == cost + (if p.reasoning > 0.0 then p.reasoning else p.output) * o
  {
    Sides(p, NO_USAGE, long);
    Sides(p, u, long);
    hide ForContext;
    InputTokens(p, u, long);
    OutputTokens(p, u, long);
  }

  lemma InputTokens(p: Price, u: Usage, long: bool)
    requires WellFormed(u)
    ensures var i, cost := InputFactor(p, long), ForContext(p, u, long) * 1000000.0;
            && ForContext(p, u.(input := u.input + 1), long) * 1000000.0 == cost + p.input * i
            && ForContext(p, u.(input := u.input + 1, cached := u.cached + 1), long) * 1000000.0 == cost + p.cacheRead * i
            && ForContext(p, u.(cacheCreation := u.cacheCreation + 1), long) * 1000000.0 == cost + p.cacheCreation * i
  {
    hide ForContext, InputFactor, OutputFactor;
    Sides(p, u, long);
    Sides(p, u.(input := u.input + 1), long);
    Sides(p, u.(input := u.input + 1, cached := u.cached + 1), long);
    Sides(p, u.(cacheCreation := u.cacheCreation + 1), long);
    Distribute(p.input, (u.input - u.cached) as real, 1.0);
    Distribute(p.cacheRead, u.cached as real, 1.0);
    Distribute(p.cacheCreation, u.cacheCreation as real, 1.0);
    var side, i := InputSide(p, u), InputFactor(p, long);
    assert InputSide(p, u.(input := u.input + 1)) == side + p.input;
    assert InputSide(p, u.(input := u.input + 1, cached := u.cached + 1)) == side + p.cacheRead;
    assert InputSide(p, u.(cacheCreation := u.cacheCreation + 1)) == side + p.cacheCreation;
    Distribute(i, side, p.input);
    Distribute(i, side, p.cacheRead);
    Distribute(i, side, p.cacheCreation);
  }

  lemma OutputTokens(p: Price, u: Usage, long: bool)
    requires WellFormed(u)
    ensures var o, cost := OutputFactor(p, long), ForContext(p, u, long) * 1000000.0;
            && ForContext(p, u.(output := u.output + 1), long) * 1000000.0 == cost + p.output * o
            && ForContext(p, u.(output := u.output + 1, reasoning := u.reasoning + 1), long) * 1000000.0
               == cost + (if p.reasoning > 0.0 then p.reasoning else p.output) * o
  {
    hide ForContext, InputFactor, OutputFactor;
    Sides(p, u, long);
    Sides(p, u.(output := u.output + 1), long);
    Sides(p, u.(output := u.output + 1, reasoning := u.reasoning + 1), long);
    Distribute(p.output, (u.output - u.reasoning) as real, 1.0);
    Distribute(ReasoningRate(p), u.reasoning as real, 1.0);
    var side, o := OutputSide(p, u), OutputFactor(p, long);
    assert OutputSide(p, u.(output := u.output + 1)) == side + p.output;
    assert OutputSide(p, u.(output := u.output + 1, reasoning := u.reasoning + 1)) == side + ReasoningRate(p);
    Distribute(o, side, p.output);
    Distribute(o, side, ReasoningRate(p));
  }

  // A request is priced in the long tier exactly when its input is above the threshold; without one, or up to it, the
  // tier plays no part.
  lemma TierByInput(p: Price, u: Usage)
    ensures var above := p.longContext.Some? && u.input > p.longContext.value.threshold && u.input > 0;
            && Estimate(p, u) == ForContext(p, u, above)
            && (!above ==> Estimate(p, u) == ForContext(p.(longContext := None), u, false))
  {
  }

  // What is saved is what the cached tokens would have cost as plain ones, less what they did cost, if that is positive.
  lemma SavingIsADifference(p: Price, u: Usage, long: bool)
    requires WellFormed(u)
    ensures var saved := ForContext(p, u.(cached := 0), long) - ForContext(p, u, long);
            Savings(p, u.cached, long) == if saved > 0.0 then saved else 0.0
  {
    var plain := u.(cached := 0);
    Sides(p, u, long);
    Sides(p, plain, long);
    var c, rate, i := u.cached as real, p.input - p.cacheRead, InputFactor(p, long);
    Distribute(p.input, (u.input - u.cached) as real, c);
    assert InputSide(p, plain) == InputSide(p, u) + c * rate;
    hide ForContext, InputSide, OutputSide;
    Distribute(i, InputSide(p, u), c * rate);
    assert InputMultiplier(p, long) == i;
  }

  // ---- which price ----

  predicate SameLetter(small: char, c: char) {
    if 'A' <= c <= 'Z' then 'a' <= small <= 'z' && small as int - 'a' as int == c as int - 'A' as int else small == c
  }

  predicate LowerOf(small: string, s: string) { |small| == |s| && forall i :: 0 <= i < |s| ==> SameLetter(small[i], s[i]) }

  // A pattern in small letters, the percent signs at its end cut off.
  predicate Names(p: Price, part: string) {
    && |part| <= |p.pattern| && LowerOf(part, p.pattern[..|part|])
    && (forall i :: |part| <= i < |p.pattern| ==> p.pattern[i] == '%')
    && (part != "" ==> part[|part| - 1] != '%')
  }

  ghost predicate FoundIn(p: Price, model: string) {
    exists small, a, part, b :: LowerOf(small, model) && Names(p, part) && part != "" && small == a + part + b
  }

  lemma {:induction false} Trimmed(s: string)
    ensures TrimPercent(s) <= s
    ensures forall i :: |TrimPercent(s)| <= i < |s| ==> s[i] == '%'
    ensures TrimPercent(s) != "" ==> TrimPercent(s)[|TrimPercent(s)| - 1] != '%'
    decreases |s|
  {
    if s != "" && s[|s| - 1] == '%' { Trimmed(s[..|s| - 1]); }
  }

  lemma LowerIs(s: string, small: string)
    ensures LowerOf(small, s) <==> small == Lower(s)
  {
    if LowerOf(small, s) {
      forall i | 0 <= i < |s| ensures small[i] == Lower(s)[i] { assert SameLetter(small[i], s[i]); }
    }
  }

  lemma NamesIts(p: Price, part: string)
    ensures Names(p, part) <==> part == PatternOf(p)
  {
    var trimmed := TrimPercent(p.pattern);
    Trimmed(p.pattern);
    LowerIs(trimmed, PatternOf(p));
    assert p.pattern[..|trimmed|] == trimmed;
    if part == PatternOf(p) {
      if part != "" { assert SameLetter(part[|part| - 1], trimmed[|part| - 1]); }
    }
    if Names(p, part) {
      LowerIs(p.pattern[..|part|], part);
      hide Lower, TrimPercent;
      assert |part| <= |trimmed|;
      assert |part| >= |trimmed|;
    }
  }

  // A price matches a model exactly when its pattern is found somewhere in the name, whatever the case of the letters.
  lemma MatchesExactly(p: Price, model: string)
    ensures Matches(p, model) <==> FoundIn(p, model)
  {
    var small, part := Lower(model), PatternOf(p);
    LowerIs(model, small);
    NamesIts(p, part);
    hide Lower, PatternOf, Names, LowerOf;
    if Matches(p, model) {
      var i :| 0 <= i <= |small| && OccursAt(small, part, i);
      assert small == small[..i] + part + small[i + |part|..];
    }
    if FoundIn(p, model) {
      var name, a, found, b :| LowerOf(name, model) && Names(p, found) && found != "" && name == a + found + b;
      LowerIs(model, name);
      NamesIts(p, found);
      assert OccursAt(small, part, |a|);
    }
  }

  lemma {:induction false} LengthInBytes(s: string)
    ensures ByteLength(s) == |Identity.AsBytes(s)|
    decreases |s|
  {
    if s != "" { LengthInBytes(s[1..]); }
  }

  // The price of a model: that of the pattern longest in bytes of those found in its name, the first of equals; or a fixed one.
  lemma PriceExactly(entries: seq<Price>, model: string)
    ensures (forall j :: 0 <= j < |entries| ==> !FoundIn(entries[j], model)) ==>
              PriceFor(entries, model) == Price("", 3.0, 15.0, 0.3, 3.75, 15.0, None)
    ensures (exists j :: 0 <= j < |entries| && FoundIn(entries[j], model)) ==>
              exists i :: 0 <= i < |entries| && entries[i] == PriceFor(entries, model) && FoundIn(entries[i], model)
                          && forall j :: 0 <= j < |entries| && FoundIn(entries[j], model) ==> GoesBefore(entries, i, j)
  {
    hide Matches, FoundIn, PatternOf, ByteLength;
    BestIsBest(entries, model);
    forall j | 0 <= j < |entries|
      ensures Matches(entries[j], model) <==> FoundIn(entries[j], model)
      ensures LengthOf(entries[j]) == Bytes(entries[j])
    {
      MatchesExactly(entries[j], model);
      LengthInBytes(PatternOf(entries[j]));
    }
    if Best(entries, model).Some? {
      var i := Best(entries, model).value;
      forall j | 0 <= j < |entries| && FoundIn(entries[j], model) ensures GoesBefore(entries, i, j) { assert Matches(entries[j], model); }
    }
  }

  function Bytes(p: Price): nat { |Identity.AsBytes(PatternOf(p))| }

  predicate GoesBefore(entries: seq<Price>, i: nat, j: nat)
    requires i < |entries| && j < |entries|
  {
    Bytes(entries[j]) < Bytes(entries[i]) || (Bytes(entries[j]) == Bytes(entries[i]) && i <= j)
  }
}
