/**
 * `SemanticAI.generate_semantic_response`: the recommendation text built
 * from the facets of a query.  It collects an opening line chosen by the
 * intent, an optional quality-advice line and an optional budget line, and
 * joins them with newlines.
 */
module Composer {
  import opened Wrappers
  import opened Text
  import opened Semantic

  const RecommendationOpening := " **Based on your request, here are my top recommendations:**"
  const ComparisonOpening := " **Here's what I found for comparison:**"
  const DefaultOpening := " **Semantic Analysis Results:**"

  const PremiumAdvice := " **Premium Choice**: Expect top-tier performance, build quality, and latest features"
  const BudgetAdvice := " **Budget Smart**: Great value options that don't compromise on essentials"
  const BalancedAdvice := " **Balanced Option**: Perfect mix of features and affordability"

  /** The `quality_advice` table. */
  const QualityAdvice: map<string, string> := map[
    "premium_quality" := PremiumAdvice,
    "budget_friendly" := BudgetAdvice,
    "mid_range" := BalancedAdvice
  ]

  /** The opening line for an intent. */
  function Opening(intent: string): string
  {
    if intent == "recommendation" then RecommendationOpening
    else if intent == "comparison" then ComparisonOpening
    else DefaultOpening
  }

  /** The part appended for a truthy price ceiling `n`. */
  function BudgetPart(n: nat): string
  {
    BudgetLead + NatToString(n) + BudgetTail
  }

  /** The budget part around the ceiling's digits. */
  const BudgetLead := "\n **Budget Constraint**: Under $"
  const BudgetTail := " - I'll prioritize value and essential features"

  /** `if price_constraint:` -- None and 0 are both falsy. */
  predicate HasCeiling(d: SemanticData)
  {
    d.priceConstraint.Some? && d.priceConstraint.value != 0
  }

  /** The opening, followed for a quality in the advice table by the
      joining newline and the advice part (itself starting with a newline). */
  function WithAdvice(d: SemanticData): string
  {
    if d.quality in QualityAdvice then Opening(d.intent) + "\n" + ("\n" + QualityAdvice[d.quality])
    else Opening(d.intent)
  }

  /** The text the function returns, written out as its three pieces
      separated by the joining newline: the opening; then, for a quality in
      the advice table, a blank line and the advice; then, for a truthy
      ceiling, a blank line and the budget sentence. */
  function Response(d: SemanticData): string
  {
    if HasCeiling(d) then WithAdvice(d) + "\n" + BudgetPart(d.priceConstraint.value)
    else WithAdvice(d)
  }

  /** `generate_semantic_response(semantic_data)`: appends the parts to a
      list in order and joins the list with `"\n"`. */
  method GenerateSemanticResponse(d: SemanticData) returns (r: string)
    ensures r == Response(d)
  {
    var parts: seq<string> := [];
    parts := parts + [Opening(d.intent)];
    if d.quality in QualityAdvice {
      JoinSnoc(parts, "\n" + QualityAdvice[d.quality], "\n");
      parts := parts + ["\n" + QualityAdvice[d.quality]];
    }
    if HasCeiling(d) {
      JoinSnoc(parts, BudgetPart(d.priceConstraint.value), "\n");
      parts := parts + [BudgetPart(d.priceConstraint.value)];
    }
    r := Join(parts, "\n");
  }

  // ------------------------------------------------------------ properties

  /** The opening comes first and depends on the intent alone:
      recommendation and comparison have their own lines, every other
      intent gets the default one. */
  lemma OpeningFirst(d: SemanticData)
    ensures StartsWith(Response(d), Opening(d.intent))
    ensures d.intent == "recommendation" ==> StartsWith(Response(d), RecommendationOpening)
    ensures d.intent == "comparison" ==> StartsWith(Response(d), ComparisonOpening)
    ensures d.intent != "recommendation" && d.intent != "comparison" ==>
      StartsWith(Response(d), DefaultOpening)
  {
    var o := Opening(d.intent);
    var wa := WithAdvice(d);
    if d.quality in QualityAdvice {
      PrefixOfAppend(o, "\n");
      StartsWithExtend(o + "\n", "\n" + QualityAdvice[d.quality], o);
    } else {
      PrefixOfAppend(o, []);
      assert o + [] == o;
    }
    if HasCeiling(d) {
      StartsWithExtend(wa, "\n", o);
      StartsWithExtend(wa + "\n", BudgetPart(d.priceConstraint.value), o);
    }
  }

  /** The text is the opening alone exactly when the quality has no advice
      and there is no truthy ceiling. */
  lemma OpeningOnly(d: SemanticData)
    ensures Response(d) == Opening(d.intent) <==> d.quality !in QualityAdvice && !HasCeiling(d)
  {
    var o := Opening(d.intent);
    var wa := WithAdvice(d);
    assert |wa| >= |o|;
    assert d.quality in QualityAdvice ==> |wa| > |o|;
    assert HasCeiling(d) ==> |Response(d)| > |wa|;
  }

  /** A ceiling of 0 adds nothing: the text is the one for no ceiling. */
  lemma ZeroCeilingAddsNothing(d: SemanticData)
    requires d.priceConstraint == Some(0)
    ensures Response(d) == Response(d.(priceConstraint := None))
  {
  }

  /** From position `p` on, `r` holds `Under $`, a run of digits that reads
      as `n`, the closing words, and nothing more. */
  predicate BudgetSentenceAt(r: string, p: nat, n: nat)
  {
    var e := |r| - |BudgetTail|;
    && p + |BudgetLead| < e
    && r[p..p + |BudgetLead|] == BudgetLead
    && AllDigits(r[p + |BudgetLead|..e]) && DigitsValue(r[p + |BudgetLead|..e]) == n
    && r[e..] == BudgetTail
  }

  /** A truthy ceiling puts the budget sentence last: the text is the
      opening and advice, the joining newline, then `Under $`, a run of
      digits that reads back as the ceiling, and the closing words. */
  lemma BudgetSentenceLast(d: SemanticData)
    requires HasCeiling(d)
    ensures var p := |WithAdvice(d)| + 1;
      p <= |Response(d)| && Response(d)[..p] == WithAdvice(d) + "\n"
      && BudgetSentenceAt(Response(d), p, d.priceConstraint.value)
  {
    var n := d.priceConstraint.value;
    assert Response(d) == WithAdvice(d) + "\n" + BudgetPart(n);
    BudgetLayout(WithAdvice(d), n);
  }

  /** The budget part after any text `w` and the joining newline. */
  lemma BudgetLayout(w: string, n: nat)
    ensures var r := w + "\n" + BudgetPart(n);
      |w| + 1 <= |r| && r[..|w| + 1] == w + "\n" && BudgetSentenceAt(r, |w| + 1, n)
  {
    NatToStringRoundTrip(n);
    SentenceLayout(w, BudgetLead, NatToString(n), BudgetTail);
  }

  /** The pieces of `w + "\n" + (lead + m + tail)` sit where they were put. */
  lemma SentenceLayout(w: string, lead: string, m: string, tail: string)
    ensures var r := w + "\n" + (lead + m + tail); var p := |w| + 1; var e := |r| - |tail|;
      && p + |lead| + |m| == e
      && r[..p] == w + "\n" && r[p..p + |lead|] == lead && r[p + |lead|..e] == m && r[e..] == tail
  {
  }

  /** Without a truthy ceiling the text ends with the advice line when the
      quality has one, and is the opening alone otherwise. */
  lemma NoCeilingEnding(d: SemanticData)
    requires !HasCeiling(d)
    ensures d.quality in QualityAdvice ==> EndsWith(Response(d), "\n" + QualityAdvice[d.quality])
    ensures d.quality !in QualityAdvice ==> Response(d) == Opening(d.intent)
  {
    if d.quality in QualityAdvice {
      EndsWithAppend(Opening(d.intent) + "\n", "\n" + QualityAdvice[d.quality]);
    }
  }

  lemma EndsWithAppend(a: string, b: string)
    ensures EndsWith(a + b, b)
  {
    assert (a + b)[|a + b| - |b|..] == b;
  }

  /** For an extracted query the advice line is always there, and it is
      the premium one exactly when the query names a premium keyword: the
      budget advice is never given. */
  lemma ExtractedAdvice(query: string)
    ensures var d := Extract(query);
      d.quality in QualityAdvice &&
      QualityAdvice[d.quality] ==
        if Mentions(PremiumWords, Lower(query)) then PremiumAdvice else BalancedAdvice
  {
    QualitySpec(query);
  }
}
