/**
 * `SemanticAI`: the ordered keyword table and `extract_semantic_meaning`,
 * which classifies a query by intent, category, quality tier and use case
 * and reads an optional price ceiling from an `under $N` phrase.
 */
module Semantic {
  import opened Wrappers
  import opened Text

  /** One entry of `semantic_mappings`: a facet name and its trigger words. */
  datatype Mapping = Mapping(key: string, keywords: seq<string>)

  const PurchaseWords: seq<string> := ["buy", "purchase", "get", "need", "want", "looking for", "shopping for", "find me"]
  const ComparisonWords: seq<string> := ["compare", "vs", "versus", "difference", "better", "best between"]
  const RecommendationWords: seq<string> := ["recommend", "suggest", "advice", "what should", "help me choose"]
  const MobileWords: seq<string> := ["phone", "smartphone", "mobile", "cell phone", "iphone", "android", "device"]
  const ComputerWords: seq<string> := ["laptop", "notebook", "computer", "macbook", "pc", "workstation", "ultrabook"]
  const AudioWords: seq<string> := ["headphones", "earbuds", "headset", "speakers", "audio", "sound"]
  const PremiumWords: seq<string> := ["premium", "high-end", "luxury", "professional", "top-tier", "flagship", "pro"]
  const BudgetWords: seq<string> := ["cheap", "budget", "affordable", "economical", "value", "low-cost", "inexpensive"]
  const MidRangeWords: seq<string> := ["mid-range", "moderate", "decent", "good", "standard", "average"]
  const PhotographyWords: seq<string> := ["camera", "photo", "photography", "pictures", "selfie", "portrait", "video recording"]
  const ProductivityWords: seq<string> := ["work", "office", "business", "productivity", "professional", "coding", "programming"]
  const EntertainmentWords: seq<string> := ["gaming", "movies", "music", "streaming", "entertainment", "media", "fun"]
  const FitnessWords: seq<string> := ["fitness", "workout", "exercise", "running", "sports", "health", "tracking"]
  const TravelWords: seq<string> := ["travel", "portable", "lightweight", "compact", "on-the-go", "mobile"]

  /** `semantic_mappings`, in declaration (and so iteration) order. */
  const SemanticMappings: seq<Mapping> := [
    Mapping("purchase_intent", PurchaseWords),
    Mapping("comparison_intent", ComparisonWords),
    Mapping("recommendation_intent", RecommendationWords),
    Mapping("mobile_device", MobileWords),
    Mapping("computer", ComputerWords),
    Mapping("audio_device", AudioWords),
    Mapping("premium_quality", PremiumWords),
    Mapping("budget_friendly", BudgetWords),
    Mapping("mid_range", MidRangeWords),
    Mapping("photography", PhotographyWords),
    Mapping("productivity", ProductivityWords),
    Mapping("entertainment", EntertainmentWords),
    Mapping("fitness", FitnessWords),
    Mapping("travel", TravelWords)]

  /** The fixed `use_cases` list scanned for the use-case facet. */
  const UseCases: seq<string> := ["photography", "productivity", "entertainment", "fitness", "travel"]

  /** The dictionary `extract_semantic_meaning` returns. */
  datatype SemanticData = SemanticData(
    intent: string,
    category: Option<string>,
    quality: string,
    useCase: Option<string>,
    priceConstraint: Option<nat>,
    originalQuery: string)

  // ------------------------------------------------------ keyword scans

  /** `any(keyword in q for keyword in keywords)`. */
  predicate Mentions(keywords: seq<string>, q: string)
  {
    exists k | k in keywords :: IsSubstring(k, q)
  }

  /** The three scans over the whole table, each with its key filter. */
  datatype Scan = IntentScan | CategoryScan | QualityScan

  /** The key filter of each scan: keys ending in `_intent`; keys ending
      in neither `_intent` nor `_quality`; keys ending in `_quality`. */
  predicate Admits(scan: Scan, key: string)
  {
    match scan
    case IntentScan => EndsWith(key, "_intent")
    case CategoryScan => !EndsWith(key, "_intent") && !EndsWith(key, "_quality")
    case QualityScan => EndsWith(key, "_quality")
  }

  /** The loop body's test: the entry passes the filter and the query
      mentions one of its keywords. */
  predicate Selects(scan: Scan, m: Mapping, q: string)
  {
    Admits(scan, m.key) && Mentions(m.keywords, q)
  }

  /** The index of the first entry from `i` on that the scan selects: where
      the `for ... break` loop stops. */
  function FirstFrom(scan: Scan, table: seq<Mapping>, q: string, i: nat): (r: Option<nat>)
    requires i <= |table|
    ensures r.Some? ==> i <= r.value < |table| && Selects(scan, table[r.value], q)
    decreases |table| - i
  {
    if i == |table| then None
    else if Selects(scan, table[i], q) then Some(i)
    else FirstFrom(scan, table, q, i + 1)
  }

  /** The scan finds nothing exactly when no entry from `i` on is selected. */
  lemma {:induction false} FirstFromNone(scan: Scan, table: seq<Mapping>, q: string, i: nat)
    requires i <= |table|
    ensures FirstFrom(scan, table, q, i).None? <==>
      forall j | i <= j < |table| :: !Selects(scan, table[j], q)
    decreases |table| - i
  {
    if i < |table| {
      FirstFromNone(scan, table, q, i + 1);
    }
  }

  /** The scan stops at entry `j` exactly when `j` is selected and no entry
      between `i` and `j` is. */
  lemma {:induction false} FirstFromSome(scan: Scan, table: seq<Mapping>, q: string, i: nat, j: nat)
    requires i <= j < |table|
    ensures FirstFrom(scan, table, q, i) == Some(j) <==>
      Selects(scan, table[j], q) && forall k | i <= k < j :: !Selects(scan, table[k], q)
    decreases |table| - i
  {
    if i < j {
      FirstFromSome(scan, table, q, i + 1, j);
    }
  }

  /** Entries the filter rejects are passed over. */
  lemma {:induction false} FirstFromSkips(scan: Scan, table: seq<Mapping>, q: string, i: nat, j: nat)
    requires i <= j <= |table|
    requires forall k | i <= k < j :: !Admits(scan, table[k].key)
    ensures FirstFrom(scan, table, q, i) == FirstFrom(scan, table, q, j)
    decreases j - i
  {
    if i < j {
      FirstFromSkips(scan, table, q, i + 1, j);
    }
  }

  /** `self.semantic_mappings[key]` when `key in self.semantic_mappings`. */
  function Lookup(table: seq<Mapping>, key: string): (r: Option<seq<string>>)
    ensures r.Some? <==> exists j | 0 <= j < |table| :: table[j].key == key
  {
    if table == [] then None
    else if table[0].key == key then Some(table[0].keywords)
    else
      var r := Lookup(table[1..], key);
      assert forall j | 1 <= j < |table| :: table[j] == table[1..][j - 1];
      r
  }

  /** The use-case loop: the first name in `cases` that is a key of the
      table whose keywords the query mentions. */
  function FirstUseCase(cases: seq<string>, table: seq<Mapping>, q: string): (r: Option<string>)
    ensures r.Some? ==> r.value in cases
  {
    if cases == [] then None
    else match Lookup(table, cases[0])
      case Some(keywords) =>
        if Mentions(keywords, q) then Some(cases[0]) else FirstUseCase(cases[1..], table, q)
      case None => FirstUseCase(cases[1..], table, q)
  }

  // ------------------------------------------------------ price ceiling

  /** The end of the maximal run of digits starting at `j`. */
  function DigitRunEnd(q: string, j: nat): (e: nat)
    requires j <= |q|
    ensures j <= e <= |q| && AllDigits(q[j..e])
    ensures e == |q| || !IsDigit(q[e])
    decreases |q| - j
  {
    if j < |q| && IsDigit(q[j]) then
      var e := DigitRunEnd(q, j + 1);
      assert q[j..e] == [q[j]] + q[j + 1..e];
      e
    else j
  }

  /** The regular expression `under \$?(\d+)` matches at position `i`. */
  predicate PatternAt(q: string, i: nat)
  {
    && i + 6 <= |q| && q[i..i + 6] == "under "
    && ((i + 6 < |q| && IsDigit(q[i + 6])) ||
        (i + 7 < |q| && q[i + 6] == '$' && IsDigit(q[i + 7])))
  }

  /** The digits group 1 of a match at `i` captures: `\d+` is greedy. */
  function CapturedDigits(q: string, i: nat): (ds: string)
    requires PatternAt(q, i)
    ensures ds != [] && AllDigits(ds)
  {
    var start := if q[i + 6] == '$' then i + 7 else i + 6;
    q[start..DigitRunEnd(q, start)]
  }

  /** `re.search` for the pattern from position `i` on. */
  function SearchPrice(q: string, i: nat): Option<nat>
    requires i <= |q|
    decreases |q| - i
  {
    if i == |q| then None
    else if PatternAt(q, i) then Some(DigitsValue(CapturedDigits(q, i)))
    else SearchPrice(q, i + 1)
  }

  /** `int(match.group(1))` of the leftmost match in `q`, if any. */
  function PriceConstraint(q: string): Option<nat>
  {
    SearchPrice(q, 0)
  }

  /** The search finds the leftmost match: None exactly when the pattern
      matches nowhere, otherwise the value of the digits captured at the
      first position where it matches. */
  lemma {:induction false} SearchPriceSpec(q: string, i: nat)
    requires i <= |q|
    ensures SearchPrice(q, i).None? <==> forall j | i <= j < |q| :: !PatternAt(q, j)
    ensures forall j | i <= j < |q| && PatternAt(q, j) && (forall k | i <= k < j :: !PatternAt(q, k)) ::
      SearchPrice(q, i) == Some(DigitsValue(CapturedDigits(q, j)))
    decreases |q| - i
  {
    if i < |q| {
      SearchPriceSpec(q, i + 1);
    }
  }

  // ---------------------------------------------------------- extraction

  /** The value of `intent` after its loop over the lower-cased query. */
  function IntentOf(q: string): string
  {
    IntentIn(SemanticMappings, q)
  }

  /** The intent loop over a table `t`. */
  function IntentIn(t: seq<Mapping>, q: string): string
  {
    match FirstFrom(IntentScan, t, q, 0)
    case None => "search"
    case Some(j) => ReplaceAll(t[j].key, "_intent", "")
  }

  /** The value of `category` after its loop. */
  function CategoryOf(q: string): Option<string>
  {
    match FirstFrom(CategoryScan, SemanticMappings, q, 0)
    case None => None
    case Some(j) => Some(SemanticMappings[j].key)
  }

  /** The value of `quality` after its loop. */
  function QualityOf(q: string): string
  {
    match FirstFrom(QualityScan, SemanticMappings, q, 0)
    case None => "mid_range"
    case Some(j) => SemanticMappings[j].key
  }

  /** The value of `use_case` after its loop. */
  function UseCaseOf(q: string): Option<string>
  {
    FirstUseCase(UseCases, SemanticMappings, q)
  }

  /** What `extract_semantic_meaning(query)` returns. */
  function Extract(query: string): (d: SemanticData)
    ensures d.originalQuery == query
  {
    var q := Lower(query);
    SemanticData(IntentOf(q), CategoryOf(q), QualityOf(q), UseCaseOf(q), PriceConstraint(q), query)
  }

  /** One of the three `for key, keywords in self.semantic_mappings.items()`
      loops: it stops at the first entry whose key passes the scan's
      filter and whose keywords the query mentions. */
  method ScanTable(scan: Scan, table: seq<Mapping>, queryLower: string) returns (found: Option<nat>)
    ensures found == FirstFrom(scan, table, queryLower, 0)
  {
    found := None;
    var i := 0;
    while i < |table|
      invariant 0 <= i <= |table|
      invariant FirstFrom(scan, table, queryLower, 0) == FirstFrom(scan, table, queryLower, i)
    {
      if Selects(scan, table[i], queryLower) {
        found := Some(i);
        break;
      }
      i := i + 1;
    }
  }

  /** The `for case in use_cases` loop. */
  method ScanUseCases(cases: seq<string>, table: seq<Mapping>, queryLower: string) returns (useCase: Option<string>)
    ensures useCase == FirstUseCase(cases, table, queryLower)
  {
    useCase := None;
    var i := 0;
    while i < |cases|
      invariant 0 <= i <= |cases|
      invariant FirstUseCase(cases, table, queryLower) == FirstUseCase(cases[i..], table, queryLower)
    {
      var keywords := Lookup(table, cases[i]);
      assert cases[i..][1..] == cases[i + 1..];
      if keywords.Some? && Mentions(keywords.value, queryLower) {
        useCase := Some(cases[i]);
        break;
      }
      i := i + 1;
    }
  }

  /** `extract_semantic_meaning`: the four scanning loops, each stopping at
      its first hit, then the price search. */
  method ExtractSemanticMeaning(query: string) returns (data: SemanticData)
    ensures data == Extract(query)
  {
    var queryLower := Lower(query);
    var table := SemanticMappings;

    var intent := "search";
    var found := ScanTable(IntentScan, table, queryLower);
    if found.Some? {
      intent := ReplaceAll(table[found.value].key, "_intent", "");
    }

    var category: Option<string> := None;
    found := ScanTable(CategoryScan, table, queryLower);
    if found.Some? {
      category := Some(table[found.value].key);
    }

    var quality := "mid_range";
    found := ScanTable(QualityScan, table, queryLower);
    if found.Some? {
      quality := table[found.value].key;
    }

    var useCase := ScanUseCases(UseCases, table, queryLower);

    var priceConstraint := PriceConstraint(queryLower);
    data := SemanticData(intent, category, quality, useCase, priceConstraint, query);
  }

  // ------------------------------------------------------ table facts

  lemma KeyNames()
    ensures |SemanticMappings| == 14
    ensures SemanticMappings[0].key == "purchase_intent" && SemanticMappings[1].key == "comparison_intent"
    ensures SemanticMappings[2].key == "recommendation_intent" && SemanticMappings[3].key == "mobile_device"
    ensures SemanticMappings[4].key == "computer" && SemanticMappings[5].key == "audio_device"
    ensures SemanticMappings[6].key == "premium_quality" && SemanticMappings[7].key == "budget_friendly"
    ensures SemanticMappings[8].key == "mid_range" && SemanticMappings[9].key == "photography"
    ensures SemanticMappings[10].key == "productivity" && SemanticMappings[11].key == "entertainment"
    ensures SemanticMappings[12].key == "fitness" && SemanticMappings[13].key == "travel"
  {
  }

  lemma IntentSuffixesHead()
    ensures EndsWith("purchase_intent", "_intent") && EndsWith("comparison_intent", "_intent")
    ensures EndsWith("recommendation_intent", "_intent") && !EndsWith("mobile_device", "_intent")
    ensures !EndsWith("computer", "_intent")
  {
  }

  lemma IntentSuffixesMiddle()
    ensures !EndsWith("audio_device", "_intent") && !EndsWith("premium_quality", "_intent")
    ensures !EndsWith("budget_friendly", "_intent") && !EndsWith("mid_range", "_intent")
    ensures !EndsWith("photography", "_intent")
  {
  }

  lemma IntentSuffixesTail()
    ensures !EndsWith("productivity", "_intent") && !EndsWith("entertainment", "_intent")
    ensures !EndsWith("fitness", "_intent") && !EndsWith("travel", "_intent")
  {
  }

  lemma QualitySuffixesHead()
    ensures !EndsWith("purchase_intent", "_quality") && !EndsWith("comparison_intent", "_quality")
    ensures !EndsWith("recommendation_intent", "_quality") && !EndsWith("mobile_device", "_quality")
    ensures !EndsWith("computer", "_quality")
  {
  }

  lemma QualitySuffixesMiddle()
    ensures !EndsWith("audio_device", "_quality") && EndsWith("premium_quality", "_quality")
    ensures !EndsWith("budget_friendly", "_quality") && !EndsWith("mid_range", "_quality")
    ensures !EndsWith("photography", "_quality")
  {
  }

  lemma QualitySuffixesTail()
    ensures !EndsWith("productivity", "_quality") && !EndsWith("entertainment", "_quality")
    ensures !EndsWith("fitness", "_quality") && !EndsWith("travel", "_quality")
  {
  }

  /** What each scan's key filter makes of entry `j`. */
  lemma KeyFilter(j: nat)
    requires j < |SemanticMappings|
    ensures var key := SemanticMappings[j].key;
      && (Admits(IntentScan, key) <==> j < 3)
      && (Admits(QualityScan, key) <==> j == 6)
      && (Admits(CategoryScan, key) <==> 3 <= j && j != 6)
  {
    KeyNames();
    IntentSuffixesHead();
    IntentSuffixesMiddle();
    IntentSuffixesTail();
    QualitySuffixesHead();
    QualitySuffixesMiddle();
    QualitySuffixesTail();
    if j == 0 {} else if j == 1 {} else if j == 2 {} else if j == 3 {} else if j == 4 {}
    else if j == 5 {} else if j == 6 {} else if j == 7 {} else if j == 8 {} else if j == 9 {}
    else if j == 10 {} else if j == 11 {} else if j == 12 {} else {}
  }

  /** Which table entries each scan's key filter lets through: the intent
      scan sees the three `_intent` keys, the quality scan only
      `premium_quality`, and the category scan everything else, including
      `budget_friendly`, `mid_range` and the five use-case keys. */
  lemma ScanFilters()
    ensures |SemanticMappings| == 14
    ensures forall j | 0 <= j < 14 :: Admits(IntentScan, SemanticMappings[j].key) <==> j < 3
    ensures forall j | 0 <= j < 14 :: Admits(QualityScan, SemanticMappings[j].key) <==> j == 6
    ensures forall j | 0 <= j < 14 :: Admits(CategoryScan, SemanticMappings[j].key) <==> 3 <= j && j != 6
  {
    KeyNames();
    forall j | 0 <= j < 14
      ensures Admits(IntentScan, SemanticMappings[j].key) <==> j < 3
      ensures Admits(QualityScan, SemanticMappings[j].key) <==> j == 6
      ensures Admits(CategoryScan, SemanticMappings[j].key) <==> 3 <= j && j != 6
    {
      KeyFilter(j);
    }
  }

  /** No keyword of the table is empty. */
  lemma KeywordsNonEmpty()
    ensures forall j, k | 0 <= j < |SemanticMappings| && k in SemanticMappings[j].keywords :: k != []
  {
  }

  // ------------------------------------------------------ facet properties

  /** The intent scan over any table whose filter admits exactly its first
      three entries, named `n0`, `n1` and `n2` once the suffix is dropped. */
  lemma IntentOver(t: seq<Mapping>, q: string, n0: string, n1: string, n2: string)
    requires |t| == 14
    requires forall j | 0 <= j < 14 :: Admits(IntentScan, t[j].key) <==> j < 3
    requires ReplaceAll(t[0].key, "_intent", "") == n0
    requires ReplaceAll(t[1].key, "_intent", "") == n1
    requires ReplaceAll(t[2].key, "_intent", "") == n2
    ensures IntentIn(t, q) ==
      if Mentions(t[0].keywords, q) then n0
      else if Mentions(t[1].keywords, q) then n1
      else if Mentions(t[2].keywords, q) then n2
      else "search"
  {
    assert FirstFrom(IntentScan, t, q, 0) ==
      if Selects(IntentScan, t[0], q) then Some(0) else FirstFrom(IntentScan, t, q, 1);
    assert FirstFrom(IntentScan, t, q, 1) ==
      if Selects(IntentScan, t[1], q) then Some(1) else FirstFrom(IntentScan, t, q, 2);
    assert FirstFrom(IntentScan, t, q, 2) ==
      if Selects(IntentScan, t[2], q) then Some(2) else FirstFrom(IntentScan, t, q, 3);
    FirstFromSkips(IntentScan, t, q, 3, 14);
  }

  /** The category scan over any table whose filter admits every entry
      from 3 on except entry 6: the first three admitted entries decide
      the category when one of them is mentioned. */
  lemma CategoryOver(t: seq<Mapping>, q: string)
    requires |t| == 14
    requires forall j | 0 <= j < 14 :: Admits(CategoryScan, t[j].key) <==> 3 <= j && j != 6
    ensures Mentions(t[3].keywords, q) ==> FirstFrom(CategoryScan, t, q, 0) == Some(3)
    ensures !Mentions(t[3].keywords, q) && Mentions(t[4].keywords, q) ==>
      FirstFrom(CategoryScan, t, q, 0) == Some(4)
    ensures !Mentions(t[3].keywords, q) && !Mentions(t[4].keywords, q) && Mentions(t[5].keywords, q) ==>
      FirstFrom(CategoryScan, t, q, 0) == Some(5)
    ensures (!Mentions(t[3].keywords, q) && !Mentions(t[4].keywords, q) && !Mentions(t[5].keywords, q)
      && Mentions(t[7].keywords, q)) ==> FirstFrom(CategoryScan, t, q, 0) == Some(7)
  {
    FirstFromSkips(CategoryScan, t, q, 0, 3);
    assert FirstFrom(CategoryScan, t, q, 3) ==
      if Selects(CategoryScan, t[3], q) then Some(3) else FirstFrom(CategoryScan, t, q, 4);
    assert FirstFrom(CategoryScan, t, q, 4) ==
      if Selects(CategoryScan, t[4], q) then Some(4) else FirstFrom(CategoryScan, t, q, 5);
    assert FirstFrom(CategoryScan, t, q, 5) ==
      if Selects(CategoryScan, t[5], q) then Some(5) else FirstFrom(CategoryScan, t, q, 6);
    FirstFromSkips(CategoryScan, t, q, 6, 7);
    assert FirstFrom(CategoryScan, t, q, 7) ==
      if Selects(CategoryScan, t[7], q) then Some(7) else FirstFrom(CategoryScan, t, q, 8);
  }

  lemma PurchaseName()
    ensures ReplaceAll("purchase_intent", "_intent", "") == "purchase"
  {
    assert "purchase_intent" == "purchase" + "_intent";
    ReplaceRemovesSuffix("purchase", "_intent");
  }

  lemma ComparisonName()
    ensures ReplaceAll("comparison_intent", "_intent", "") == "comparison"
  {
    assert "comparison_intent" == "comparison" + "_intent";
    ReplaceRemovesSuffix("comparison", "_intent");
  }

  lemma RecommendationName()
    ensures ReplaceAll("recommendation_intent", "_intent", "") == "recommendation"
  {
    assert "recommendation_intent" == "recommendation" + "_intent";
    ReplaceRemovesSuffix("recommendation", "_intent");
  }

  /** Intent: the first of purchase, comparison and recommendation (in that
      order) whose keyword list the lower-cased query mentions, else
      `search`. */
  lemma IntentSpec(q: string)
    ensures IntentOf(q) ==
      if Mentions(PurchaseWords, q) then "purchase"
      else if Mentions(ComparisonWords, q) then "comparison"
      else if Mentions(RecommendationWords, q) then "recommendation"
      else "search"
  {
    ScanFilters();
    KeyNames();
    PurchaseName();
    ComparisonName();
    RecommendationName();
    IntentOver(SemanticMappings, q, "purchase", "comparison", "recommendation");
  }

  /** Quality: `premium_quality` exactly when the lower-cased query
      mentions a premium keyword, otherwise `mid_range`. */
  lemma QualitySpec(query: string)
    ensures Extract(query).quality ==
      if Mentions(PremiumWords, Lower(query)) then "premium_quality" else "mid_range"
  {
    var q := Lower(query);
    ScanFilters();
    FirstFromSkips(QualityScan, SemanticMappings, q, 0, 6);
    FirstFromSkips(QualityScan, SemanticMappings, q, 7, 14);
  }

  /** `budget_friendly` is never the quality a query gets. */
  lemma QualityNeverBudget(query: string)
    ensures Extract(query).quality in {"premium_quality", "mid_range"}
    ensures Extract(query).quality != "budget_friendly"
  {
    QualitySpec(query);
  }

  /** Category: None exactly when no entry the category filter admits is
      mentioned; otherwise the key of the first admitted, mentioned entry
      in table order. */
  lemma CategorySpec(query: string)
    ensures var q := Lower(query); var c := Extract(query).category;
      (c.None? <==> forall j | 0 <= j < |SemanticMappings| :: !Selects(CategoryScan, SemanticMappings[j], q)) &&
      (c.Some? ==> exists j | 0 <= j < |SemanticMappings| ::
        && c.value == SemanticMappings[j].key
        && Selects(CategoryScan, SemanticMappings[j], q)
        && forall k | 0 <= k < j :: !Selects(CategoryScan, SemanticMappings[k], q))
  {
    var q := Lower(query);
    FirstFromNone(CategoryScan, SemanticMappings, q, 0);
    var f := FirstFrom(CategoryScan, SemanticMappings, q, 0);
    if f.Some? {
      FirstFromSome(CategoryScan, SemanticMappings, q, 0, f.value);
    }
  }

  /** Conversely, the first admitted, mentioned entry is the category. */
  lemma CategoryFirstMatch(query: string, j: nat)
    requires j < |SemanticMappings|
    requires Selects(CategoryScan, SemanticMappings[j], Lower(query))
    requires forall k | 0 <= k < j :: !Selects(CategoryScan, SemanticMappings[k], Lower(query))
    ensures Extract(query).category == Some(SemanticMappings[j].key)
  {
    FirstFromSome(CategoryScan, SemanticMappings, Lower(query), 0, j);
  }

  /** `self.semantic_mappings[key]` finds the first entry with the key. */
  lemma {:induction false} LookupFinds(table: seq<Mapping>, key: string, j: nat)
    requires j < |table| && table[j].key == key
    requires forall k | 0 <= k < j :: table[k].key != key
    ensures Lookup(table, key) == Some(table[j].keywords)
  {
    if j > 0 {
      LookupFinds(table[1..], key, j - 1);
    }
  }

  /** Distinct entries of the table have distinct keys. */
  lemma KeysDiffer(j: nat, k: nat)
    requires j < k < |SemanticMappings|
    ensures SemanticMappings[j].key != SemanticMappings[k].key
  {
    KeyNames();
    var a, b := SemanticMappings[j].key, SemanticMappings[k].key;
    assert |a| != |b| || a[0] != b[0] || a[1] != b[1];
  }

  /** The keyword list `self.semantic_mappings[name]` of use case `n`,
      found at entry `9 + n` of the table. */
  lemma UseCaseKeywords(n: nat)
    requires n < 5
    ensures Lookup(SemanticMappings, UseCases[n]) == Some(SemanticMappings[9 + n].keywords)
  {
    var t := SemanticMappings;
    KeyNames();
    var key := UseCases[n];
    forall k | 0 <= k < 9 + n
      ensures t[k].key != key
    {
      KeysDiffer(k, 9 + n);
    }
    LookupFinds(t, key, 9 + n);
  }

  /** Every use-case name is found, at entry `9 + n` of the table. */
  lemma UseCaseLookups()
    ensures forall n | 0 <= n < 5 :: Lookup(SemanticMappings, UseCases[n]) == Some(SemanticMappings[9 + n].keywords)
  {
    forall n | 0 <= n < 5
      ensures Lookup(SemanticMappings, UseCases[n]) == Some(SemanticMappings[9 + n].keywords)
    {
      UseCaseKeywords(n);
    }
  }

  /** The use-case loop over five names that a table `t` finds at entries
      9 to 13. */
  lemma UseCaseOver(cases: seq<string>, t: seq<Mapping>, q: string)
    requires |cases| == 5 && |t| == 14
    requires forall n | 0 <= n < 5 :: Lookup(t, cases[n]) == Some(t[9 + n].keywords)
    ensures FirstUseCase(cases, t, q) ==
      if Mentions(t[9].keywords, q) then Some(cases[0])
      else if Mentions(t[10].keywords, q) then Some(cases[1])
      else if Mentions(t[11].keywords, q) then Some(cases[2])
      else if Mentions(t[12].keywords, q) then Some(cases[3])
      else if Mentions(t[13].keywords, q) then Some(cases[4])
      else None
  {
    var c1, c2, c3, c4 := cases[1..], cases[2..], cases[3..], cases[4..];
    assert c1[0] == cases[1] && c1[1..] == c2;
    assert c2[0] == cases[2] && c2[1..] == c3;
    assert c3[0] == cases[3] && c3[1..] == c4;
    assert c4[0] == cases[4] && c4[1..] == [];
    assert Lookup(t, cases[0]) == Some(t[9].keywords);
    assert Lookup(t, c1[0]) == Some(t[10].keywords);
    assert Lookup(t, c2[0]) == Some(t[11].keywords);
    assert Lookup(t, c3[0]) == Some(t[12].keywords);
    assert Lookup(t, c4[0]) == Some(t[13].keywords);
    assert FirstUseCase(c4, t, q) == if Mentions(t[13].keywords, q) then Some(cases[4]) else FirstUseCase([], t, q);
    assert FirstUseCase(c3, t, q) == if Mentions(t[12].keywords, q) then Some(cases[3]) else FirstUseCase(c4, t, q);
    assert FirstUseCase(c2, t, q) == if Mentions(t[11].keywords, q) then Some(cases[2]) else FirstUseCase(c3, t, q);
    assert FirstUseCase(c1, t, q) == if Mentions(t[10].keywords, q) then Some(cases[1]) else FirstUseCase(c2, t, q);
    assert FirstUseCase(cases, t, q) == if Mentions(t[9].keywords, q) then Some(cases[0]) else FirstUseCase(c1, t, q);
  }

  /** Use case: the first of photography, productivity, entertainment,
      fitness and travel whose keywords the lower-cased query mentions. */
  lemma UseCaseSpec(q: string)
    ensures UseCaseOf(q) ==
      if Mentions(PhotographyWords, q) then Some("photography")
      else if Mentions(ProductivityWords, q) then Some("productivity")
      else if Mentions(EntertainmentWords, q) then Some("entertainment")
      else if Mentions(FitnessWords, q) then Some("fitness")
      else if Mentions(TravelWords, q) then Some("travel")
      else None
  {
    UseCaseLookups();
    UseCaseOver(UseCases, SemanticMappings, q);
  }

  /** Price ceiling: None exactly when `under \$?\d+` matches nowhere in
      the lower-cased query; otherwise the value of the maximal digit run
      captured at the leftmost match. */
  lemma PriceConstraintSpec(query: string)
    ensures var q := Lower(query); var p := Extract(query).priceConstraint;
      (p.None? <==> forall i | 0 <= i < |q| :: !PatternAt(q, i)) &&
      forall i | 0 <= i < |q| && PatternAt(q, i) && (forall k | 0 <= k < i :: !PatternAt(q, k)) ::
        p == Some(DigitsValue(CapturedDigits(q, i)))
  {
    SearchPriceSpec(Lower(query), 0);
  }

  /** The digits a match captures are a maximal run: nothing numeric
      follows them. */
  lemma CapturedRunIsMaximal(q: string, i: nat)
    requires PatternAt(q, i)
    ensures var start := if q[i + 6] == '$' then i + 7 else i + 6;
      var e := start + |CapturedDigits(q, i)|;
      e <= |q| && q[start..e] == CapturedDigits(q, i) && (e == |q| || !IsDigit(q[e]))
  {
  }
}
