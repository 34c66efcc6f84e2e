# Semantic product search: the query pipeline

This project models the part of the Flask semantic product search in
`app.py` that does not depend on a request. It has four pieces:

- **Facet extraction** (`SemanticAI.extract_semantic_meaning`). The query is
  lower-cased and matched against an ordered keyword table. Matching is
  substring containment, and the first entry in table order wins. The result
  gives an intent, a category, a quality tier and a use case, plus an
  optional price ceiling read from `under $N` or `under N`.
- **The recommendation composer** (`generate_semantic_response`). It builds
  an opening line chosen by the intent, an advice line chosen by the
  quality, and an optional budget sentence, and joins them with newlines.
- **Currency formatting** (`CurrencyConverter.convert_price`). It uses a
  fixed table of rates and symbols.
- **Result assembly** for `/search`, plus the guard and pipeline of
  `/ai-recommend`. When the query is empty, the route returns a prompt.
  Otherwise the list holds the store's products, or the matching fallback
  products, followed by exactly three synthetic entries from Google, Amazon
  and Bing.

The modules follow the program:

- `Text` holds the Python string built-ins the code relies on.
- `Currency` holds the converter.
- `Semantic` holds the keyword table and the extractor.
- `SemanticExamples` holds worked queries.
- `Composer` holds the response text.
- `Routes` holds the two routes.
- `Wrappers` holds `Option`.

The Python loops are Dafny methods with loop invariants. Each method is
proved equal to a specification function:

- `ScanTable` and `ScanUseCases` (the `for … break` scans);
- `ExtractSemanticMeaning`;
- `GenerateSemanticResponse` (list appends, then `"\n".join`);
- `Search`, `AppendStoreListings`, `AppendFallbackListings` and
  `AppendExternalListings` (`results.append` loops);
- `AiRecommend`.

The lemmas then state, about those functions, what the code promises.

Three consequences of the code as written are proved. None of them is
claimed as a defect:

- The quality scan only admits keys ending in `_quality`, and the only such
  key is `premium_quality`. So the quality is never `budget_friendly`
  (`Semantic.QualityNeverBudget`).
- As a consequence, the budget advice line is never composed for an
  extracted query (`Composer.ExtractedAdvice`).
- The `(50, 200)` and `(100, 500)` price ranges are never used by `/search`
  (`Routes.SearchTier`).

The category scan also sees `budget_friendly`, `mid_range` and the five
use-case keys.

An unknown currency code falls back to `"$"` followed by Python's `str()`
of the amount. That gives `"$100"` for an int price, not `"$100.00"`. The
model follows the code (`Currency.ConvertExamples`).

## Model

| member | source | states |
|---|---|---|
| Text.Lower | app.py:119 | the result has the input's length; each upper-case letter becomes the same letter in lower case, and every other character is kept |
| Text.MissingCharNotSubstring | app.py:123 | a keyword holding a character absent from the query is not contained in it |
| Text.IsSubstring | app.py:123 | `sub in s` for strings (also at app.py:365): `sub` occurs at some position of `s`; specified by Text.MissingCharNotSubstring and used through Semantic.Mentions and Routes.NameMatches |
| Text.EndsWith | app.py:123-135 | `s.endswith(suffix)`: the last `|suffix|` characters are `suffix`; the key facts it gives are stated by Semantic.KeyFilter |
| Text.ReplaceCharSpec | app.py:353 | replacing one character by another keeps the length, changes exactly the positions holding that character, and leaves none of it when the two differ |
| Text.ReplaceRemovesSuffix | app.py:124 | `replace` of a suffix whose first character does not occur earlier yields the prefix |
| Text.ReplaceAll | app.py:124 | `str.replace`; specified by Text.ReplaceCharSpec (one-character replacement, position by position) and Text.ReplaceRemovesSuffix (removal of a trailing pattern) |
| Text.StripLeading | app.py:331 | the result is a suffix, everything dropped is white space, and the result does not start with white space |
| Text.StripTrailing | app.py:331 | the result is a prefix, everything dropped is white space, and the result does not end with white space |
| Text.StripDropsSpace | app.py:331 | what `strip` drops in front of and after the kept slice is white space |
| Text.SpaceAfterPrefix | app.py:331 | white space after a prefix of a suffix of a text is white space of that text |
| Text.IsSpace | app.py:331 | the ASCII characters `str.strip()` removes here and at app.py:419 (space, tab to carriage return, and the four separators 0x1C-0x1F); Text.StripLeading, Text.StripTrailing and Text.Strip state what strip does with them |
| Text.Strip | app.py:331 | the result is a slice of the input that neither starts nor ends with white space, and everything before and after that slice is white space; it is empty exactly when the input is all white space |
| Text.NatToString | app.py:186 | `str(n)` is a non-empty digit string, with no leading zero and no point |
| Text.NatToStringRoundTrip | app.py:186 | `int(str(n)) == n` |
| Text.DigitsValue | app.py:149 | `int()` of a digit string; specified by Text.DigitsValueSnoc (the value of a string extended by one digit) and Text.NatToStringRoundTrip (it inverts `str(n)`) |
| Text.DigitsValueSnoc | app.py:149 | `int()` of a digit string extended by one digit is ten times the old value plus that digit |
| Text.JoinSnoc | app.py:188 | appending a part to the list appends the separator and the part to the join, and a one-part list joins to the part |
| Text.Join | app.py:188 | `sep.join(parts)`; specified by Text.JoinSnoc, which gives the join of a list extended by one part |
| Currency.ConvertPrice | app.py:84-94 | `convert_price`; specified by Currency.ConvertPriceShape, Currency.UnknownCurrencyFallsBack, Currency.WholeUnitTruncates and Currency.OtherCurrenciesShowTwoDecimals |
| Currency.PyStr | app.py:86 | `str()` of a price; specified by Currency.PyStrReads: the numeral reads back as the price, and a float has the shortest form |
| Currency.Fixed2 | app.py:94 | `:.2f` of a number of hundredths; specified by Currency.Fixed2Reads |
| Currency.Rates | app.py:75-78 | the rate table, each rate times 100; Currency.TablesAgree relates it to the symbol table |
| Currency.Symbols | app.py:79-82 | the symbol table; Currency.TablesAgree: it has exactly the codes that have a rate, so the symbol lookup never fails |
| Currency.WholeUnitCurrencies | app.py:91 | the two codes shown as whole numbers; Currency.TablesAgree: both have a rate |
| Currency.TablesAgree | app.py:75-91 | the symbol table has exactly the rate table's codes, and JPY and INR are among them |
| Currency.ConvertedTenThousandths | app.py:88 | `converted` in ten-thousandths; Currency.ConvertedValue states that it is exactly price times rate |
| Currency.ConvertedValue | app.py:88 | the computed amount in ten-thousandths is exactly price times rate |
| Currency.ConvertPriceShape | app.py:84-94 | an unknown code gives `"$"` and `str(price)`; a known code gives its symbol followed by a non-empty numeral |
| Currency.UnknownCurrencyFallsBack | app.py:85-86 | an unknown code gives `$` followed by a numeral that reads back as the unconverted price |
| Currency.PyStrReads | app.py:86 | `str()` of an int or two-decimal float reads back as the same amount; a float is written in shortest form: the whole part without leading zeros, a point, one or two decimals, and a trailing `0` only in the single decimal of a whole value (`"7.0"`, `"5.5"`, `"100.99"`) |
| Currency.FloatStrShortest | app.py:86 | a two-decimal float prints as its whole part, a point and one or two decimals, with a trailing `0` only when the decimals are the single `0` |
| Currency.Fixed2Reads | app.py:94 | `:.2f` of a number of hundredths reads back as that number |
| Currency.WholeUnitTruncates | app.py:88-92 | for JPY and INR the numeral after the symbol is all digits, with no point, and names the converted value truncated toward zero |
| Currency.OtherCurrenciesShowTwoDecimals | app.py:88-94 | for the other known codes the numeral has digits, a point and exactly two decimals, and is within half a hundredth of price times rate |
| Currency.ConvertExamples | app.py:75-94 | `$100.00` for 100 USD, `¥11000` for 100 JPY, `$100` for an int 100 under an unknown code, `$100.99` for the float 100.99 |
| Semantic.Mentions | app.py:123 | `any(keyword in query_lower for keyword in keywords)`; used by the facet lemmas Semantic.IntentSpec, Semantic.QualitySpec and Semantic.UseCaseSpec |
| Semantic.Admits | app.py:123-135 | each scan's key filter: `_intent` keys, keys ending in neither `_intent` nor `_quality`, `_quality` keys; Semantic.KeyFilter and Semantic.ScanFilters give its value on every table entry |
| Semantic.Selects | app.py:123-135 | the loop test: the key passes the filter and a keyword is mentioned; Semantic.FirstFromSome and Semantic.FirstFromNone characterise the loop by it |
| Semantic.FirstFrom | app.py:122-125 | a found index is at or after the start and is an entry the scan selects |
| Semantic.FirstFromNone | app.py:122-137 | a scan finds nothing exactly when no entry from the start on is selected |
| Semantic.FirstFromSome | app.py:122-137 | a scan stops at entry `j` exactly when `j` is selected and no earlier entry is |
| Semantic.FirstFromSkips | app.py:122-137 | entries the key filter rejects do not change where a scan stops |
| Semantic.Lookup | app.py:142 | `key in self.semantic_mappings` holds exactly when some entry has the key |
| Semantic.LookupFinds | app.py:142 | the lookup returns the keywords of the first entry with the key |
| Semantic.FirstUseCase | app.py:139-144 | the use case found is one of the listed names |
| Semantic.DigitRunEnd | app.py:147 | the run from `j` is all digits and stops at the end of the text or at a non-digit |
| Semantic.CapturedDigits | app.py:147-149 | the captured group is a non-empty digit string |
| Semantic.CapturedRunIsMaximal | app.py:147 | the captured digits sit right after `under ` or `under $`, and no digit follows them |
| Semantic.PatternAt | app.py:147 | the regular expression `under \$?(\d+)` matches at a position; its captured group is described by Semantic.CapturedRunIsMaximal |
| Semantic.SearchPrice | app.py:147-149 | `re.search` from a position on; specified by Semantic.SearchPriceSpec |
| Semantic.PriceConstraint | app.py:146-149 | `price_constraint`; specified by Semantic.PriceConstraintSpec |
| Semantic.SearchPriceSpec | app.py:146-149 | the search gives None exactly when the pattern matches nowhere, and otherwise the value at the leftmost match |
| Semantic.IntentOf | app.py:121-125 | the value of `intent`; specified by Semantic.IntentSpec |
| Semantic.IntentIn | app.py:121-125 | the intent loop over a table; Semantic.IntentOver gives its result over any table with the declared filter shape |
| Semantic.CategoryOf | app.py:127-131 | the value of `category`; specified by Semantic.CategorySpec and Semantic.CategoryFirstMatch |
| Semantic.QualityOf | app.py:133-137 | the value of `quality`; specified by Semantic.QualitySpec |
| Semantic.UseCaseOf | app.py:139-144 | the value of `use_case`; specified by Semantic.UseCaseSpec |
| Semantic.Extract | app.py:151-158 | `original_query` is the input unchanged |
| Semantic.ScanTable | app.py:122-137 | the `for … break` loop over the table stops at the first entry that passes the filter and is mentioned |
| Semantic.ScanUseCases | app.py:139-144 | the use-case loop returns the first listed name whose table keywords are mentioned |
| Semantic.ExtractSemanticMeaning | app.py:118-158 | the method returns the dictionary the extraction functions specify |
| Semantic.KeyNames | app.py:98-116 | the table has 14 entries, with keys in declaration order |
| Semantic.SemanticMappings | app.py:98-116 | the keyword table in declaration order; Semantic.KeyNames, Semantic.KeysDiffer and Semantic.KeywordsNonEmpty state its keys and keywords |
| Semantic.UseCases | app.py:140 | the fixed use-case list; Semantic.UseCaseKeywords and Semantic.UseCaseLookups state that each name is found in the table |
| Semantic.KeyFilter | app.py:123-135 | for each entry, whether each of the three scans' key filters admits it |
| Semantic.ScanFilters | app.py:122-137 | the intent scan admits the first three entries, the quality scan only `premium_quality`, and the category scan every other entry |
| Semantic.PurchaseName | app.py:124 | `replace('_intent', '')` turns the key `purchase_intent` into `purchase` |
| Semantic.ComparisonName | app.py:124 | it turns `comparison_intent` into `comparison` |
| Semantic.RecommendationName | app.py:124 | it turns `recommendation_intent` into `recommendation` |
| Semantic.KeywordsNonEmpty | app.py:98-116 | no keyword in the table is empty |
| Semantic.KeysDiffer | app.py:98-116 | the keys of the table are pairwise distinct |
| Semantic.IntentOver | app.py:121-125 | over a table whose intent filter admits exactly the first three entries, the intent is the name of the first mentioned one, else `search` |
| Semantic.IntentSpec | app.py:121-125 | the intent is `purchase`, `comparison` or `recommendation`, whichever keyword list is mentioned first in that order, else `search` |
| Semantic.CategoryOver | app.py:127-131 | over such a table, the first admitted entry among 3, 4, 5 and 7 that is mentioned decides the category |
| Semantic.CategorySpec | app.py:127-131 | the category is None exactly when no admitted entry is mentioned, and otherwise it is the key of the first admitted, mentioned entry |
| Semantic.CategoryFirstMatch | app.py:127-131 | conversely, the first admitted, mentioned entry is the category |
| Semantic.QualitySpec | app.py:133-137 | the quality is `premium_quality` exactly when a premium keyword is mentioned, and otherwise `mid_range` |
| Semantic.QualityNeverBudget | app.py:133-137 | the quality is always `premium_quality` or `mid_range`, and never `budget_friendly` |
| Semantic.UseCaseKeywords | app.py:140-142 | the `n`-th use-case name is found at entry `9 + n` of the table |
| Semantic.UseCaseLookups | app.py:140-142 | all five use-case names are found, at entries 9 to 13 |
| Semantic.UseCaseOver | app.py:139-144 | over a table holding the five names at entries 9 to 13, the use case is the first name whose keywords are mentioned, else None |
| Semantic.UseCaseSpec | app.py:139-144 | the use case is the first of photography, productivity, entertainment, fitness and travel whose keywords are mentioned, else None |
| Semantic.PriceConstraintSpec | app.py:146-149 | the ceiling is None exactly when `under \$?\d+` matches nowhere in the lower-cased query, and otherwise it is the value of the digits captured at the leftmost match |
| SemanticExamples.EmptyQueryDefaults | app.py:118-158 | the empty query gets intent `search`, no category, quality `mid_range`, no use case and no ceiling |
| SemanticExamples.BudgetLaptopIsPurchase | app.py:99-125 | "budget laptop" has intent `purchase`, because `get` occurs inside `budget` |
| SemanticExamples.BuyBeforeCompare | app.py:121-125 | "buy or compare" is a purchase, because the first intent entry wins |
| SemanticExamples.MobileBeforeTravel | app.py:127-131 | any query naming a phone keyword is in category `mobile_device`, even when `mobile` is also a travel keyword |
| SemanticExamples.MobileInBothLists | app.py:103-115 | `mobile` is a keyword of both the mobile-device entry and the travel entry |
| SemanticExamples.BudgetCategory | app.py:127-131 | a query naming a budget keyword and no device keyword is in category `budget_friendly` |
| SemanticExamples.TravelUseCase | app.py:139-144 | a travel keyword with none of the earlier use cases' keywords gives use case `travel` |
| SemanticExamples.UnderFiveHundred | app.py:146-149 | both "laptop under $500" and "laptop under 500" have ceiling 500 |
| SemanticExamples.CeilingAtEnd | app.py:146-149 | a query with no `u` before `under `, then an optional `$` and digits up to its end, has those digits' value as its ceiling |
| SemanticExamples.DigitRunToEnd | app.py:147 | `\d+` matched on digits that reach the end of the text takes all of them |
| SemanticExamples.NoUnderNoCeiling | app.py:146-149 | a query without the letter `u` has no ceiling |
| Composer.Opening | app.py:169-174 | the opening line for an intent; Composer.OpeningFirst states that the text starts with it |
| Composer.BudgetPart | app.py:185-186 | the budget sentence; its digits read back as the ceiling (Composer.BudgetLayout) |
| Composer.QualityAdvice | app.py:176-180 | the advice table; Composer.ExtractedAdvice states that every extracted quality has an entry |
| Composer.HasCeiling | app.py:185 | `if price_constraint:`, false for None and for 0; Composer.ZeroCeilingAddsNothing, Composer.BudgetSentenceLast and Composer.NoCeilingEnding state what each value gives |
| Composer.WithAdvice | app.py:169-183 | the opening followed by the advice line when the quality has advice; Composer.OpeningOnly and Composer.NoCeilingEnding state its shape |
| Composer.Response | app.py:160-188 | the returned text; Composer.GenerateSemanticResponse is proved to compute it, and Composer.OpeningFirst, Composer.OpeningOnly, Composer.BudgetSentenceLast and Composer.NoCeilingEnding describe it |
| Composer.GenerateSemanticResponse | app.py:160-188 | the appends and the `"\n"` join produce the opening, then the advice after a blank line, then the budget sentence after a blank line |
| Composer.OpeningFirst | app.py:169-174 | the text starts with the opening line, and that line is chosen by the intent alone |
| Composer.OpeningOnly | app.py:176-186 | the text is the opening alone exactly when the quality has no advice and the ceiling is not truthy |
| Composer.ZeroCeilingAddsNothing | app.py:185-186 | a ceiling of 0 gives the same text as no ceiling |
| Composer.BudgetSentenceLast | app.py:182-188 | for a truthy ceiling the text is the opening and advice, the joining newline, `Under $`, a run of digits that reads back as the ceiling, and the closing words, with nothing after them |
| Composer.BudgetLayout | app.py:185-188 | after any text and the joining newline, the budget part holds `Under $`, digits that read back as n, and the closing words, at fixed positions |
| Composer.NoCeilingEnding | app.py:179-188 | without a truthy ceiling the text ends with the advice line when the quality has one, and is the opening alone otherwise |
| Composer.ExtractedAdvice | app.py:176-183 | for an extracted query the advice is always present, and it is the premium advice exactly when a premium keyword is mentioned, otherwise the balanced advice |
| Routes.NameMatches | app.py:365 | the fallback filter `query.lower() in product['name'].lower()`; Routes.FallbackSpec states which products it keeps |
| Routes.StoreListing | app.py:348-355 | the entry for a store product; Routes.StoreEntries gives its source and flag |
| Routes.LocalListing | app.py:367-374 | the entry for a fallback product; Routes.FallbackFlags gives its source, flag and URL |
| Routes.MockProducts | app.py:358-362 | the three fallback products; Routes.IphoneMatchesFirstOnly and Routes.IphoneFallback state which of them a query finds |
| Routes.StoreListings | app.py:346-355 | the store entries; specified by Routes.StoreListingsSpec |
| Routes.FallbackListings | app.py:358-374 | the fallback entries; specified by Routes.FallbackSpec and Routes.FallbackAppend |
| Routes.ExternalSources | app.py:377-381 | the three external sources with their URLs; Routes.SyntheticUrls states that no URL has a space |
| Routes.SyntheticListing | app.py:383-397 | the entry for one external source; specified by Routes.SyntheticEntries |
| Routes.SyntheticListings | app.py:377-397 | the three external entries; Routes.SyntheticThree and Routes.SyntheticEntries state their order and fields |
| Routes.Authoritative | app.py:342-374 | the store or fallback entries; Routes.AuthoritativeFlags and Routes.StoreEntries describe them |
| Routes.Results | app.py:339-397 | the `results` list; specified by Routes.ResultLayout |
| Routes.SearchAnswer | app.py:329-397 | what `/search` answers; Routes.Search computes it and Routes.EmptyQueryPrompts states the empty-query guard |
| Routes.RecommendAnswer | app.py:417-425 | what `/ai-recommend` answers; Routes.AiRecommend computes it |
| Routes.Plus | app.py:353 | `replace(' ', '+')` keeps the length, leaves no space, and changes exactly the spaces |
| Routes.PriceRange | app.py:384-385 | every tier's range is non-empty |
| Routes.RandInt | app.py:387 | the drawn value lies within the inclusive range |
| Routes.RandIntCovers | app.py:387 | every value of the range is drawn by some draw |
| Routes.SyntheticFor | app.py:383-397 | there is one external entry per source |
| Routes.SyntheticForSnoc | app.py:383-397 | one more source adds its entry at the end |
| Routes.Search | app.py:329-397 | the route gives the prompt or the assembled list the specification functions describe |
| Routes.AppendStoreListings | app.py:346-355 | the loop builds one store entry per returned product, in order |
| Routes.AppendFallbackListings | app.py:364-374 | the loop builds the entries of the matching fallback products, in order |
| Routes.AppendExternalListings | app.py:383-397 | the loop appends one external entry per source to the list it is given |
| Routes.AiRecommend | app.py:417-425 | the route gives the prompt for an empty query, and otherwise the composed response for the stripped query |
| Routes.EmptyQueryPrompts | app.py:331-334 | `/search` prompts exactly when the raw query is all white space, and `/ai-recommend` then prompts too |
| Routes.StoreListingsSpec | app.py:346-355 | the store entries are exactly one entry per product, position by position |
| Routes.StoreEntries | app.py:342-355 | while the store is connected, the authoritative entries are the store entries, with source `MongoDB Atlas` |
| Routes.FallbackSpec | app.py:364-374 | every fallback entry is the entry of a product whose name contains the query ignoring case, and every such product has its entry |
| Routes.FallbackAppend | app.py:364-374 | filtering a catalogue in two parts gives the two parts' entries in order, so catalogue order is kept |
| Routes.FallbackFlags | app.py:367-374 | every fallback entry has `is_db` set, source `Local Database` and the query's search URL |
| Routes.AuthoritativeFlags | app.py:342-374 | every store or fallback entry has `is_db` set |
| Routes.SyntheticThree | app.py:383-397 | three sources give exactly three entries, one per source in order |
| Routes.LayoutWith | app.py:376-397 | appending the external entries to flagged entries gives the flagged entries followed by the Google, Amazon and Bing entries, none flagged |
| Routes.ResultLayout | app.py:339-397 | the list is the authoritative entries, all flagged, followed by exactly three unflagged entries from Google, Amazon and Bing in that order |
| Routes.SyntheticEntries | app.py:383-397 | each external entry's name, description, source and URL come from the query and its source; its price is `r + 0.99` dollars converted, for some `r` in the range of its tier |
| Routes.SearchTier | app.py:384-385 | the tier a search uses is (600, 1500) when a premium keyword is mentioned, and (200, 600) otherwise |
| Routes.OnlyFirstOfThree | app.py:364-374 | of three products, when only the first matches, it gives the only entry |
| Routes.IphoneMatchesFirstOnly | app.py:358-365 | for any query that lower-cases to `iphone`, only the first fallback name contains it, ignoring case |
| Routes.IphoneAbsent | app.py:365 | a query that lower-cases to `iphone` is not contained in a name whose lower-case form has no `i` |
| Routes.IphoneFallback | app.py:358-374 | without the store, any query that lower-cases to `iphone` finds only the first fallback product |
| Routes.IphoneSpellings | app.py:358-374 | both `iphone` and `iPhone` find only the first fallback product, the second through `query.lower()` |
| Routes.PrefixesHaveNoSpaces | app.py:353-380 | none of the URL prefixes contains a space |
| Routes.AuthoritativeUrls | app.py:353-372 | no store or fallback URL contains a space |
| Routes.SyntheticUrls | app.py:377-381 | no external URL contains a space |
| Routes.SyntheticForUrls | app.py:377-394 | for any source list whose addresses have no space, no external entry's URL has one |
| Routes.UrlsHaveNoSpaces | app.py:339-397 | no URL in the list contains a space |

## Left out

- MongoDB (`MongoDBManager`, `search_products`, `log_search`, `get_product_count`) is network I/O. The store's answer is an input sequence and the connected flag is a boolean. The store's own regular-expression matching and its 15-item limit are not modelled.
- `add_data` seeding, `status()`, the `home()` page and the start-up code are I/O and reporting, so they are not modelled.
- The HTML rendering of the list in `search()` is presentation markup. The model ends at the `results` list.
- `random.randint` is replaced by an injected draw, reduced into the range by a remainder (`Routes.RandInt`). It is not a uniform distribution.
- Floating point is not modelled. Prices and rates are exact numbers of hundredths, and the product is exact.
- Currency.OtherCurrenciesShowTwoDecimals: rounds a half-hundredth up on the exact product, which is not IEEE `:.2f`. This decides the last digit of every CNY external price: the exact product 6.5 × (r + 0.99) always lies on a half-hundredth, because 650 × (100r + 99) leaves 50 modulo 100. Python formats the binary product, which lies just above or just below that half, so its last digit may differ from the model's.
- Currency.WholeUnitTruncates: truncates the exact product. `int()` of a binary float product just below a whole number is not modelled.
- Currency.PyStrReads: `str()` of a float is modelled for amounts with at most two decimals, the only floats the program makes (`n + 0.99`). Exponent forms for very large or small floats are not modelled.
- Prices are non-negative (`nat`).
- `str.lower`, `str.strip` and `\d` are modelled on ASCII. Unicode case mapping, Unicode white space and Unicode digits are not.
- Semantic.PriceConstraintSpec: `int()` of the captured digits is modelled for every length. CPython (3.11 and later, and the 2022 security releases of 3.7-3.10) raises `ValueError` when the string has more than 4300 digits. A query with `under ` followed by a longer digit run then fails in both `/search` and `/ai-recommend`. The model instead gives it a ceiling and goes on.
- Semantic.IntentSpec, Semantic.UseCaseSpec: stated on the lower-cased query, which is what the scans see. `Extract` applies `Lower` first.
