# CryptoBuddy and the garment advice rules, in Dafny

This project models two small rule engines.

**CryptoBuddy** is a chatbot that answers a few fixed questions about a table of
four cryptocurrencies. Each coin has a symbol, a price trend, a market-cap tier,
an energy-use tier and a sustainability score. `reply` lower-cases and strips the
question. It then checks keyword groups in a fixed order:

1. sustainability;
2. trend;
3. buying;
4. help;
5. listing.

The first group the question mentions picks the answer. The answers are:

- the most sustainable coin;
- the rising coin with the largest market cap;
- an investment pick, either long-term or by a weighted score;
- the help text;
- the coin listing;
- a "didn't understand" message.

Every answer that names a coin ends with a disclaimer.

The **garment rules** (`recommend`) map a garment's predicted category and
condition to one of four fixed pieces of advice: donate, repair, recycle, or a
fallback.

Files:

- `option.dfy`: `Optional`, for Python's `None`.
- `text.dfy`: `Text`. Models Python's `str.lower()`, `str.strip()`, the `in` substring test, `"\n".join` with its inverse split, and `{x:.1f}` for a count of tenths.
- `scan.dfy`: `Scan`. Models `max(xs, key=f)` as an explicit stable scan that replaces the running best only on a strictly greater key, so the first maximum wins. Also models the filtering comprehension, kept as the list of positions it selects.
- `cryptobuddy.dfy`: `CryptoBuddy`. The coin table, the queries, the router, the answer texts, the facts about the fixed table, and worked questions.
- `inference.dfy`: `Inference`. `recommend`.

### Modelling choices

- **Table order.** The table is a `seq<Coin>` in the dictionary's insertion order.
- **Any table.** Every query takes the table as a parameter, so its properties hold for any table. `CryptoDb` is the shipped table.
- **Scores.** Scores are exact counts of tenths, so 3/10 is `3`. The weights are in tenths too: rising 20, stable 10, falling 0; cap low 5, medium 10, high 15.
- **Unknown labels.** Trend and tier texts are open enumerations: an unknown text is kept as `OtherTrend(text)` or `OtherTier(text)`.
  - `coin_score` adds 0 for an unknown text (`.get(..., 0)`).
  - `mapping[...]` raises `KeyError` for one. This is modelled as `Raises(KeyError(text))`.
- **Empty table.** `max` over an empty table is `Raises(EmptyMax)`.
- **Ties.** Bitcoin and Cardano both score 3.8 in `coin_score`, and `max` keeps the earlier of the two, so the simple pick is Bitcoin (`TableDefaultPick`).
- **Answers.** Each answer is a structured value (`Answer`: which template, which coin). `Render` turns it into the source's text.

## Model

| member | source | states |
|---|---|---|
| Scan.FirstMax | CryptoAdvisor-chatbot/cryptobuddy.py:62 | `max` over keys returns the first position whose key no key exceeds and that every earlier key is below |
| Scan.MaxFrom | CryptoAdvisor-chatbot/cryptobuddy.py:74 | the left-to-right scan that replaces the best only on a strictly greater key ends at the first maximum |
| Scan.FirstMaxUnique | CryptoAdvisor-chatbot/cryptobuddy.py:103 | the first maximum is unique, so the scan's answer is determined by the keys alone |
| Scan.Where | CryptoAdvisor-chatbot/cryptobuddy.py:69 | the comprehension keeps exactly the positions that satisfy the test, in increasing (table) order |
| CryptoBuddy.LabelsRoundTrip | CryptoAdvisor-chatbot/cryptobuddy.py:10-12 | the trend and tier enumerations are in one-to-one correspondence with the label texts, unknown texts included |
| CryptoBuddy.TableIsWellFormed | CryptoAdvisor-chatbot/cryptobuddy.py:7-36 | the table's keys are distinct, every score is at most 10/10 and no entry holds a line break |
| CryptoBuddy.CoinScoreWeights | CryptoAdvisor-chatbot/cryptobuddy.py:99-102 | an unknown trend or cap adds 0 to `coin_score`; falling < stable < rising and low < medium < high, for both the score weights and the `mapping` ranks |
| CryptoBuddy.TrendWeight | CryptoAdvisor-chatbot/cryptobuddy.py:100 | `trend_score.get(..., 0)` in tenths; its order and the 0 for unknown texts are `CoinScoreWeights` |
| CryptoBuddy.CapWeight | CryptoAdvisor-chatbot/cryptobuddy.py:101 | `market_score.get(..., 0)` in tenths; its order and the 0 for unknown texts are `CoinScoreWeights` |
| CryptoBuddy.CoinScore | CryptoAdvisor-chatbot/cryptobuddy.py:99-102 | `coin_score` in exact tenths; the unknown-label and ordering facts are `CoinScoreWeights`, the shipped values `TableDefaultPick` |
| CryptoBuddy.CapRank | CryptoAdvisor-chatbot/cryptobuddy.py:73 | a market cap has no rank (0, never compared) exactly when `mapping` has no key for it; low < medium < high is in `CoinScoreWeights` |
| CryptoBuddy.SustainableIndex | CryptoAdvisor-chatbot/cryptobuddy.py:62 | the chosen coin's score is at least every coin's, and every earlier coin scores strictly less |
| CryptoBuddy.TopCapRising | CryptoAdvisor-chatbot/cryptobuddy.py:69-74 | no pick iff no coin is rising; a KeyError at the first rising coin with an unknown cap; else a rising coin of maximal cap rank, earliest on ties |
| CryptoBuddy.FirstLongTerm | CryptoAdvisor-chatbot/cryptobuddy.py:82-85 | None iff no coin is rising with score above 7/10; otherwise the first such coin in table order |
| CryptoBuddy.DefaultIndex | CryptoAdvisor-chatbot/cryptobuddy.py:99-103 | the chosen coin's weighted score is at least every coin's, and every earlier coin's is strictly less |
| CryptoBuddy.MostSustainable | CryptoAdvisor-chatbot/cryptobuddy.py:61-66 | an error iff the table is empty, and then only `max()`'s; otherwise the first coin of maximal sustainability |
| CryptoBuddy.TrendingUp | CryptoAdvisor-chatbot/cryptobuddy.py:68-77 | the no-rising message iff no coin is rising; KeyError iff a rising coin has an unknown cap, naming the first one; otherwise the first rising coin of maximal cap rank |
| CryptoBuddy.RecommendForInvestment | CryptoAdvisor-chatbot/cryptobuddy.py:79-106 | with "long": the first long-term candidate, else `_trending_up`'s choice reworded (no-candidate message, fallback coin or the same KeyError); without: the first coin of maximal weighted score, an error only on an empty table |
| CryptoBuddy.AsLongTermFallback | CryptoAdvisor-chatbot/cryptobuddy.py:89-97 | the long-term fallback is `_trending_up`'s choice in the fallback's words; `RecommendForInvestment`'s second ensures is the proof that the branch equals it |
| CryptoBuddy.LongTermTestIsLong | CryptoAdvisor-chatbot/cryptobuddy.py:80 | any query containing "long-term" contains "long", so the second half of the test never decides |
| CryptoBuddy.Reply | CryptoAdvisor-chatbot/cryptobuddy.py:45-59 | every coin a reply names or lists is a coin of the table, and the only exceptions are `max()` of an empty table and the KeyError of a rising coin whose cap has no rank; the routing itself is `ClassifyFollowsRules`, `IgnoresCase` and `IgnoresSurroundingSpace` |
| CryptoBuddy.Route | CryptoAdvisor-chatbot/cryptobuddy.py:48-59 | the same guarantee for an already normalised query |
| CryptoBuddy.Normalize | CryptoAdvisor-chatbot/cryptobuddy.py:46 | the normalised query is the lower-cased input with an all-whitespace prefix and suffix cut off (`IsStrip`), has no capital letter, and begins and ends with a non-space |
| CryptoBuddy.NormalizeIdempotent | CryptoAdvisor-chatbot/cryptobuddy.py:46 | lower-casing and stripping a second time changes nothing |
| CryptoBuddy.Mentions | CryptoAdvisor-chatbot/cryptobuddy.py:48-52 | `any(x in q for x in words)`; what it decides is `FirstMatchIsEarliest` and `FirstMatchNone` |
| CryptoBuddy.Classify | CryptoAdvisor-chatbot/cryptobuddy.py:48-59 | the ordered keyword tests of `reply`; `ClassifyFollowsRules` proves them a first-match scan over the groups |
| CryptoBuddy.ClassifyFollowsRules | CryptoAdvisor-chatbot/cryptobuddy.py:48-59 | the router is a first-match-wins scan over the ordered keyword groups sustainability, trend, buy, help, list |
| CryptoBuddy.FirstMatchIsEarliest | CryptoAdvisor-chatbot/cryptobuddy.py:48-57 | the group that decides is the earliest group the query mentions |
| CryptoBuddy.FirstMatchNone | CryptoAdvisor-chatbot/cryptobuddy.py:58-59 | a query mentioning no group gets the fallback |
| CryptoBuddy.TrendOutranksInvest | CryptoAdvisor-chatbot/cryptobuddy.py:50-53 | a query with a trend keyword and no sustainability keyword gets the trend answer even if it says "buy" |
| CryptoBuddy.RecommendMeansSustainable | CryptoAdvisor-chatbot/cryptobuddy.py:48-53 | any query containing "recommend" contains "eco" and gets the most sustainable coin |
| CryptoBuddy.ShowMeansHelp | CryptoAdvisor-chatbot/cryptobuddy.py:54-57 | any query containing "show" contains "how", so it never reaches the listing |
| CryptoBuddy.IgnoresCase | CryptoAdvisor-chatbot/cryptobuddy.py:46 | two questions with the same lower case get the same reply |
| CryptoBuddy.IgnoresSurroundingSpace | CryptoAdvisor-chatbot/cryptobuddy.py:46 | whitespace around a question does not change the reply |
| Text.Lower | CryptoAdvisor-chatbot/cryptobuddy.py:46 | lower() keeps the length and leaves no capital letter |
| Text.LowerIdempotent | CryptoAdvisor-chatbot/cryptobuddy.py:46 | lower() of a lower-cased text changes nothing |
| Text.LowerOfLowercase | CryptoAdvisor-chatbot/cryptobuddy.py:46 | a text without capitals is its own lower case |
| Text.LowerAppend | CryptoAdvisor-chatbot/cryptobuddy.py:46 | lower() of a concatenation is the concatenation of the lower cases |
| Text.LowerKeepsSpace | CryptoAdvisor-chatbot/cryptobuddy.py:46 | lower() turns whitespace into whitespace and nothing else into whitespace |
| Text.TrimStart | CryptoAdvisor-chatbot/cryptobuddy.py:46 | the result is a suffix, the removed prefix is all whitespace, and the result starts with a non-space or is empty |
| Text.TrimEnd | CryptoAdvisor-chatbot/cryptobuddy.py:46 | the result is a prefix, the removed suffix is all whitespace, and the result ends with a non-space or is empty |
| Text.Strip | CryptoAdvisor-chatbot/cryptobuddy.py:46 | strip() is a slice of the input between an all-whitespace prefix and an all-whitespace suffix (`IsStrip`), and begins and ends with a non-space |
| Text.StripKeepsLowercase | CryptoAdvisor-chatbot/cryptobuddy.py:46 | strip() of a text without capitals has none, so `lower().strip()` is lower-case |
| Text.LeftTrimUnique | CryptoAdvisor-chatbot/cryptobuddy.py:46 | only one string meets the lstrip() description, so `TrimStart` is the lstrip() |
| Text.RightTrimUnique | CryptoAdvisor-chatbot/cryptobuddy.py:46 | only one string meets the rstrip() description |
| Text.StripIgnoresPadding | CryptoAdvisor-chatbot/cryptobuddy.py:46 | strip() of a string with whitespace added on both sides equals strip() of the string |
| Text.Contains | CryptoAdvisor-chatbot/cryptobuddy.py:48-57 | Python's `x in q` on strings: some position of `q` starts an occurrence of `x`; used through `ContainsTransitive` and `AbsentCharacter` |
| Text.AbsentCharacter | CryptoAdvisor-chatbot/cryptobuddy.py:48-57 | a keyword holding a character the query lacks is not in the query |
| Text.ContainsTransitive | CryptoAdvisor-chatbot/cryptobuddy.py:48-57 | a substring of a substring is a substring |
| Text.NatToString | CryptoAdvisor-chatbot/cryptobuddy.py:113 | decimal digits without a leading zero that `int()` (`DigitsValue`) reads back as the number |
| Text.FormatTenths | CryptoAdvisor-chatbot/cryptobuddy.py:113 | `:.1f` of a count of tenths is digits, a point and one digit, with no leading zero in the whole part, and the digits with the point removed read back as the count |
| Text.JoinLines | CryptoAdvisor-chatbot/cryptobuddy.py:115 | `"\n".join(lines)`; `SplitJoinLines` is its inverse and `JoinLinesLast` its last character |
| Text.SplitJoinLines | CryptoAdvisor-chatbot/cryptobuddy.py:115 | splitting a newline join of lines without newlines gives those lines back |
| CryptoBuddy.Render | CryptoAdvisor-chatbot/cryptobuddy.py:58-115 | the text of each answer; `DisclaimerOnlyOnPicks` and `ListingLayout` state what the texts have in common |
| CryptoBuddy.CoinLine | CryptoAdvisor-chatbot/cryptobuddy.py:113 | one listing line; `CoinLineIsOneLine` proves it one line |
| CryptoBuddy.DisclaimerOnlyOnPicks | CryptoAdvisor-chatbot/cryptobuddy.py:58-115 | a reply ends with the disclaimer iff it names a coin; help, listing, no-rising, no-candidate and fallback texts do not |
| CryptoBuddy.ListingLayout | CryptoAdvisor-chatbot/cryptobuddy.py:112-115 | the listing splits into the header followed by exactly one line per coin, in table order |
| CryptoBuddy.CoinLineIsOneLine | CryptoAdvisor-chatbot/cryptobuddy.py:113 | a listing line holds no line break when the coin's texts hold none |
| CryptoBuddy.TableListingLayout | CryptoAdvisor-chatbot/cryptobuddy.py:7-36 | the shipped table's listing is the header followed by one line per coin |
| CryptoBuddy.TableMostSustainable | CryptoAdvisor-chatbot/cryptobuddy.py:61-66 | on the shipped table the most sustainable coin is Algorand |
| CryptoBuddy.TableTrendingUp | CryptoAdvisor-chatbot/cryptobuddy.py:68-77 | on the shipped table the trending pick is Bitcoin, whose high cap beats Cardano's medium |
| CryptoBuddy.TableLongTerm | CryptoAdvisor-chatbot/cryptobuddy.py:82-85 | on the shipped table the first long-term candidate is Cardano |
| CryptoBuddy.TableDefaultPick | CryptoAdvisor-chatbot/cryptobuddy.py:99-103 | Bitcoin and Cardano both score 3.8, Ethereum 3.1 and Algorand 1.4; the tie goes to Bitcoin, the earlier coin |
| CryptoBuddy.TableInvestment | CryptoAdvisor-chatbot/cryptobuddy.py:79-106 | on the shipped table a long-term question gets Cardano and any other buying question Bitcoin |
| CryptoBuddy.AskSustainableCoin | CryptoAdvisor-chatbot/cryptobuddy.py:48-49 | the help text's sustainability question gets Algorand |
| CryptoBuddy.AskWhichToBuy | CryptoAdvisor-chatbot/cryptobuddy.py:52-53 | the help text's buying question gets the simple pick, Bitcoin |
| CryptoBuddy.AskInvestLong | CryptoAdvisor-chatbot/cryptobuddy.py:80-88 | "Invest long" gets the long-term pick, Cardano |
| CryptoBuddy.AskListCoins | CryptoAdvisor-chatbot/cryptobuddy.py:56-57 | "List coins" gets the listing of the table |
| CryptoBuddy.AskNothingKnown | CryptoAdvisor-chatbot/cryptobuddy.py:58-59 | a question with no keyword gets the "didn't understand" message |
| CryptoBuddy.AskHelpSuggestion | CryptoAdvisor-chatbot/cryptobuddy.py:110 | the help text's own long-term question, after lower(), is routed to the trend answer and gets Bitcoin |
| CryptoBuddy.AskBuyForGrowth | CryptoAdvisor-chatbot/cryptobuddy.py:50-51 | "buy for long-term growth" gets the trending coin, not the long-term pick |
| Inference.Recommend | sdg-machine-learning/inference.py:13-22 | the result is one of the four advice strings: donate iff the condition is "good" and the category a listed garment; repair iff "torn"; recycle iff "worn"; the fallback otherwise |
| Inference.Is | sdg-machine-learning/inference.py:15-20 | Python's `==` against a string literal; a class number never equals it (`ClassNumbersFallBack`) |
| Inference.IsGarment | sdg-machine-learning/inference.py:16 | membership in the garment list; its effect is `Recommend`'s donate clause and `GoodNonGarmentFallsBack` |
| Inference.UserTextIgnored | sdg-machine-learning/inference.py:13 | the optional free text never changes the advice |
| Inference.CategoryMattersOnlyWhenGood | sdg-machine-learning/inference.py:15-22 | unless the condition is "good", the category makes no difference |
| Inference.GoodNonGarmentFallsBack | sdg-machine-learning/inference.py:15-22 | a good item outside the garment list gets the fallback |
| Inference.ClassNumbersFallBack | sdg-machine-learning/inference.py:28-30 | class numbers, as the script passes them, always get the fallback |
| Inference.LabelsAreCaseSensitive | sdg-machine-learning/inference.py:15-17 | labels match exactly: "Good" and "T-shirt" do not count as "good" and "t-shirt" |

Three consequences of the keyword order are proved above:

- "recommend" in the buying group can never decide, because "recommend" contains "eco".
- "show" in the listing group can never decide, because "show" contains "how".
- The help text's own suggestion, "Which crypto should I buy for long-term growth?", contains "growth" and no sustainability keyword, so it gets the trending answer, not the long-term pick (`AskHelpSuggestion`, on the lower-cased question).

## Left out

- The console loop of `cryptobuddy.py` (lines 119-129) is input and output only.
- `load_model` and `preprocess` in `inference.py` (lines 5-11) call into TensorFlow, PIL and NumPy.
- The script entry point of `inference.py` (lines 24-30) runs the classifier. It is represented only by `Inference.ClassNumbersFallBack`: `argmax` yields numbers, and `recommend` compares with strings.
- Floating-point rounding of the scores and weights is not modelled; sums are exact tenths. For the shipped table the float sums of Bitcoin and Cardano are also equal, so the pick is the same.
- Text.Lower: folds only ASCII capitals; Python's lower() also folds other scripts.
- The `name` and `tone` fields set in `__init__` (lines 39-41) are never read by the modelled methods.
- Negative scores and scores that are not whole tenths are outside the model (`score: nat`).
- `Render` builds the answer texts but is not checked character by character against Python's formatting; its contract-level facts are the disclaimer and the listing layout.
- Text.FormatTenths: takes a non-negative count of tenths; Python's `:.1f` of a negative number or of a value between tenths is not modelled.
- The worked questions are stated on the text `reply` matches after lower(), except `AskInvestLong` and `AskListCoins`, which start from capitalised input.
