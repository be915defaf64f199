# Fundamental stock screener: a verified model

The screener reads a watchlist of US stock tickers, fetches each ticker's fundamentals from
a market-data provider and tags the stock with investment styles. Growth, value, moat,
dividend, cyclical, defensive, distressed, or balanced when nothing else applies. It scores
the stock on four axes:

- valuation (P/E, P/B), up to 30;
- profitability (ROE, gross margin, revenue growth), up to 30;
- cash flow (free-cash-flow yield), up to 25;
- balance-sheet safety (debt/equity), up to 15.

The four scores add up to a total out of 100, which maps to one of five grades. The result
is a table ranked by total score.

This project models that core in Dafny and proves properties of it:

| module | file | content |
|---|---|---|
| `Wrappers` | `wrappers.dfy` | `Option` and `Result` |
| `Fundamentals` | `fundamentals.dfy` | the record of one ticker, the provider as a function, the placeholder record of a failed fetch |
| `Brackets` | `brackets.dfy` | threshold tables ("bands") that state the scorer's `if / elif` chains, with generic bound and monotonicity lemmas |
| `Classifier` | `classifier.dfy` | the style tags: a specification `Tags` and the step-by-step `ClassifyStock` proved equal to it |
| `Scoring` | `scoring.dfy` | the four sub-scores (specification functions and the methods proved equal to them), the composite record, the grade |
| `Watchlist` | `watchlist.dfy` | the default watchlist and the parsing of a comma-separated configuration string |
| `Screener` | `screener.dfy` | the fetch-and-score loop and the ranking |

Python semantics are modelled explicitly where they matter:

- A value the provider does not report is `None`.
- The classifier tests truthiness (`if x and x > c`), so a metric of exactly 0 acts as missing there.
- The scorer tests `is not None`, so a 0 is scored like any other value.
- `str.strip()` removes every character Python's `str.isspace` accepts.
- `str.split(",")` keeps empty pieces.
- Sorting an empty table fails, because it has no `total_score` column.

## Model

| member | source | states |
|---|---|---|
| Fundamentals.Placeholder | fundamental_screener_v2.py:59-61 | a failed fetch yields a record whose ticker and name are the ticker, whose sector and industry are "N/A", and that carries no metric |
| Fundamentals.FetchFundamentals | fundamental_screener_v2.py:25-61 | the record keeps the ticker; a failed fetch gives the placeholder; otherwise the name defaults to the ticker, the sector to "N/A", and free cash flow is derived from the cash-flow rows |
| Brackets.Below | fundamental_screener_v2.py:129-137 | a "less than" chain awards the points of some band whose threshold the value is below, and nothing when the value reaches every threshold |
| Brackets.Above | fundamental_screener_v2.py:142-154 | a "greater than" chain awards the points of some band whose threshold the value exceeds, and nothing when it exceeds none |
| Brackets.LookupAtMostFirst | fundamental_screener_v2.py:127-155 | when points fall along a table, no lookup awards more than the first band's points |
| Brackets.BelowAntitone | fundamental_screener_v2.py:129-137 | in a table with rising thresholds and falling points, a larger value never earns more |
| Brackets.AboveMonotone | fundamental_screener_v2.py:142-154 | in a table with falling thresholds and points, a larger value never earns less |
| Brackets.BelowFour | fundamental_screener_v2.py:130-133 | a four-band "less than" lookup is the `if / elif` chain it stands for |
| Brackets.BelowThree | fundamental_screener_v2.py:135-137 | a three-band "less than" lookup is the `if / elif` chain it stands for |
| Brackets.AboveFour | fundamental_screener_v2.py:143-146 | a four-band "greater than" lookup is the `if / elif` chain it stands for |
| Brackets.AboveThree | fundamental_screener_v2.py:148-150 | a three-band "greater than" lookup is the `if / elif` chain it stands for |
| Classifier.Earns | fundamental_screener_v2.py:79-121 | the rule of each style tag: the growth, value, moat and danger tallies against their thresholds, and the dividend, cyclical and defensive tests; no rule awards balanced (a definition, whose consequences TagsShape states) |
| Classifier.Tags | fundamental_screener_v2.py:63-125 | the specification of the classifier: the earned style tags in rule order, or balanced alone (a definition, whose shape TagsShape states) |
| Classifier.GrowthTally | fundamental_screener_v2.py:79-82 | the step-by-step growth tally equals the growth points the growth rule tests |
| Classifier.ValueTally | fundamental_screener_v2.py:86-91 | the step-by-step value tally equals the value points the value rule tests |
| Classifier.MoatTally | fundamental_screener_v2.py:95-100 | the step-by-step moat tally equals the moat points the moat rule tests |
| Classifier.DangerTally | fundamental_screener_v2.py:115-119 | the step-by-step danger tally equals the danger points the distressed rule tests |
| Classifier.StyleOrderRanks | fundamental_screener_v2.py:83-121 | the tags are tested in a fixed order that covers every style tag |
| Classifier.EarnedAmongSpec | fundamental_screener_v2.py:79-121 | after the first k rules, the list holds exactly the earned tags of those rules, in rule order, each once |
| Classifier.TagsShape | fundamental_screener_v2.py:63-125 | the tag list is never empty; a style tag appears exactly when its rule holds, in the fixed order, at most once; the balanced tag appears exactly when no rule holds, and then alone |
| Classifier.SameRulesSameTags | fundamental_screener_v2.py:63-125 | two records satisfying the same rules get the same tags |
| Classifier.ZeroClassifiesAsMissing | fundamental_screener_v2.py:79-121 | for each of the twelve metrics the classifier reads, a value of exactly 0 gives the same tags as a missing value |
| Classifier.DividendRule | fundamental_screener_v2.py:104-106 | the dividend tag is earned exactly when the yield exceeds 2%, the payout ratio is missing or below 0.8, and free cash flow is present and positive |
| Classifier.DefensiveRule | fundamental_screener_v2.py:108-113 | the cyclical tag is earned exactly for the five cyclical sectors; the defensive tag exactly for the three defensive sectors with a missing beta or one below 0.8 |
| Classifier.ClassifyStock | fundamental_screener_v2.py:63-125 | the rule-by-rule construction of the tag list produces the specified tags |
| Scoring.PeTerm | fundamental_screener_v2.py:129-133 | the P/E term is at most 20 |
| Scoring.PbTerm | fundamental_screener_v2.py:134-137 | the P/B term is at most 10 |
| Scoring.RoeTerm | fundamental_screener_v2.py:142-146 | the ROE term is at most 15 |
| Scoring.GrossMarginTerm | fundamental_screener_v2.py:147-150 | the gross-margin term is at most 10 |
| Scoring.RevenueGrowthTerm | fundamental_screener_v2.py:151-154 | the revenue-growth term is at most 5 |
| Scoring.Valuation | fundamental_screener_v2.py:127-138 | the valuation score is at most 30 |
| Scoring.Profitability | fundamental_screener_v2.py:140-155 | the profitability score is at most 30 |
| Scoring.Cashflow | fundamental_screener_v2.py:157-167 | the cash-flow score is 0 or between 15 and 25 |
| Scoring.ScoreSafety | fundamental_screener_v2.py:169-177 | the safety score is one of 0, 2, 5, 7, 10, 15; 7 without data; otherwise the safety table's points for debt/equity divided by 100 |
| Scoring.ScoreValuation | fundamental_screener_v2.py:127-138 | the branch-by-branch computation equals the valuation score |
| Scoring.ScoreProfitability | fundamental_screener_v2.py:140-155 | the branch-by-branch computation equals the profitability score |
| Scoring.ScoreCashflow | fundamental_screener_v2.py:157-167 | the branch-by-branch computation, including its early exit, equals the cash-flow score |
| Scoring.ValuationAntitoneInPe | fundamental_screener_v2.py:129-133 | a higher P/E never raises the valuation score |
| Scoring.ValuationAntitoneInPb | fundamental_screener_v2.py:134-137 | a higher P/B never raises the valuation score |
| Scoring.ProfitabilityMonotone | fundamental_screener_v2.py:140-155 | a higher ROE, gross margin or revenue growth never lowers the profitability score |
| Scoring.SafetyAntitone | fundamental_screener_v2.py:169-177 | more debt/equity never raises the safety score |
| Scoring.CashflowMonotoneInFcf | fundamental_screener_v2.py:157-167 | for a fixed market capitalisation, of either sign, more free cash flow never lowers the cash-flow score |
| Scoring.MissingDataDefaults | fundamental_screener_v2.py:127-171 | a missing P/E scores like one of 40 and a missing P/B like one of 5 (the worst bands), the other term unchanged, and never more than a present value; with all data missing valuation and profitability are 0 and safety is the neutral 7 |
| Scoring.MissingProfitabilityDefaults | fundamental_screener_v2.py:140-155 | a missing ROE, gross margin or revenue growth scores like a value of 0, the other terms unchanged, and never more than a present value |
| Scoring.MissingCashFlowRow | fundamental_screener_v2.py:29-37 | a failed fetch, or a cash-flow statement lacking either row, leaves free cash flow missing, so the cash-flow score is 0 and the dividend tag is not given |
| Scoring.CashflowZeroIff | fundamental_screener_v2.py:157-167 | the cash-flow score is 0 exactly when free cash flow or market cap is missing, market cap is 0, or free cash flow is not positive |
| Scoring.ZeroPeScoredNotClassified | fundamental_screener_v2.py:129-130 | a P/E of exactly 0 earns the scorer's top 20 points, while the classifier awards the same growth and value points as for a missing P/E |
| Scoring.SafetyAtTopBoundary | fundamental_screener_v2.py:172-174 | debt/equity 29 scores 15 and 30 scores 10, because the strict test is on the ratio 0.3 |
| Scoring.ScoreRecord | fundamental_screener_v2.py:179-194 | the scored record keeps the data and the classifier's tags; its four sub-scores are the valuation, profitability, cash-flow and safety scores of the record; its total is their sum and is at most 100 |
| Scoring.CalculateScore | fundamental_screener_v2.py:179-194 | calling the four scorers and the classifier yields the scored record |
| Scoring.ScoreGrade | fundamental_screener_v2.py:196-201 | a total reaches a grade exactly when it meets that grade's cut-off (35, 50, 65, 80) |
| Scoring.GradeMonotone | fundamental_screener_v2.py:196-201 | a higher total never earns a lower grade |
| Scoring.PlaceholderScore | fundamental_screener_v2.py:179-194 | a failed fetch scores 0, 0, 0 and 7, totals 7, is tagged balanced alone and is graded "avoid" |
| Scoring.StrongExampleTags | fundamental_screener_v2.py:79-106 | a cheap, profitable, dividend-paying technology stock is tagged growth, value, moat and dividend, in that order |
| Scoring.StrongExampleSubScores | fundamental_screener_v2.py:127-177 | that stock scores 30, 30, 21 and 15 |
| Scoring.StrongExampleScore | fundamental_screener_v2.py:179-201 | that stock totals 96 and gets the top grade |
| Watchlist.LeadingSpaces | fundamental_screener_v2.py:20 | counts exactly the leading whitespace |
| Watchlist.TrailingStart | fundamental_screener_v2.py:20 | finds exactly where the trailing whitespace starts |
| Watchlist.Trim | fundamental_screener_v2.py:20 | stripping leaves no whitespace at either end and changes nothing already stripped |
| Watchlist.TrimSpec | fundamental_screener_v2.py:20 | stripping removes only whitespace, and only from the two ends |
| Watchlist.Upper | fundamental_screener_v2.py:22 | upper-casing keeps the length and maps each character on its own |
| Watchlist.Split | fundamental_screener_v2.py:22 | splitting yields at least one piece, and no piece contains a comma |
| Watchlist.SplitJoin | fundamental_screener_v2.py:22 | pieces without commas, joined with commas, split back into the same pieces |
| Watchlist.JoinSplit | fundamental_screener_v2.py:22 | joining the pieces of a split with commas restores the string |
| Watchlist.SplitNoComma | fundamental_screener_v2.py:22 | a string without a comma splits into itself |
| Watchlist.SplitAfterPiece | fundamental_screener_v2.py:22 | a leading comma-free piece followed by a comma splits off as the first piece |
| Watchlist.Normalise | fundamental_screener_v2.py:22 | the comprehension over the pieces: each trimmed and upper-cased, blank ones dropped, order kept (a definition, whose properties NormaliseSpec and NormaliseNormalised state) |
| Watchlist.NormaliseSpec | fundamental_screener_v2.py:22 | parsing comma-free pieces yields no more tickers than pieces, each non-empty, stripped, comma-free and without lower-case letters |
| Watchlist.NormalisePiece | fundamental_screener_v2.py:22 | a non-blank comma-free piece becomes a well-formed ticker |
| Watchlist.NormaliseNormalised | fundamental_screener_v2.py:22 | parsing leaves a list of well-formed tickers unchanged |
| Watchlist.GetWatchlist | fundamental_screener_v2.py:19-23 | a blank configuration string gives the default watchlist |
| Watchlist.DefaultWatchlistNormalised | fundamental_screener_v2.py:6-12 | the default tickers are well formed |
| Watchlist.WatchlistWellFormed | fundamental_screener_v2.py:19-23 | every watchlist consists of well-formed tickers, and a parsed one has at most as many tickers as the string has pieces |
| Watchlist.JoinEnds | fundamental_screener_v2.py:22 | a comma-joined string starts with the first piece and ends with the last |
| Watchlist.JoinTrimmed | fundamental_screener_v2.py:20-22 | well-formed tickers joined with commas form a non-blank string that stripping leaves unchanged |
| Watchlist.ParseSplitsInto | fundamental_screener_v2.py:20-22 | a stripped string that splits into well-formed tickers parses to exactly those tickers |
| Watchlist.WatchlistRoundTrip | fundamental_screener_v2.py:19-23 | a non-empty list of well-formed tickers, joined with commas, parses back to the same list in the same order |
| Watchlist.CommaOnlyGivesEmptyWatchlist | fundamental_screener_v2.py:20-22 | the string "," is not blank, so it gives an empty watchlist rather than the default |
| Watchlist.ParseExample | fundamental_screener_v2.py:20-22 | " aapl, ,msft " parses to AAPL, MSFT: stripped, upper-cased, blank piece dropped, order kept |
| Watchlist.TrimExample | fundamental_screener_v2.py:20 | stripping the example removes its outer spaces only |
| Watchlist.SplitExample | fundamental_screener_v2.py:22 | splitting the example keeps its blank middle piece |
| Watchlist.NormaliseExample | fundamental_screener_v2.py:22 | the blank piece is dropped and the others are upper-cased |
| Screener.ScoreTicker | fundamental_screener_v2.py:210-211 | the scored row of a ticker keeps the ticker; a failed fetch scores 7, is tagged balanced alone and graded "avoid" |
| Screener.Collected | fundamental_screener_v2.py:208-212 | one row per ticker, in ticker order, each the scored record of that ticker |
| Screener.TickersOf | fundamental_screener_v2.py:208-212 | the ticker column of the rows, row by row |
| Screener.CollectedTickers | fundamental_screener_v2.py:208-212 | the collected rows carry exactly the watchlist's tickers, in watchlist order |
| Screener.Insert | fundamental_screener_v2.py:214 | the insertion step of the ranking: a row goes before the first row whose total does not exceed its own (a definition, whose properties the Insert lemmas state) |
| Screener.SortByScore | fundamental_screener_v2.py:214 | the ranking by total score, highest first, as an insertion sort (a definition, whose properties the SortByScore lemmas state) |
| Screener.InsertMultiset | fundamental_screener_v2.py:213-214 | inserting a row adds exactly that row |
| Screener.InsertTickers | fundamental_screener_v2.py:213-214 | inserting a row adds exactly that row's ticker |
| Screener.InsertRanked | fundamental_screener_v2.py:213-214 | inserting into a ranked table keeps it ranked |
| Screener.SortByScoreRanked | fundamental_screener_v2.py:213-214 | the sorted table is ordered by total score, highest first |
| Screener.SortByScorePermutes | fundamental_screener_v2.py:213-214 | sorting only reorders the rows |
| Screener.SortByScoreKeepsTickers | fundamental_screener_v2.py:213-214 | sorting keeps the multiset of tickers |
| Screener.RunScreener | fundamental_screener_v2.py:203-215 | an empty watchlist fails; otherwise the table is ranked by total, holds exactly the scored rows of the watchlist, and one row per ticker (duplicates included); tie order is left open |

## Left out

- Market data: the provider library, the network and its exceptions are the parameter `provider`. `None` stands for a fetch that raised. Each cash-flow row is `None` when the statement is empty or lacks it.
- Reading the `CUSTOM_TICKERS` environment variable: the configuration string is a parameter of `GetWatchlist`.
- `save_results` and the `__main__` block: CSV and Markdown output, directories and the clock are not modelled.
- The progress and warning messages printed along the way.
- Floating point: metrics are exact reals. Rounding errors at a threshold, NaN and infinities are not modelled. In particular, `debt_equity / 100` is exact.
- The `round(·, 1)` of the scores: they are integers, so it changes nothing.
- Labels: tags and grades are enumerations, not the display strings with emoji. `stock_types_str`, the tags joined with " | ", is not modelled.
- DataFrame mechanics: the table is a sequence of rows, and `reset_index` is not modelled.
- Screener.SortByScore: the library sort is not stable. The model fixes one order among equal totals, and `RunScreener` promises nothing about it.
- Records missing keys: a placeholder lacks the metric keys entirely, and the model reads each missing key as `None`, as `dict.get` does.
- Watchlist.Upper: upper-cases ASCII letters only. Python's `str.upper` also maps other letters, some to several characters.

## Behaviour worth knowing

These follow from the code as written:

- Debt/equity of exactly 30 (a ratio of 0.3) scores 10, not 15, because the test is strict. `Scoring.SafetyAtTopBoundary` states this.
- A free-cash-flow yield of 0.05 earns a cash-flow bonus of 6, not 10. The strong example of `Scoring.StrongExampleScore` therefore totals 96.
- Rows with equal totals are not guaranteed to stay in fetch order: the library sort is not stable. The model's insertion sort happens to keep them in fetch order, and `Screener.RunScreener` promises no order among them.
- An empty watchlist makes the ranking fail rather than yield an empty table. A configuration string of just "," leads there: it is not blank, so the default list is not used, and every piece is dropped. `Screener.RunScreener` and `Watchlist.CommaOnlyGivesEmptyWatchlist` state this.
