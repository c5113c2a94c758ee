# ETF analytics engine — a verified Dafny model

This project models the analytics core of an ETF screener service. The service builds one snapshot record for each ticker of a fixed universe of 80 exchange-traded funds. Each record is computed from two inputs: a quote snapshot, which is a dictionary of loosely typed fields, and one year of daily price bars. The records are gathered into one report, and a ticker whose fetch or build fails is listed separately.

Modules, leaf first:

- `Values` (values.dfy): the numeric primitives.
  - Quote values: Python's None, NaN, a bool, an int, a float or a string.
  - `dict.get` with a default. The default applies only when the key is absent, not when the key maps to None.
  - Truthiness, `safe_float`, `safe_bool`, `int()` truncation, and the decimal text of integers with its parser.
- `Text` (text.dfy): lower-casing, the substring test `kw in s`, and `s[:n]`.
- `Indicators` (indicators.dfy): the 50/150/200-bar moving averages and the 14-bar RSI. The pandas `diff`, `where` and `rolling(n).mean().iloc[-1]` are written as functions over sequences.
- `Expense` (expense.dfy): the expense-ratio resolver. It tries five quote fields first-match-wins, then the static per-ticker table, then 0.30.
- `Classifier` (classifier.dfy): the asset class from keyword substrings, with precedence Fixed Income > Commodity > Equity.
- `Scoring` (scoring.dfy): the liquidity ("lwowski") score, the near-52-week percentage and the four technical flags.
- `Record` (record.dfy): the field fallbacks and the record assembly of `get_etf_data`.
- `Batch` (batch.dfy): the ticker universe and the `get_etfs` loop, as a method with loop invariants.

The model follows the code as written:

- The default expense ratio is the literal `0.30`, in the same unit as the table, which the program's own comment at server_fixed.py:92 reads as "0.30%". The record multiplies every ratio by 100, so a ticker that falls through to this default shows an expense of 30.
- The ticker test of the classifier is a substring test: any ticker that contains "bnd", say, counts. `XbndIsFixedIncome` shows this.
- When the 14-bar window has gains but no losses, the RSI is 100. This value comes from IEEE division by zero. Only a window with no movement at all gives the default 50.
- A zero AUM or volume gives the score 5000, but the converse does not hold. Nonzero inputs can also score 5000 (`DefaultScoreAlsoComputed`).
- The expense-ratio resolver can fail. A non-empty string reached before any qualifying field makes `value > 0` raise a TypeError, and then the ticker yields no record. A string in a later field is never examined (`LaterStringIgnored`). `ExpenseFailsIff` states exactly when the resolver fails, and `ExpenseNeverFails` proves that it succeeds whenever none of the five fields holds a non-empty string.

The market-data provider is a parameter of the batch, `fetch: string -> Option<Snapshot>`. None stands for a failed retrieval.

## Model

| member | source | states |
|---|---|---|
| `Values.Get` | server_fixed.py:129 | definition of `dict.get(key, default)`: the stored value when the key is present, even when that value is None; the default only when the key is absent (its consequence for the fallback chains is `Record.PresentNoneIsNotAbsent`) |
| `Values.Truthy` | server_fixed.py:45 | definition of Python's `bool(v)` (no contract of its own); `Values.SafeBool`, `Expense.Qualifies` and `Scoring.SmaAbove` state what it gives in each use |
| `Values.SafeFloat` | server_fixed.py:47-54 | None and NaN give the default; a float is returned unchanged; an int gives its value; a bool gives 1.0 or 0.0 |
| `Values.SafeBool` | server_fixed.py:43-45 | false for None, otherwise Python truthiness |
| `Values.TruncToInt` | server_fixed.py:167 | `int()` truncates toward zero: floor for non-negative values, within 1 of the value otherwise |
| `Values.IntToString` | server_fixed.py:191 | `str(i)` for an int in canonical form: non-empty, a leading minus exactly for a negative value, and no leading zero; `Values.IntToStringRoundTrip` fixes its value |
| `Values.IntToStringRoundTrip` | server_fixed.py:191 | parsing the decimal text of any integer gives that integer back |
| `Text.Lower` | server_fixed.py:137-138 | definition: lower-casing keeps the length and maps each character (`Text.LowerKeepsOccurrence` is what it promises for keyword matching) |
| `Text.Contains` | server_fixed.py:143 | the scan for `kw in s` (no contract of its own); `Text.ContainsIff` specifies it |
| `Text.ContainsIff` | server_fixed.py:143 | the scan for `kw in s` succeeds exactly when `kw` occurs at some position of `s` |
| `Text.LowerKeepsOccurrence` | server_fixed.py:137-143 | an occurrence in a text survives lower-casing both the text and the keyword |
| `Text.ContainsTransitive` | server_fixed.py:143 | a text that contains a string contains every substring of that string |
| `Text.Truncate` | server_fixed.py:183 | `s[:n]` is a prefix of `s`, of length min(len(s), n) |
| `Indicators.Closes` | server_fixed.py:110 | definition: the close column, bar by bar |
| `Indicators.MaxHigh` | server_fixed.py:126 | the maximum of the High column: at least every high, and equal to one of them |
| `Indicators.RollingMeanLast` | server_fixed.py:110 | `rolling(n).mean().iloc[-1]` is NaN exactly when the series is shorter than n |
| `Indicators.Sma` | server_fixed.py:104-114 | the n-bar SMA is absent exactly when the history has fewer than n bars; otherwise n times it is the sum of the last n closes |
| `Indicators.SmaWithinWindow` | server_fixed.py:109-114 | with enough bars, the SMA lies between any bounds of the closes in its window |
| `Indicators.MeanWithin` | server_fixed.py:109-114 | a mean lies within any bounds of its elements |
| `Indicators.Diff` | server_fixed.py:161 | definition of `diff()`: NaN at the first bar, then each close minus the previous close (`Indicators.GainMinusLoss` states what the RSI relies on) |
| `Indicators.Gains` | server_fixed.py:162 | gains are non-negative and are 0 where the change is NaN |
| `Indicators.Losses` | server_fixed.py:163 | losses are non-negative and are 0 where the change is NaN |
| `Indicators.GainMinusLoss` | server_fixed.py:161-163 | each bar's gain minus its loss is its change, at most one of the two is nonzero, and both are 0 at the first bar |
| `Indicators.RsiFromMeans` | server_fixed.py:164-167 | `100 - 100/(1 + g/l)` with IEEE division (no contract of its own); `Indicators.RsiAlgebra` and `Indicators.Rsi14MatchesReference` specify it |
| `Indicators.Rsi14` | server_fixed.py:158-169 | the RSI as computed (no contract of its own); `Indicators.Rsi14MatchesReference` and `Indicators.Rsi14InRange` specify it |
| `Indicators.RsiAlgebra` | server_fixed.py:164-165 | with a positive mean loss, 100 − 100/(1 + g/l) equals 100·g/(g + l) |
| `Indicators.MeansNonNegative` | server_fixed.py:162-163 | the 14-bar mean gain and mean loss are non-negative |
| `Indicators.Rsi14MatchesReference` | server_fixed.py:158-169 | RSI is 50 below 14 bars; otherwise it is ⌊100·g/(g+l)⌋ on the 14-bar mean gain g and mean loss l, or 50 when g + l = 0 (so 100 when l = 0 < g) |
| `Indicators.Rsi14InRange` | server_fixed.py:158-169 | RSI is always an integer in [0, 100] |
| `Expense.ExpenseRatio` | server_fixed.py:56-92 | the resolved ratio, when there is one, is positive |
| `Expense.KnownExpensesPositive` | server_fixed.py:73-90 | every ratio in the static table is positive |
| `Expense.Qualifies` | server_fixed.py:69 | the test `value and not pd.isna(value) and value > 0` passes: a positive int or float, or True (no contract of its own); `Expense.ScanFirstQualifying` states its effect |
| `Expense.Raises` | server_fixed.py:69 | the same test raises a TypeError: a non-empty string, which is truthy and not NaN, compared with 0 (no contract of its own); `Expense.ScanRaisesAt` and `Expense.ExpenseFailsIff` state its effect |
| `Expense.ScanFields` | server_fixed.py:67-70 | the loop over the five fields (no contract of its own); `Expense.ScanFirstQualifying`, `Expense.ScanExhausted`, `Expense.ScanRaisesAt` and `Expense.ScanTypeErrorWitness` specify it |
| `Expense.ScanFirstQualifying` | server_fixed.py:67-70 | the scan returns the value of the first field that holds a positive number (or True) if no earlier field decides |
| `Expense.ExpensePriority` | server_fixed.py:59-70 | the earliest qualifying field of the five wins |
| `Expense.ExpenseIgnoresLaterFields` | server_fixed.py:67-70 | quotes that agree up to the first qualifying field resolve alike, whatever the later fields hold |
| `Expense.ScanExhausted` | server_fixed.py:67-70 | when no field decides, the scan falls through |
| `Expense.ExpenseFallback` | server_fixed.py:73-92 | with no usable field: the table value for a listed ticker, exactly 0.30 otherwise |
| `Expense.ScanRaisesAt` | server_fixed.py:67-70 | a non-empty string reached before any qualifying field makes the scan raise, whatever the later fields hold |
| `Expense.ScanTypeErrorWitness` | server_fixed.py:67-70 | a scan that raises has reached a non-empty string before any qualifying field |
| `Expense.ExpenseFailsIff` | server_fixed.py:56-92 | the resolver fails exactly when a non-empty string comes, among the five fields in order, before any qualifying value |
| `Expense.LaterStringIgnored` | server_fixed.py:67-70 | 0.5 in annualReportExpenseRatio with "x" in managementExpenseRatio resolves to 0.5 |
| `Expense.ScanRaisesOnlyOnStrings` | server_fixed.py:67-70 | with no non-empty string among the fields, the scan never raises |
| `Expense.ExpenseNeverFails` | server_fixed.py:56-92 | with no non-empty string in the five fields, a ratio is always resolved |
| `Classifier.AnyInIff` | server_fixed.py:143-145 | `any(kw in s ...)` holds exactly when some keyword occurs in `s` |
| `Classifier.Classify` | server_fixed.py:136-146 | the class decision (no contract of its own); `Classifier.ClassifyByOccurrence` specifies it |
| `Classifier.ClassifyByOccurrence` | server_fixed.py:136-146 | Fixed Income iff a bond keyword occurs in the lower-cased name or a bond ticker keyword in the lower-cased ticker; Commodity iff not that and a commodity keyword occurs likewise; Equity iff none of these occurs |
| `Classifier.BondNameWins` | server_fixed.py:137-144 | a name containing a bond keyword in any letter case is Fixed Income, even when commodity keywords also match |
| `Classifier.TreasuryIsFixedIncome` | server_fixed.py:140-144 | a name containing "Treasury" is Fixed Income, for any ticker |
| `Classifier.BondTickerWins` | server_fixed.py:143-144 | a ticker containing bnd/agg/tlt/shy/iei/lqd/hyg, in any case, is Fixed Income |
| `Classifier.XbndIsFixedIncome` | server_fixed.py:143 | the ticker test is a substring test: "XBNDX" is Fixed Income whatever its name |
| `Classifier.CorporateBondSubsumed` | server_fixed.py:140 | every text that contains "corporate bond" contains "bond", so that keyword never changes a class |
| `Scoring.ClampScore` | server_fixed.py:175 | the clamp lies in [1000, 99999] and leaves values in range unchanged |
| `Scoring.Lwowski` | server_fixed.py:172-175 | the score lies in [1000, 99999]; it is 5000 when AUM or volume is 0; otherwise it is ⌊AUM·volume/10^14⌋ clamped |
| `Scoring.TruncFloorAgreeClamped` | server_fixed.py:174-175 | after the clamp, truncation and floor give the same score |
| `Scoring.DefaultScoreAlsoComputed` | server_fixed.py:172-175 | AUM 10^9 with volume 5·10^8 also scores exactly 5000 |
| `Scoring.LwowskiMonotoneInAum` | server_fixed.py:174-175 | for a positive volume, a larger positive AUM never lowers the score |
| `Scoring.FloorMonotone` | server_fixed.py:174 | floor is monotone |
| `Scoring.Near52wPct` | server_fixed.py:149 | 100 when the 52-week high is ≤ 0; otherwise the percentage times the high equals 100 times the price |
| `Scoring.CloseAbove52w` | server_fixed.py:152 | the flag holds iff price ≥ 0.98·high, the boundary included |
| `Scoring.CloseAboveMeansNear98` | server_fixed.py:149-152 | with a positive high, closeAbove52w holds iff near52wPct ≥ 98 |
| `Scoring.SmaAbove` | server_fixed.py:153-154 | sma50gt150 and sma150gt200 hold iff both averages are present and nonzero and the first exceeds the second |
| `Scoring.PriceAboveSma` | server_fixed.py:155 | sma200Slope holds iff SMA200 is present and nonzero and the price exceeds it |
| `Record.Price` | server_fixed.py:117-119 | regularMarketPrice if present (None gives 0), else currentPrice, else the last close, else 0 |
| `Record.PresentNoneIsNotAbsent` | server_fixed.py:117-119 | a regularMarketPrice key holding None gives price 0, even when currentPrice is 5 |
| `Record.Volume` | server_fixed.py:122 | regularMarketVolume, 0 when absent |
| `Record.Week52High` | server_fixed.py:125-126 | fiftyTwoWeekHigh if present, else the highest high of the history, else the price |
| `Record.Aum` | server_fixed.py:129 | totalAssets if present, else marketCap, else 0 |
| `Record.PrevClose` | server_fixed.py:178 | regularMarketPreviousClose if present, else 0.99 times the price |
| `Record.PyStr` | server_fixed.py:135 | Python's `str(v)` (no contract of its own); `Record.DisplayName` states what it gives for the name |
| `Record.DisplayName` | server_fixed.py:135 | `str` of longName if present (whatever it holds, None included), else `str` of shortName if present, else the ticker; a string longName is used unchanged |
| `Record.NumericNames` | server_fixed.py:135 | a longName holding the int 5 gives the name "5"; a shortName holding the float 5.0 gives "5.0" |
| `Record.AumText` | server_fixed.py:191 | "N/A" exactly when AUM is 0; otherwise the canonical decimal text of the whole number of millions: it parses back to that number, starts with a minus exactly when the number is negative, and has no leading zero |
| `Record.AumTextExamples` | server_fixed.py:191 | AUM 1,234,567,000 shows as "1234"; AUM 0 shows as "N/A" |
| `Record.BuildRecord` | server_fixed.py:94-204 | no record exactly when the resolver raises; otherwise every field is the value of its specified function: the ticker; the name cut to 60; the class label; price, 52-week high and previous close from their fallback chains; the score `Lwowski(aum, volume)`, in range; RSI `Rsi14` of the closes, in [0,100], 50 below 14 bars and the reference formula from 14 bars on; `AumText` of the AUM, "N/A" iff AUM is 0; expense = ratio·100 > 0; volume in millions; the three SMA flags from the 50/150/200-bar averages, false when the history is too short; closeAbove52w iff price ≥ 0.98·high; near52wPct from price and high, 100 when the high is ≤ 0 |
| `Batch.FetchAndBuild` | server_fixed.py:96-101 | a ticker yields a record, carrying that ticker, exactly when its fetch succeeds and its expense ratio resolves |
| `Batch.RecordTickers` | server_fixed.py:182 | definition: the tickers of a list of records, in order (used by `Batch.SuccessesInOrder`) |
| `Batch.Successes` | server_fixed.py:214-221 | the records of the succeeding tickers, in order (no contract of its own); `Batch.BatchStep`, `Batch.BatchPartition` and `Batch.SuccessesInOrder` specify it |
| `Batch.Failures` | server_fixed.py:214-224 | the failing tickers, in order (no contract of its own); `Batch.BatchStep` and `Batch.BatchPartition` specify it |
| `Batch.Succeeded` | server_fixed.py:214-221 | the succeeding tickers, in order (no contract of its own); `Batch.SuccessesInOrder` relates it to the records |
| `Batch.BatchPartition` | server_fixed.py:210-224 | the number of results plus the number of errors is the number of tickers processed |
| `Batch.SuccessesInOrder` | server_fixed.py:214-221 | the results' tickers, in order, are exactly the succeeding tickers in universe order |
| `Batch.BatchIsolation` | server_fixed.py:216-224 | the batch depends on each ticker's own outcome only |
| `Batch.BatchStep` | server_fixed.py:216-224 | one more ticker appends its record to the results, or itself to the errors, and leaves the other list unchanged |
| `Batch.MiddleFailure` | server_fixed.py:214-224 | with three tickers and a failing middle one: the records of the first and third, in order, and the middle one as the only error |
| `Batch.GetEtfs` | server_fixed.py:207-234 | status "success"; data = the successes in universe order; count = the number of records in data; errors = the failures in universe order; count plus the number of errors is 80 |
| `Batch.UniverseInExpenseTable` | server_fixed.py:12-21 | the universe holds 80 tickers, all of them in the static expense table |

## Left out

- The web layer is not modelled: the Flask application, the cross-origin setup, the routes, the health endpoint and the startup banner (server_fixed.py:1-9, 206, 245-255). This is transport and process startup.
- The market-data calls (`yf.Ticker`, `.info`, `.history`) are not modelled. They are remote I/O. The quote and the history reach the model through the `fetch` parameter of `Batch.GetEtfs`.
- The structural-error branch of `get_etfs` (server_fixed.py:236-243) is not modelled. It fires only on exceptions outside the per-ticker work.
- Logging (`print`, `traceback`) is not modelled.
- `convert_to_python_types` (server_fixed.py:23-41) is not modelled. It converts numpy scalar and array types to native ones, recursing into dicts and lists, and maps any other NaN scalar to None. The model has no numpy types, and no field of the modelled record can be NaN, so nothing is lost.
- Floating point is not modelled. Prices are exact reals, so there is no rounding error, no infinity from overflow and no NaN inside the price history.
- `round(..., n)` (server_fixed.py:186-197) is not modelled: the record holds the unrounded values.
- Scoring.Lwowski: does not model the OverflowError that `int(inf)` raises when AUM times volume overflows a double. That error would drop the ticker; here every such ticker gets a clamped score.
- Indicators.Sma: assumes that no close in the history is NaN. pandas would give a NaN mean, which `safe_float` turns into 0.0.
- Values.SafeFloat: a string that Python's `float()` would parse (such as "1.5") gives the default, because string-to-number parsing is not modelled.
- Record.PyStr: a name field holding a non-integral float, or a float of magnitude 10^16 or more, renders as "", not as Python's float repr, so `Record.DisplayName` gives "" for such a name.
- Text.Lower: lower-cases ASCII letters only, while Python's `str.lower` also maps non-ASCII letters.
- Indicators.Bar: keeps only the close and high columns, the only ones the core reads.
