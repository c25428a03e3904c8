# Trading bot decision layer, in Dafny

This project models the decision layer of `GitHubTradingBot` in `main.py`: a
bot that scans a configured list of crypto symbols, scores each one from a
snapshot of its technical indicators, keeps the results scoring at least 70,
and sends the best three (or a "no opportunities" notice) to a messaging
channel, then a status report.

- `scoring.dfy`, module `Scoring`: `analyze_symbol` as a pure function from
  the symbol, what its fetch returned and the clock to an `Outcome`
  (`Skipped | Failed | Scored(result)`). The indicator snapshot (`price`,
  `ema20`, `ema50`, `rsi`, `volume`, `volumeMa20`) is an input in `real`s; the
  data guard (at least 20 bars), the three additive rules (trend 35/20,
  momentum 25/15, volume 20), the ordered reasons, the cap at 100 and the
  recommendation/risk table are modelled with the source's constants.
- `scan.dfy`, module `Scan`: the values a scan works with. The outcome of
  every configured symbol, the opportunity filter, the stable sort by
  descending score (Python's `list.sort(key=..., reverse=True)`), the top
  three and the abstract messages that report them, with the lemmas about
  them.
- `bot.dfy`, module `Bot`: class `TradingBot` with the fields `symbols`,
  `analysisCount`, `lastScan` and `sent` (the log of messages handed to the
  messaging channel). `ComprehensiveScan` runs the visiting loop, sorts,
  sends the ranked messages in a loop, bumps the counter and sets the
  last-scan time. `RunDailyScan` and `SendStatusReport` give the message
  order of a daily run.

What is proved, in short:
- A symbol with no data or fewer than 20 bars is skipped. A symbol whose
  analysis raises is marked failed and never reported.
- The score is exactly the sum of the weights of the listed reasons. It never
  exceeds 80, so the cap at 100 never binds.
- The reasons list holds one entry per rule that fired, in rule order, so at
  most three.
- The recommendation table is total. Its thresholds are inclusive (80 gives
  strong buy, 79 gives buy). A result reaches the opportunity threshold
  exactly when it is recommended buy or strong buy.
- The opportunity list holds exactly the results scoring at least 70, in
  visiting order. A symbol that is skipped or fails changes nothing for the
  others.
- The sort is a permutation, non-increasing by score, and stable. It is the
  only sorted list that keeps the order within each score.
- The top three are the best by score. Each report carries its rank from 1.
  "No opportunities" is sent exactly when no symbol qualifies.
- Every scan bumps the counter by one, sets the last-scan time and leaves the
  symbols as they were.

## Model

| member | source | states |
|---|---|---|
| `Scoring.Reasons` | main.py:110-131 | one reason per rule that fired, in trend, momentum, volume order (so at most 3); each reason is present exactly when its rule's condition holds, the support reason only when the crossover one is not |
| `Scoring.Score` | main.py:109-133 | the score is the sum of the three rules' points; the cap at 100 never changes it; it is at most 80 and equals the total weight of the listed reasons |
| `Scoring.Classify` | main.py:136-147 | the recommendation/risk table, both directions: strong buy/low exactly from 80, buy/medium exactly on 70..79, neutral/medium-high exactly on 60..69, avoid/high exactly below 60 |
| `Scoring.ClassifyMonotone` | main.py:136-147 | a higher score never gives a weaker recommendation |
| `Scoring.Analyze` | main.py:93-162 | skipped exactly when the fetch returned nothing or fewer than 20 bars; failed exactly when an exception escaped; otherwise scored with the symbol, last price, RSI and time, a score equal to its reasons' weight and at most 80, and the table's labels; a scored result reaches 70 exactly when it says buy or strong buy |
| `Scoring.ScoredReasons` | main.py:149-158 | a scored result carries the reasons of its own snapshot |
| `Scan.Outcomes` | main.py:171-181 | one outcome per configured symbol, taken from that symbol's own fetch |
| `Scan.Qualifying` | main.py:169-175 | the opportunity list is no longer than the outcomes and every entry scores at least 70 |
| `Scan.QualifyingAppend` | main.py:171-175 | filtering keeps visiting order: the opportunities of a split scan are those of each part, concatenated |
| `Scan.QualifyingStep` | main.py:172-175 | visiting one more symbol appends its result when it qualifies and nothing otherwise |
| `Scan.QualifyingMembers` | main.py:173-175 | a result is an opportunity exactly when some visited symbol was scored with it at 70 or more; skipped and failed symbols never contribute |
| `Scan.QualifyingEmpty` | main.py:183-194 | the opportunity list is empty exactly when no symbol qualifies |
| `Scan.NonQualifyingDropsOut` | main.py:171-181 | a symbol that does not qualify leaves the opportunity list as if it were absent |
| `Scan.OutcomesWithout` | main.py:171-181 | removing one symbol leaves every other symbol's outcome unchanged |
| `Scan.FailureIsolation` | main.py:171-181 | when one symbol is skipped or fails, the scan finds exactly the opportunities of the other symbols alone |
| `Scan.InsertByScorePermutes` | main.py:185 | inserting adds exactly the inserted result |
| `Scan.InsertByScoreSorted` | main.py:185 | inserting into a list sorted by descending score keeps it sorted |
| `Scan.InsertByScoreStable` | main.py:185 | inserting puts the new result after every earlier result of equal score |
| `Scan.SortByScore` | main.py:185 | the sort keeps the length |
| `Scan.SortByScoreSpec` | main.py:185 | the sort is sorted by non-increasing score, a permutation of its input, and keeps the input order among equal scores |
| `Scan.StableSortUnique` | main.py:185 | two sorted lists with the same results of each score in the same order are equal |
| `Scan.SortByScoreIsTheStableSort` | main.py:185 | every stable descending sort of the opportunities is this sort |
| `Scan.TopOfSorted` | main.py:185-188 | when a result of score k is left out of the first n of a sorted list, each of those n scores at least k |
| `Scan.PrefixWithScore` | main.py:188 | truncation keeps the order among equal scores |
| `Scan.PrefixOfSorted` | main.py:188 | the first n of a sorted list are sorted and drawn from it |
| `Scan.TopResultsSpec` | main.py:185-188 | the first n of the sorted opportunities are sorted, drawn from them, at least as high as any score left out, and in discovery order within a score |
| `Scan.TopResults` | main.py:185-188 | min(3, n) results, sorted by non-increasing score, drawn from the opportunities, none below a score that was left out, ties in discovery order |
| `Scan.RankedMessages` | main.py:188-190 | one message per reported result, the i-th with rank i+1 |
| `Scan.RankedMessagesStep` | main.py:188-190 | sending one more ranked result appends exactly its message |
| `Scan.ScanReport` | main.py:183-195 | a single "no opportunities" notice exactly when the list is empty; otherwise min(3, n) opportunity messages ranked 1..k over the top results |
| `Scan.NoOpportunitiesExactly` | main.py:183-195 | the scan sends "no opportunities" exactly when no configured symbol qualifies |
| `Scan.ReportedOpportunity` | main.py:173-190 | every reported opportunity has rank r+1 at most 3, scores at least 70, and is the result some configured symbol produced |
| `Bot.TradingBot.constructor` | main.py:24-27 | the bot starts with the configured symbols, a zero counter, no last scan and nothing sent |
| `Bot.TradingBot.CollectOpportunities` | main.py:169-181 | the visiting loop collects exactly the opportunity list of the symbols' outcomes, in visiting order |
| `Bot.TradingBot.ComprehensiveScan` | main.py:164-198 | sends the scan-start notice and then the scan's report; the counter goes up by exactly one, the last-scan time is set, the symbols are unchanged |
| `Bot.TradingBot.SendStatusReport` | main.py:229-242 | appends a status report with the counter, the number of symbols and the last-scan time |
| `Bot.TradingBot.RunDailyScan` | main.py:244-249 | daily-start notice, then the scan's messages, then a status report that already counts this scan |

## Left out

- HTTP I/O: `telegram_send` and `fetch_klines` are not modelled. The fetch of each symbol becomes a `Feed` input. A failed fetch is `Unavailable`; the source returns an empty frame, so the symbol is skipped. The messaging channel becomes the `sent` log. Whether a send succeeded is not modelled; the source ignores it.
- The fetch parameters (interval "1h", 100 bars) and the Binance and Telegram endpoints are not modelled.
- `ema` and `rsi` are not modelled. They wrap a pandas library call over floating-point series. Their last values are inputs to scoring. The RSI fallback of 50 is not modelled. That `except` branch is practically unreachable, and a flat series gives an RSI of 0 because of the `1e-9` term, not 50.
- The 20-bar rolling mean of the volume is an input. The 20-bar guard is what makes it defined in the source.
- Floating point: the model compares exact `real`s. Rounding and NaN, for which every comparison in the source is false, are not modelled.
- Scoring.Analyze: stores the RSI unrounded; the source rounds it to 2 decimals for display only.
- Message text is not modelled: the formatting in `build_opportunity_message` and `send_status_report`, with its emoji, Arabic text, HTML and number formats. Only which abstract message is sent, and in what order, is kept.
- Bot.TradingBot.ComprehensiveScan: one `now` stands for every clock reading of a scan. The source reads the clock separately for each result and for `last_scan`.
- Bot.TradingBot.ComprehensiveScan: takes one `Feed` per configured symbol, in list order (so `|feeds| == |symbols|`). This is how the model supplies the per-symbol fetch results. It is not a demand on the source's callers.
- The `time.sleep(0.5)` rate limiting and all logging are not modelled.
- The environment loading of the configuration, the top-level `main()` with its startup message, and its exception-to-message wrapper are not modelled. They are process plumbing.
- Exceptions outside the per-symbol `try` blocks are not modelled, for example while building or sending the report messages.
