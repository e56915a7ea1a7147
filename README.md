# QuantDesk core, modelled in Dafny

QuantDesk is a stock dashboard. A React front end lists a watchlist,
charts each stock's price history with an optional 14-day forecast, and
hosts an AI analyst chat. Flask back ends serve quotes, histories and
search hits from a market-data provider. A second Flask server trains a
Transformer to produce the forecast and a BUY/HOLD/SELL signal. An agent
server routes chat questions to Claude, with Groq as the fallback. An
earlier stand-alone version of the dashboard and its server is kept in the
repository, and its chat panel and renderer behave differently in small
ways.

This project models the deterministic logic of those programs and proves
what it promises:

- the chat renderer: `**bold**` splitting, line classification, tables and
  signal callouts;
- both chat panels as state machines over an append-only transcript;
- the chart series that joins history to forecast, and the watchlist;
- the agent server's context window, validation and provider routing;
- the forecaster's training windows, data guard and signal ladder;
- the market servers' symbol normalisation, result ordering, history
  request table and search filter.

Modules, one per program file, plus two shared ones:

| file | module | models |
|---|---|---|
| `text.dfy` | `Text` | split/join, trim, ASCII upper-casing, `**` removal, trailing windows, digits |
| `signals.dfy` | `Signals` | the five signals and the threshold ladder both forecasters use |
| `chat.dfy` | `ChatMessages` | chat roles and messages |
| `renderer.dfy` | `Renderer` | `renderInline` / `renderContent` of frontend/src/App.js |
| `agent_chat.dfy` | `AgentChat` | `AIChat` (send and symbol reset) of frontend/src/App.js |
| `dashboard.dfy` | `Dashboard` | watchlist, selected stock, `chartData`, price range of frontend/src/App.js |
| `predictor.dfy` | `Predictor` | FINAL_YEAR_PROJECT_BCA-main/frontend/src/stock-predictor.jsx |
| `agent_server.dfy` | `AgentServer` | backend/agent_server.py |
| `ml_server.dfy` | `MlServer` | ml-backend/ml_server.py |
| `market_api.dfy` | `MarketApi` | backend/server.py |
| `legacy_market_api.dfy` | `LegacyMarketApi` | FINAL_YEAR_PROJECT_BCA-main/backend/server.py |

The earlier server in FINAL_YEAR_PROJECT_BCA-main/backend/server.py
repeats the current server's code in four places. These are the symbol
list normalisation (lines 85-90), the fetch-and-order loop of `/api/stocks`
(lines 83-104), the days table (lines 114-121) and the date label
(line 134). These are modelled once, by `MarketApi.NormalizeSymbols`,
`MarketApi.GetStocks`, `MarketApi.PeriodTable` and
`MarketApi.TimeShownIffHourly`, whose rows below cite the current server.
`LegacyMarketApi.GetHistory` uses the same period table and point labels.

The form follows the source:

- Pure expressions are functions with lemmas. These are the split and
  classification, `chartData`, the ladders and the routing.
- State that the code updates step by step is a class whose methods have
  `modifies` clauses. These are both chat panels and the watchlist.
- Loops are methods with loop invariants, each proved against a
  specification function. These are `make_sequences`, the message builder
  of `analyze`, `generatePriceHistory`, and the fetch, history and search
  loops of the servers.

The chat's `send` is one `async` function. It is split at its `await`:

- `Begin` decides whether a request is issued and what it carries.
- `Complete` applies the reply or the failure.

Scenario methods then chain these calls to prove behaviour across rounds
and across switches of symbol.

Three behaviours of the chat panels are easy to miss in the code:

- **No stale-reply guard.** Neither chat panel checks whether a reply
  belongs to the current symbol before appending it (frontend/src/App.js
  lines 215 and 217, FINAL_YEAR_PROJECT_BCA-main/frontend/src/stock-predictor.jsx
  lines 102-109). A reply that arrives after a switch to another symbol is
  appended to the new symbol's transcript (`AgentChat.LateReplyAfterSwitch`,
  `Predictor.LateReplyAfterSwitch`).
- **The reset does not clear `loading`.** While the old request is pending,
  the new panel refuses questions (`AgentChat.SwitchKeepsWaiting`).
- **The reset is keyed on the symbol.** It runs on mount, and again only
  when the symbol changes. In the demo predictor, the initial welcome text
  is therefore replaced at once by the switch greeting, and a new
  prediction for the same symbol keeps the conversation
  (`Predictor.SameSymbolKeepsTranscript`).

## Model

| member | source | states |
|---|---|---|
| Text.TrimEmptyIff | frontend/src/App.js:197-198 | a text trims to nothing exactly when all of it is white space, which is when `send` ignores it |
| Text.TrimIsInfix | backend/server.py:95 | trimmed text begins and ends with a non-space character and occurs inside the original |
| Text.UpperIdempotent | backend/server.py:95 | upper-casing an upper-cased symbol changes nothing |
| Text.Upper | backend/server.py:95 | `upper()` keeps the length and maps each lower-case ASCII letter to its capital, leaving every other character alone |
| Text.Split | frontend/src/App.js:228 | `split` on one character gives at least one piece, and no piece contains the separator |
| Text.JoinSplit | frontend/src/App.js:228 | joining the pieces of a split with the separator gives the text back |
| Text.SplitJoin | backend/server.py:94 | splitting a join of separator-free pieces gives the pieces back |
| Text.SplitPrefix | backend/server.py:94 | a separator-free head followed by the separator splits off as the first piece |
| Text.StripMarkers | frontend/src/App.js:240 | removing every `**` leaves no two adjacent stars and keeps only characters of the input; StripMarkersKeepsText states that every other character survives, in order |
| Text.StripMarkersIdempotent | frontend/src/App.js:257 | removing the markers twice is removing them once |
| Text.StripMarkersKeepsText | frontend/src/App.js:240 | removing the `**` markers removes only stars: every other character of the line survives, in order |
| Text.StripMarkersNoMarker | frontend/src/App.js:240 | removing `**` from text without two adjacent stars changes nothing |
| Text.LastN | frontend/src/App.js:210 | `slice(-n)` keeps the last `min(n, length)` elements, in order |
| Text.LastNSlides | backend/agent_server.py:238 | appending one message slides the trailing window by one, and the window ends with that message |
| Text.NatToStringValue | backend/agent_server.py:163 | the decimal digits of a status code read back as the status code |
| Signals.SignalNameInjective | frontend/src/App.js:253 | distinct signals are displayed under distinct names |
| Signals.NameHasBuy | frontend/src/App.js:254 | a signal name contains `BUY` exactly for BUY and STRONG BUY |
| Signals.Ladder | ml-backend/ml_server.py:182-187 | each produced signal owns one half-open band of moves (STRONG BUY above the top threshold, SELL at or below the bottom one), and STRONG SELL is never produced |
| Signals.LadderMonotone | FINAL_YEAR_PROJECT_BCA-main/frontend/src/stock-predictor.jsx:37 | a larger move never yields a more bearish signal |
| Renderer.BoldSplit | frontend/src/App.js:222 | the pieces of `split(/(\*\*[^*]+\*\*)/)` concatenate back to the line |
| Renderer.BoldSplitTokens | frontend/src/App.js:222 | every odd piece of the split is one `**X**` token with X non-empty and star-free |
| Renderer.FirstBold | frontend/src/App.js:222 | the match used is the leftmost one: no match starts before it |
| Renderer.BoldSplitLeftmost | frontend/src/App.js:222 | no match starts inside an even (plain) piece, counting what follows it in the line |
| Renderer.BoldSplitPlainPieces | frontend/src/App.js:222 | every plain piece is free of bold tokens |
| Renderer.BoldSplitOddCount | frontend/src/App.js:222 | the split always has an odd number of pieces: text, match, text, ..., text |
| Renderer.MatchLenIff | frontend/src/App.js:222 | the anchored match is exactly the token `**X**` at the start of the text |
| Renderer.MatchLen | frontend/src/App.js:222 | an anchored match, when there is one, is a `**X**` token at the start of the text |
| Renderer.InlineMatchesAreStrong | frontend/src/App.js:221-225 | every captured match is shown as strong text, whose inner text is non-empty, star-free and wrapped by the match's markers |
| Renderer.RenderInline | frontend/src/App.js:221-225 | `renderInline`: one span per piece of the bold split, a match shown strong and plain text as it is; its contract is InlineMatchesAreStrong, InlineRoundTrip and InlineRoundTripPieces |
| Renderer.InlineRoundTrip | frontend/src/App.js:221-225 | when no plain piece begins with `**`, writing the markers back around the strong spans reconstructs the line |
| Renderer.InlineRoundTripPieces | frontend/src/App.js:223-224 | a plain piece that does not begin with `**` is shown as it is |
| Renderer.UnmatchedLeadingMarker | frontend/src/App.js:223 | an unclosed leading `**` is still shown as strong text cut two characters at each end: `**foo` shows as strong `f` |
| Renderer.UnclosedMarkerNoMatch | frontend/src/App.js:222 | an unclosed `**foo` has no match, so the split leaves it as one piece |
| Renderer.SignalAtIff | frontend/src/App.js:253 | at one position, an alternative of the signal pattern matches exactly when the text starts with its name case-insensitively, so the alternation order is irrelevant |
| Renderer.AlternativesDisjoint | frontend/src/App.js:253 | at one position at most one signal name matches, so the alternation never has to choose |
| Renderer.FirstSignal | frontend/src/App.js:253 | the reported signal is found at the leftmost position where any signal matches |
| Renderer.WrappedGivesSignal | frontend/src/App.js:252-253 | a line that passes the callout test always reports a signal, at or before the wrapped token |
| Renderer.HasWrappedGivesSignal | frontend/src/App.js:252-253 | a line that passes the callout test always has a signal for the callout to show |
| Renderer.CalloutColourBySignal | frontend/src/App.js:254 | green for both BUY signals, gold for HOLD, red for both SELL signals |
| Renderer.KeepCellIff | frontend/src/App.js:234 | a table piece is kept exactly when it has a character other than `-`, `:` and white space |
| Renderer.KeptCells | frontend/src/App.js:234 | the table filter is `Filter(KeepCell, pieces)`, never more cells than pieces; KeptCellsSound, KeptCellsAppend and KeptCellsOne pin down which pieces survive and in what order |
| Renderer.KeptCellsSound | frontend/src/App.js:234 | the kept cells are pieces of the line, each of them keepable |
| Renderer.KeptCellsAppend | frontend/src/App.js:234 | the table filter keeps the pieces' order: it distributes over concatenation |
| Renderer.KeptCellsOne | frontend/src/App.js:234 | a single piece is kept exactly when it is keepable, so with KeptCellsAppend every keepable piece is kept, in order |
| Renderer.FilterAppend | frontend/src/App.js:234 | `filter` distributes over concatenation, for any test |
| Renderer.FilterSound | frontend/src/App.js:234 | everything `filter` returns passes the test and comes from the input |
| Renderer.TableCells | frontend/src/App.js:233-240 | the cells of a table row: the kept pieces, each trimmed and stripped of markers; its contract is TableCellsClean and RenderLine's table clause |
| Renderer.TableCellsClean | frontend/src/App.js:233-240 | a shown cell never contains the column bar or a `**` marker |
| Renderer.RenderLine | frontend/src/App.js:229-262 | a `|` line renders to nothing exactly when no cell survives the filter and otherwise to the row of its cells; nothing else renders to nothing, and headings have level 1 to 3 |
| Renderer.RenderLineOrder | frontend/src/App.js:229-262 | the rules in the order they are tried: `# `, `## ` and `### ` give headings of the rest of the line, `---` a divider, a `-`/`*` bullet a list item of the rest, and a line no rule took is blank when it is all white space and a paragraph otherwise |
| Renderer.RenderContent | frontend/src/App.js:227-228 | one entry per line of `split("\n")`, and only `|` lines can be empty |
| Renderer.RenderContentOfLines | frontend/src/App.js:227-263 | a reply made of given lines renders line by line, in order |
| Renderer.CalloutIff | frontend/src/App.js:252-258 | a line is a callout exactly when no earlier rule applies and a signal wrapped in `**` occurs; the callout's signal is the leftmost signal anywhere in the line, and its text is the line with every `**` removed |
| AgentChat.FailureReplyStartsWithWarning | frontend/src/App.js:213-217 | an exception or a reply carrying `error` is reported as an assistant message starting with `⚠ ` and the error message |
| AgentChat.Session.constructor | frontend/src/App.js:184-195 | a mounted panel holds the one greeting for its symbol, an empty box and no pending request |
| AgentChat.Session.Type | frontend/src/App.js:325 | typing changes only the text box |
| AgentChat.Session.SelectSymbol | frontend/src/App.js:193-195 | a different symbol replaces the transcript with its greeting, the same symbol changes nothing, and `loading` is left as it is |
| AgentChat.Session.Begin | frontend/src/App.js:196-212 | a blank question or a pending request changes nothing and sends nothing; otherwise the trimmed question is appended once, the box is cleared, `loading` is set, and the request carries the symbol, the question and the last six messages from before the append |
| AgentChat.Question | frontend/src/App.js:197 | `(overrideMsg \|\| input).trim()`: a non-blank passed question wins over the box (PassedQuestion); Begin states the rest |
| AgentChat.PassedQuestion | frontend/src/App.js:197 | a question passed explicitly is used, trimmed, whatever the box holds, once it is not blank |
| AgentChat.Ask | frontend/src/App.js:196-212 | a non-blank question on an idle panel is sent with the symbol, the trimmed text and the last six messages, and is appended as a user message while the panel waits |
| AgentChat.Session.Complete | frontend/src/App.js:213-218 | every completion appends exactly one assistant message to the current transcript and clears `loading` |
| AgentChat.OneRound | frontend/src/App.js:183-219 | on a fresh panel, a question sends the greeting as history, and the round ends idle with the question and the reply added |
| AgentChat.SubmitWhileWaiting | frontend/src/App.js:198 | a second question while a reply is pending sends nothing and adds nothing |
| AgentChat.BlankIsIgnored | frontend/src/App.js:197-198 | a blank question sends nothing and adds nothing |
| AgentChat.LateReplyAfterSwitch | frontend/src/App.js:193-218 | a reply to a question about one symbol, arriving after a switch to another, is appended to the new symbol's transcript |
| AgentChat.SwitchKeepsWaiting | frontend/src/App.js:193-202 | after a switch, the new panel refuses questions while the old request is pending |
| Dashboard.Without | frontend/src/App.js:400 | the filtered watchlist holds exactly the other symbols; WithoutOne and WithoutConcat state their order |
| Dashboard.WithoutOne | frontend/src/App.js:400 | a single symbol survives exactly when it is not the one removed |
| Dashboard.WithoutConcat | frontend/src/App.js:400 | removal keeps the order of what stays: it distributes over concatenation |
| Dashboard.WithoutNoDup | frontend/src/App.js:400 | removing a symbol keeps a duplicate-free watchlist duplicate-free |
| Dashboard.WithoutAbsent | frontend/src/App.js:400 | removing a symbol that is not listed changes nothing |
| Dashboard.WithoutAppend | frontend/src/App.js:399-400 | removing a symbol just appended gives the list as it was before, minus that symbol |
| Dashboard.Watchlist.constructor | frontend/src/App.js:343-351 | the initial watchlist is the ten default symbols, without duplicates, with the first row selected |
| Dashboard.Watchlist.Add | frontend/src/App.js:399 | a symbol is appended only when it is not already listed, so the list stays duplicate-free; the selection is unchanged |
| Dashboard.Watchlist.Remove | frontend/src/App.js:400 | every occurrence goes, the order of the rest is kept, and the first row is selected |
| Dashboard.Watchlist.Select | frontend/src/App.js:455 | a click selects that row and leaves the list alone |
| Dashboard.AddTwiceThenRemove | frontend/src/App.js:399-400 | adding a symbol twice lists it once, and removing it restores the default list and selects the first row |
| Dashboard.SelectedStock | frontend/src/App.js:402 | the selected row, clamped to the last row; nothing when there are no stocks |
| Dashboard.ChartData | frontend/src/App.js:404-410 | with the forecast off or absent, the history unchanged; otherwise history without predictions followed by forecast without prices, the first forecast point starting at the last historical price |
| Dashboard.AllPrices | frontend/src/App.js:412 | the values the chart shows, none added and none lost |
| Dashboard.MinOf | frontend/src/App.js:413 | the minimum is one of the values and no value is below it |
| Dashboard.MaxOf | frontend/src/App.js:414 | the maximum is one of the values and no value is above it |
| Dashboard.PriceRangeBounds | frontend/src/App.js:412-414 | every shown value lies within [minPrice, maxPrice], both bounds are shown values, and both are 0 when nothing is shown |
| Dashboard.MinPrice | frontend/src/App.js:413 | `minPrice`: the least shown value, or 0 when nothing is shown; its contract is PriceRangeBounds |
| Dashboard.MaxPrice | frontend/src/App.js:414 | `maxPrice`: the greatest shown value, or 0 when nothing is shown; its contract is PriceRangeBounds |
| Predictor.RenderContent | FINAL_YEAR_PROJECT_BCA-main/frontend/src/stock-predictor.jsx:112-119 | one span per piece of the bold split |
| Predictor.MatchesEmphasised | FINAL_YEAR_PROJECT_BCA-main/frontend/src/stock-predictor.jsx:113-115 | every captured match is emphasised with its inner text, exactly as the dashboard renders it |
| Predictor.EmphRoundTrip | FINAL_YEAR_PROJECT_BCA-main/frontend/src/stock-predictor.jsx:112-119 | when no plain piece both starts and ends with `**`, writing the markers back around the emphasised spans gives the text back |
| Predictor.UnclosedMarkerStaysPlain | FINAL_YEAR_PROJECT_BCA-main/frontend/src/stock-predictor.jsx:114 | an unclosed `**foo` stays plain text here, where the dashboard shows a strong `f` |
| Predictor.SignalColourBySignal | FINAL_YEAR_PROJECT_BCA-main/frontend/src/stock-predictor.jsx:38 | gold for both BUY signals, grey for HOLD, red for SELL |
| Predictor.PredictionBands | FINAL_YEAR_PROJECT_BCA-main/frontend/src/stock-predictor.jsx:33-40 | for draws in [0, 1): the confidence lies in [75, 97) and the move in [-3, 9), the signal is STRONG BUY above 2, BUY above 0, HOLD above -2 and SELL otherwise, and the colour follows the signal |
| Predictor.GeneratePrediction | FINAL_YEAR_PROJECT_BCA-main/frontend/src/stock-predictor.jsx:33-40 | `generatePrediction` with its two random draws as parameters; its contract is PredictionBands |
| Predictor.Step | FINAL_YEAR_PROJECT_BCA-main/frontend/src/stock-predictor.jsx:21-22 | a day's price never falls below half the previous one, so a positive walk stays positive |
| Predictor.Volume | FINAL_YEAR_PROJECT_BCA-main/frontend/src/stock-predictor.jsx:26 | volumes lie in [20 000 000, 100 000 000) |
| Predictor.GuessNear | FINAL_YEAR_PROJECT_BCA-main/frontend/src/stock-predictor.jsx:27 | the guess stays within 0.6 % below and 0.9 % above the day's price |
| Predictor.GeneratePriceHistory | FINAL_YEAR_PROJECT_BCA-main/frontend/src/stock-predictor.jsx:14-31 | `days + 1` points in date order from `days` ago to today; each price is one walk step from the previous one, starting at 82 % of the base price; exactly the last 15 points carry a guess near their price; volumes and positivity are bounded |
| Predictor.GuessedCount | FINAL_YEAR_PROJECT_BCA-main/frontend/src/stock-predictor.jsx:27 | a history of that shape carries exactly `min(15, days + 1)` guesses |
| Predictor.SwitchGreetingNames | FINAL_YEAR_PROJECT_BCA-main/frontend/src/stock-predictor.jsx:69-76 | the switch greeting names the stock's symbol and its signal |
| Predictor.Session.constructor | FINAL_YEAR_PROJECT_BCA-main/frontend/src/stock-predictor.jsx:55-76 | a mounted panel holds only the switch greeting, because the symbol effect runs on mount |
| Predictor.Session.Type | FINAL_YEAR_PROJECT_BCA-main/frontend/src/stock-predictor.jsx:163-170 | typing changes only the text box |
| Predictor.Session.Select | FINAL_YEAR_PROJECT_BCA-main/frontend/src/stock-predictor.jsx:69-76 | a different symbol replaces the transcript with one greeting, the same symbol keeps it, and `loading` is left as it is |
| Predictor.Session.Begin | FINAL_YEAR_PROJECT_BCA-main/frontend/src/stock-predictor.jsx:78-84 | a blank input or a pending request changes nothing; otherwise the untrimmed input is appended, the box is cleared, `loading` is set, and the request carries the whole new transcript |
| Predictor.Session.Complete | FINAL_YEAR_PROJECT_BCA-main/frontend/src/stock-predictor.jsx:102-109 | exactly one assistant message (the reply text, the issue text or the network-error text) is appended, and `loading` is cleared |
| Predictor.Round | FINAL_YEAR_PROJECT_BCA-main/frontend/src/stock-predictor.jsx:78-110 | a round on an idle panel sends the transcript with the question, and ends idle with the reply appended |
| Predictor.TwoRounds | FINAL_YEAR_PROJECT_BCA-main/frontend/src/stock-predictor.jsx:81-99 | the second request carries the whole transcript, greeting included, with the user's text as typed |
| Predictor.SubmitWhileWaiting | FINAL_YEAR_PROJECT_BCA-main/frontend/src/stock-predictor.jsx:79 | a second question while a reply is pending is refused, and the typed text stays in the box |
| Predictor.LateReplyAfterSwitch | FINAL_YEAR_PROJECT_BCA-main/frontend/src/stock-predictor.jsx:69-109 | a reply arriving after a switch to another symbol lands in the new transcript |
| Predictor.SameSymbolKeepsTranscript | FINAL_YEAR_PROJECT_BCA-main/frontend/src/stock-predictor.jsx:76 | a new prediction for the same symbol does not reset the conversation |
| AgentServer.AskClaudeIff | backend/agent_server.py:109-137 | Claude succeeds exactly on status 200, and returns a text exactly when it succeeds |
| AgentServer.AskClaude | backend/agent_server.py:109-137 | `ask_claude` on the outcome of its HTTP call; its contract is AskClaudeIff |
| AgentServer.AskGroq | backend/agent_server.py:141-166 | `ask_groq` on the outcome of its HTTP call; its contract is GroqFailureTexts |
| AgentServer.AskAi | backend/agent_server.py:169-178 | `ask_ai`: Claude first, Groq as the fallback; its contract is AskAiRouting |
| AgentServer.AskAiRouting | backend/agent_server.py:169-178 | Claude answers exactly when it returned status 200 with a non-empty text, and then Groq does not matter; otherwise the answer is Groq's, success or not |
| AgentServer.GroqFailureTexts | backend/agent_server.py:141-165 | a failed Groq call still yields a text: the missing-key warning, `Groq error <status>` or `Request failed: ` |
| AgentServer.Kept | backend/agent_server.py:239-240 | the history filter never yields more messages than there were entries |
| AgentServer.KeptRoles | backend/agent_server.py:239-240 | only entries with role user or assistant survive |
| AgentServer.KeptCount | backend/agent_server.py:239 | entries that all have a chat role all survive, and entries that all lack one all go |
| AgentServer.KeptAppend | backend/agent_server.py:238-240 | the role filter keeps the order: it distributes over concatenation |
| AgentServer.BuildMessages | backend/agent_server.py:237-241 | the chat-role entries among the last six of the history, in order, then the question as the last user message; 1 to 7 messages |
| AgentServer.Analyze | backend/agent_server.py:223-250 | an empty upper-cased ticker is rejected with 400 before any model call; otherwise the model receives the built messages, with a default full-analysis question when none was given, and the reply carries the upper-cased ticker, the routed answer and the `+yfinance` engine label |
| AgentServer.LongHistory | backend/agent_server.py:237-241 | of eight history entries only the last six count, and a system entry among them is dropped |
| AgentServer.UpperAll | backend/agent_server.py:256 | every ticker is upper-cased, in place |
| AgentServer.Distinct | backend/agent_server.py:262 | the snapshot keys hold each ticker once, and only tickers that were given |
| AgentServer.DistinctNoDup | backend/agent_server.py:262-265 | no stock is compared twice |
| AgentServer.CompareDuplicateTicker | backend/agent_server.py:256-262 | as written, `["nvda", "NVDA"]` passes the two-ticker guard and one stock is compared |
| AgentServer.Compare | backend/agent_server.py:254-278 | `compare()` as written: fewer than two upper-cased tickers give 400, otherwise one AI answer over the distinct tickers; its contract is CompareDuplicateTicker and CompareAgreesWithoutRepeats |
| AgentServer.CompareDistinct | backend/agent_server.py:256-278 | with the guard as intended, a comparison happens exactly when there are two distinct stocks, and it covers exactly the given tickers |
| AgentServer.CompareAgreesWithoutRepeats | backend/agent_server.py:256-259 | on lists without a repeated ticker, the intended guard and the written one give the same reply |
| AgentServer.DistinctAll | backend/agent_server.py:262 | a list without repeats passes the dictionary unchanged, in order |
| MlServer.Column0 | ml-backend/ml_server.py:118 | the first column of the target rows, row by row |
| MlServer.MakeSequences | ml-backend/ml_server.py:113-119 | `max(0, total - seq_len - pred_days + 1)` pairs, with X and y equally long; pair `k` pairs the `seq_len` feature rows from `k` with the next `pred_days` targets, so each input window ends where its target window begins |
| MlServer.WindowsShift | ml-backend/ml_server.py:116-117 | consecutive input windows shift by exactly one row |
| MlServer.PairCountGrows | ml-backend/ml_server.py:116 | one more row adds exactly one pair, once the first pair fits |
| MlServer.GuardLeavesPairs | ml-backend/ml_server.py:128-129 | a history that passes the guard leaves at least one training pair, as long as the indicators' warm-up drops no more than the 60 reserved rows |
| MlServer.MlSignalMonotone | ml-backend/ml_server.py:182-187 | a larger forecast move never yields a more bearish signal |
| MlServer.MlSignal | ml-backend/ml_server.py:182-187 | the 5/1/-2 signal ladder on the forecast move; its contract is Signals.Ladder and MlSignalMonotone |
| MlServer.ForecastSeries | ml-backend/ml_server.py:192-196 | each future date is paired with the price at the same position, and the shorter list decides the length |
| MlServer.HistorySeries | ml-backend/ml_server.py:198-201 | the last 60 rows, or all of them, in order |
| MlServer.PredictShape | ml-backend/ml_server.py:128-210 | too short a history is refused with 500 naming the upper-cased symbol, and a failed training passes its message on with 500; a reply succeeds exactly when training produced a forecast from a non-zero close, and then carries the symbol, the close, the last forecast price as target, the move between them, the ladder's signal for that move, the zipped forecast and the last 60 history rows |
| MlServer.PredictBuys | ml-backend/ml_server.py:178-187 | with a positive close, the signal is a buy exactly when the target is more than 1 % above the close, and STRONG BUY exactly when more than 5 % above |
| MlServer.Predict | ml-backend/ml_server.py:216-223 | `predict(symbol)` over `train_model`'s outcome, including the errors raised at `forecast_prices[-1]` and at the division of `delta_pct`; its contract is PredictShape and PredictBuys |
| MarketApi.NormalizeSymbols | backend/server.py:95 | never more symbols than pieces; NormalizeOne and NormalizeAppend state which symbol each piece yields, in order, and NormalizeSymbolsNormalized its shape |
| MarketApi.NormalizeSymbolsNormalized | backend/server.py:95 | every kept symbol is non-blank, stripped and upper case |
| MarketApi.NormalizeOne | backend/server.py:95 | a single piece yields its stripped, upper-cased text, or nothing when it is blank |
| MarketApi.NormalizeAppend | backend/server.py:95 | each piece is normalised on its own, in order: normalising distributes over concatenation |
| MarketApi.RequestedSymbols | backend/server.py:94-95 | the `symbols` parameter, or the default list joined with commas, split on commas and normalised; its contract is DefaultRequest, JoinedListReadBack and NormalizeAppend |
| MarketApi.NormalizeIdempotent | backend/server.py:95 | normalising a normalised list changes nothing |
| MarketApi.NormalizeFixed | backend/server.py:95 | a list of symbols that are already normalised passes unchanged |
| MarketApi.JoinedListReadBack | backend/server.py:94-95 | a list of normalised comma-free symbols joined with commas, as the dashboard sends its watchlist, is read back as the same list |
| MarketApi.DefaultRequest | backend/server.py:25-28 | without a `symbols` parameter, the ten default symbols are requested in their order |
| MarketApi.OrderKeyPosition | backend/server.py:103-104 | a requested symbol sorts under its last position in the request, and any other symbol under 99 |
| MarketApi.Insert | backend/server.py:104 | insertion adds exactly the one quote and keeps a sorted list sorted |
| MarketApi.SortByKey | backend/server.py:104 | the sort is a permutation of its input, sorted by requested position |
| MarketApi.SortStable | backend/server.py:104 | the sort is stable: quotes under the same key keep the order they arrived in |
| MarketApi.KeyFilter | backend/server.py:104 | the quotes under one key are exactly the input quotes with that key |
| MarketApi.InsertFilter | backend/server.py:104 | inserting a quote appends it at the end of its own key's run and leaves the other keys' runs alone |
| MarketApi.SortedUnique | backend/server.py:104 | two sorted lists that agree key by key are equal |
| MarketApi.Fetched | backend/server.py:99-102 | exactly the fetches that returned a quote are kept; FetchedOne and FetchedAppend state that each contributes at most its own quote, in completion order |
| MarketApi.FetchedOne | backend/server.py:99-102 | a single completion yields its quote, or nothing when the fetch failed |
| MarketApi.FetchedAppend | backend/server.py:99-102 | the kept quotes follow completion order: Fetched distributes over concatenation |
| MarketApi.GetStocks | backend/server.py:93-106 | the response is the fetched quotes stably sorted by requested position, at most one per fetch |
| MarketApi.OrderIndependent | backend/server.py:98-104 | with distinct requested symbols, the response does not depend on the order in which the parallel fetches completed |
| MarketApi.OnePerSymbolDistinctKeys | backend/server.py:76 | quotes labelled with distinct requested symbols sort under distinct keys |
| MarketApi.PeriodTable | backend/server.py:113-116 | the table picks the shortest period covering the window (up to a year), a year exactly for windows over 90 days, and hourly bars exactly for windows of a week or less |
| MarketApi.PeriodFor | backend/server.py:113-116 | the days-to-(period, interval) table; its contract is PeriodTable |
| MarketApi.TimeShownIffHourly | backend/server.py:122 | a date label carries the time of day exactly when the window is a week or less |
| MarketApi.Points | backend/server.py:121-123 | one point per bar, in the provider's order, with its label, close and volume |
| MarketApi.GetHistory | backend/server.py:110-126 | the provider is asked for the table's period and interval (90 days by default); no bars is a 404 naming the upper-cased symbol, an exception a 500 carrying its message, and otherwise one point per bar |
| MarketApi.HitOf | backend/server.py:136 | a hit carries a non-empty symbol and name, the long name preferred |
| MarketApi.Hits | backend/server.py:134-136 | only quotes with a symbol and a long or short name become hits, never more than the quotes |
| MarketApi.HitsAppend | backend/server.py:134-136 | the filter keeps the provider's order: it distributes over concatenation |
| MarketApi.HitsMembers | backend/server.py:134-136 | a hit is reported exactly when some quote passes the filter and yields it |
| MarketApi.CollectHits | backend/server.py:134-137 | the search loop builds exactly `Hits(quotes)`, in the provider's order |
| MarketApi.FirstHits | backend/server.py:137 | `hits[:8]` is a prefix of at most eight hits, all of them when there are no more |
| MarketApi.Search | backend/server.py:128-140 | a blank query and an exception both answer `[]`; otherwise the first eight hits in the provider's order |
| LegacyMarketApi.GetHistory | FINAL_YEAR_PROJECT_BCA-main/backend/server.py:109-146 | the provider is asked for the table's period and interval; no bars and any exception both answer `[]`, never an error object; otherwise the same points as the current server |
| LegacyMarketApi.NameOf | FINAL_YEAR_PROJECT_BCA-main/backend/server.py:164 | a name is present exactly when the long or the short name is non-empty |
| LegacyMarketApi.Search | FINAL_YEAR_PROJECT_BCA-main/backend/server.py:150-176 | a blank query and an exception answer `[]`; otherwise the first eight quotes with a symbol and a name, which are exactly the current server's hits |
| LegacyMarketApi.CollectHits | FINAL_YEAR_PROJECT_BCA-main/backend/server.py:160-172 | the earlier search loop, which computes the name first, builds exactly the current server's `Hits(quotes)` |

## Left out

- Network, provider and model calls are inputs to the model, never made:
  yfinance, `fetch`, the Anthropic and Groq endpoints, and `get_full_stock_data`.
  What a call did enters as a value: `Call`, `Outcome`, `HistoryFetch`,
  `SearchFetch`, `Training` or the fetched quotes.
- Concurrency is not modelled. The thread pool's completion order is an
  arbitrary input sequence, and React's functional state updates are applied
  one after the other.
- Caching (`flask_caching`), CORS, the keep-alive threads, the search bar's
  debounce, scrolling, styling and all layout are not modelled.
- Floating point is not modelled; prices and moves are exact reals. The
  rounding and formatting are left out: `toFixed`, `parseFloat`, `round`,
  `safe_round`, `fmt`, `pct`, `format_large` and `toLocaleString`.
- Predictor.GeneratePriceHistory: the date label of each point is replaced by
  its distance in days from today (`daysAgo`), because `toLocaleDateString`
  depends on the clock and the locale.
- MarketApi.Strftime: only the month, the day and the time of day are
  kept. The text produced by `strftime` is not modelled.
- MlServer.ForecastSeries: dates are given strings, and their generation by
  `pd.bdate_range` is not modelled.
- Predictor.SwitchGreeting: the numbers it shows are given as display
  strings, because JavaScript number-to-string conversion is not modelled.
- `Math.random()` values are parameters (`Draw`, and the `c`, `d` of
  `GeneratePrediction`).
- The Transformer, its training, the scaler, the train/test split, the
  indicators of `build_features` and the computation of the forecast move are
  not modelled. The move and the series enter through `Training`. The 60 rows
  the data guard reserves beyond one window stand for the rows the
  indicators' warm-up drops; how many it drops is a parameter of
  `GuardLeavesPairs`.
- Text.Trim and Text.Upper: white space and case folding are ASCII only.
  Unicode white space and non-ASCII case mappings are not modelled.
- AgentChat.Session.Complete: a successful reply without an `answer`
  field, which JavaScript would show as `undefined`, is not modelled. The
  answer is always a string.
- AgentServer.Analyze: a history entry without `content`, which would raise
  `KeyError` and give Flask's 500 page, is not modelled. Neither is a
  request body that is JSON but not an object, nor one that is not JSON at
  all, which Flask refuses with 400 or 415 before `analyze` runs.
- AgentServer.Analyze: a key present with the JSON value null is read as an
  absent key. In the source, `{"ticker": null}` raises at `.upper()`
  (backend/agent_server.py:225), `{"question": null}` at `question[:60]`
  (line 232) and `{"history": null}` at `[-6:]` (line 238), each giving
  Flask's 500 page. The model answers 400, the default question or an empty
  history instead.
- AgentServer.Compare: `{"tickers": null}` raises at
  backend/agent_server.py:256 and gives a 500. The model takes the ticker
  list itself, in which an absent key is the empty list and null has no
  representation.
- Renderer.SliceInner and Predictor.RenderContent: JavaScript strings are
  sequences of UTF-16 code units, and the model's strings are sequences of
  Unicode characters. `slice(2, -2)` (frontend/src/App.js:223,
  FINAL_YEAR_PROJECT_BCA-main/frontend/src/stock-predictor.jsx:115) therefore
  cuts differently next to a character outside the Basic Multilingual Plane.
  For example, `**a😀` is five code units and shows as strong `a` in
  JavaScript, but four characters here, so the model shows strong `` (empty).
- MarketApi.GetHistory: a non-integer `days` parameter, which makes
  `int(...)` raise outside the `try` and gives Flask's 500 page, is not
  modelled. `days` is an integer or absent.
- MarketApi.Search: a quote whose `quoteType` key is present with a null
  value is read as absent, which gives `""` instead of `null`.
- The earlier server's `/api/detail` and `/api/health` routes, and the
  dashboard's search-bar filter on `EQUITY`/`ETF`, are not modelled.
- MlServer.Predict: the prices and the move are exact reals, not rounded to
  two decimals as `round(..., 2)` does in the reply. The dates of both
  series are given strings.

## Findings

| source | as written | input that shows it | evidently intended | confidence | as-written member | corrected member |
|---|---|---|---|---|---|---|
| backend/agent_server.py:256-262 | the at-least-two guard counts the upper-cased tickers before the snapshot dictionary merges repeats | `{"tickers": ["nvda", "NVDA"]}` passes the guard, and the model is asked to "compare" the single stock NVDA | at least two distinct stocks to compare | not executed; medium (the error message asks for "at least 2 tickers") | AgentServer.Compare, AgentServer.CompareDuplicateTicker | AgentServer.CompareDistinct, AgentServer.CompareAgreesWithoutRepeats |
