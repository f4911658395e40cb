# Money and evidence of the trading harness

A trading agent decides on a signed schedule, sizes orders with fixed-point rules, sends them to a
venue, and leaves a hash-linked, signed record of everything it did. This project models the parts
of that harness that handle money or evidence and proves what they promise:

- the **order policy** and its sizing arithmetic (`Policy`, `PolicyTheorems`);
- the **deterministic backtest** (`Backtest` is the ledger's step function, `BacktestEngine` the loops
  over mutable state that refine it, `BacktestTheorems` what every successful run keeps,
  `BacktestHistory` the history of a run told without the ledger, `BacktestExact` exactly when a run
  succeeds and with which report);
- **decimal text** in the agent and in the dataset publisher, the **order encoder**, the
  **displayed book** and the **market state** built from it (`Decimal`, `DecimalTheorems`, `Venue`,
  `Book`, `Market`);
- the **dataset pipeline**: the publisher's normaliser and the agent's validator, written
  independently (`Publisher`, `PublisherTheorems`, `Dataset`);
- **scoring and ranking** (`Scoring`, `Ranking`);
- the **event chain and its journal** (`Events`, `Journal`, `JournalTheorems`), the **durable
  writer** that stores, delivers and acknowledges events (`Writer`, `WriterTheorems`);
- the **live cycle** (`Live`, `LiveTheorems`), the **schedule** (`Schedule`) and **whole runs** of
  sessions that start, recover, catch up, tick and die (`Session`, `SessionTheorems`);
- what a run **records** (`Trace`), **remembers** of the equities it saw (`RiskMemory`), has had
  **answered** by the venue (`Windows`) and **counts** (`Tally`), and when a session lives through a
  stage (`Stages`);
- **progress**: when appends and whole plans must succeed (`Progress`), and from it the clocks under
  which the daily order cap holds, exactly (`Clock`).

`Arithmetic` holds the fixed-width types and the division that truncates toward zero.

## How to read it

Code that works step by step is a class or a method with a loop, proved against a function of the
old state; the theorems are about those functions. A failed call is a `Result`, an `Option` or an
outcome, never a precondition.

The live part is written as plans. A plan is the list of durable acts one call will perform in
order: append an event, store the risk state, send an order. What the venue, the model, the clock
and the execution gate answer is a parameter of the plan. The methods of `Live.LiveAgent` and
`Session.RunSession` are proved to perform exactly their plan, stopping at the first act that fails.
A crash between two acts is a plan cut after any number of acts; a crash inside an append, before or
after the sink accepted the event, is an answer of the sink's script. A failed write to the local
database stops a session like a crash at the same place. The whole-run theorems quantify over every
sequence of session stages, every cut, every script and every environment.

An order sent to the venue is recorded with its basis: the account and the market view refreshed for
it, the model's proposal and the risk state of the moment. The market state is built from the book of
that view, so what the policy was asked can be stated of every order of a run: it is the policy's
verdict on its own basis, and the displayed book covers it.

Laws of a run are told from what its stages met, not from the functions that take the steps. The wire
keeps a history variable, every delivery with its answer, so a receipt can be traced to the delivery
the sink answered with it. Every event of a run is one that a stage of the run may record, and a stage
that is lived through records exactly its own. The accounts a stage sees, in order, are its sights: a
stage that is lived through keeps all of them, one that dies the first ones, and the stored peak and the
day's starting equity are told from those. A reconciliation counts as answered when the clock, fills,
funding and a healthy account all answered.

The history of a backtest is such a second telling as well. An entry says what equity an interval's
decision saw, what became of its proposal, and what equity the interval left; each follows from the
entries before it, with the quoted price, the policy question and the fill written out. A run has one
history, and succeeds exactly when every amount along it is representable.

The clock is a parameter too. A `Watch` follows one day through everything a run reads from its
clock: each visit to the day can account for at most the daily maximum of orders, and at most one for
each cycle it wakes. `Reach` adds the visits up. Orders never exceed it, whatever the clock; it is at
most the daily maximum when the clock never comes back to a day it has left; and when it is more,
there is a run that sends that many: a restart that reads another day is enough to restore the count.

Digest and signature check are parameters: theorems that need an injective digest say so. Progress
needs less, a digest that tells events with different identifiers apart, which an injective one does
(`Progress.InjectiveTellsIds`). Event identifiers come from a counter, since the random ones never
repeat. A `Window` payload stands for the venue's answer about that span of time. The sink accepts an
event id once.

Three notes on what the code does. A loss in basis points is measured against current equity, not
against the high (`crates/crow-agent-core/src/policy.rs:259-264`), and the model does the same. A
sale of more than is held ends a whole backtest instead of counting as a rejection
(`crates/crow-agent-core/src/backtest.rs:345-347`), so ledger theorems speak of runs that succeed.
The audit of the journal reads envelopes and not the key columns, so a table it passes can hold a run
that comes back after another has begun (`crates/crow-agent-core/src/journal.rs:166-198`);
`JournalTheorems.AuditIsExact` says exactly when every run is chained.

## Model

| member | source | states |
|---|---|---|
| PolicyTheorems.ApprovalIff | crates/crow-agent-core/src/policy.rs:107-247 | the policy approves an order exactly when a declarative list of conditions holds: every gate open, least lot-rounded size, notional floor, order, position, collateral and depth limits, effective basis points rounded up |
| PolicyTheorems.GateIff | crates/crow-agent-core/src/policy.rs:107-165 | the pre-sizing gates let a proposal through exactly when no limit is breached, losses stated as cross products instead of quotients |
| PolicyTheorems.OptimalSizing | crates/crow-agent-core/src/policy.rs:166-189 | an approved quantity is the least multiple of the lot step whose notional at the reference price reaches the larger of the request and 10 USDC, and the effective basis points never exceed the order limit |
| PolicyTheorems.SizeIff | crates/crow-agent-core/src/policy.rs:166-189 | the chain of ceilings and roundings succeeds exactly when the least sufficient lot count and its notional fit, and yields them |
| PolicyTheorems.LimitIff | crates/crow-agent-core/src/policy.rs:190-236 | the post-sizing limits pass exactly when the notional respects order, position, reserve, leverage and depth bounds |
| PolicyTheorems.EffectiveWithinCeiling | crates/crow-agent-core/src/policy.rs:237-244 | the rounded-up effective basis points of an order within its limit are within the limit too, so the conversion to sixteen bits cannot fail |
| PolicyTheorems.ApprovalMonotone | crates/crow-agent-core/src/policy.rs:107-247 | after loosening any rules or raising the leverage an approved order stays approved, the identical order, exactly when the looser limits still compute: a limit far above the whole capital can overflow, and then the policy refuses |
| PolicyTheorems.LooseningCanRefuse | crates/crow-agent-core/src/policy.rs:190-206 | an input where it happens: with a capital of nine million million USDC an order approved under a limit of two per cent is refused under one of more than six times the capital |
| PolicyTheorems.CeilingIsSound | crates/crow-agent-protocol/src/lib.rs:100-119 | rules that pass the ceiling check approve only orders the default ceiling rules approve identically |
| PolicyTheorems.CeilingIff | crates/crow-agent-protocol/src/lib.rs:100-119 | the ceiling check passes exactly the rules that keep at least ten per cent in cash, lose at most two per cent a day and ten from the peak, order at most two and hold at most ten per cent, accept at most forty basis points of spread, ten seconds of age and twenty orders a day, and trade immediate-or-cancel at leverage one |
| PolicyTheorems.ApprovalNeedsOrderBudget | crates/crow-agent-core/src/policy.rs:162-164 | an approval means the day's orders are below the daily maximum |
| PolicyTheorems.OnlyTheCountMatters | crates/crow-agent-core/src/policy.rs:107-247 | an approved order, asked again with another count of the day and everything else the same, is approved identically exactly while that count is below the daily maximum |
| PolicyTheorems.RefusalHasItsReason | crates/crow-agent-core/src/policy.rs:107-247 | every refusal that is not an overflow is true: it names a fault of the question or a rule that the sized order breaks |
| BacktestTheorems.FillIsTheApprovedOrder | crates/crow-agent-core/src/backtest.rs:79-147 | a fill is the order the policy approved at the next open: same symbol, side, quantity and notional; its price is that open moved against the order by half spread and slippage, never beyond the proposal's limit, and its fee is the taker fee on the notional |
| BacktestTheorems.PassedIff | crates/crow-agent-core/src/backtest.rs:79-110 | a proposal is passed over, the policy not asked, exactly when the two candles follow each other and the quoted price is beyond its limit |
| BacktestTheorems.RefusedIff | crates/crow-agent-core/src/backtest.rs:79-136 | a proposal is refused exactly when its quoted price is within the limit and the policy admits no order at that price |
| BacktestTheorems.FillRespectsRisk | crates/crow-agent-core/src/backtest.rs:297-369 | a fill needs equity above the drawdown bound of the peak, and with leverage one a buy leaves the cash reserve less its fee |
| BacktestTheorems.Conservation | crates/crow-agent-core/src/backtest.rs:226-392 | on every successful run ending cash is starting cash minus net spending, fees and funding, positions never go short, and ending equity is cash plus marked positions |
| BacktestTheorems.StepKeepsBooks | crates/crow-agent-core/src/backtest.rs:282-374 | one interval keeps cash, holdings, fees and funding equal to what its list of fills adds up to, and takes at most one fill, which is the order the policy approved for the scheduled proposal at the next open and respects the risk limits |
| BacktestTheorems.FundingKeepsBooks | crates/crow-agent-core/src/backtest.rs:282-297 | an interval's funding is what the quantities filled so far owe, charged to cash |
| BacktestTheorems.FundingAddsUp | crates/crow-agent-core/src/backtest.rs:282-297 | total funding is the sum of what each interval owed on the quantities held then |
| BacktestTheorems.WholeRunLimits | crates/crow-agent-core/src/backtest.rs:297-369 | on every successful run each day decides at most the daily maximum of fills, and every fill is the order the policy approved on what its decision saw, within drawdown and reserve |
| BacktestTheorems.NoLookAhead | crates/crow-agent-core/src/backtest.rs:226-392 | two successful runs whose candles agree through interval k and on times, symbols and opens of k + 1 have the same equity points through k and the same fills decided by then |
| BacktestHistory.EveryRunHasItsHistory | crates/crow-agent-core/src/backtest.rs:226-392 | every successful run has a history: each interval saw the equity its fills and funding had left; each proposal is due in an interval, where it is passed over because the quoted price is beyond its limit, filled with the order the policy admits on the equity, cash, peak, day start and count of that moment, or refused because it admits none; and the report tells just that, equity points and number of refusals included |
| BacktestHistory.HistoryUnique | crates/crow-agent-core/src/backtest.rs:226-392 | the candles, the proposals and the cash determine the history |
| BacktestHistory.DueOnce | crates/crow-agent-core/src/backtest.rs:256-264 | a proposal is due in one interval only, so it has one outcome |
| BacktestExact.SimulatesIff | crates/crow-agent-core/src/backtest.rs:226-392 | a run succeeds with a report if and only if the input is acceptable and there is a history whose notionals, payments, marks, cash, positions and fees all fit and which the report tells: a refusal or a price beyond the limit never ends a run |
| BacktestExact.AcceptableIff | crates/crow-agent-core/src/backtest.rs:232-264 | the input check accepts exactly positive cash, at least two whole intervals counted in quarters of an hour from the first candle, and proposals at distinct times |
| BacktestEngine.Engine.RunSynchronizedProposals | crates/crow-agent-core/src/backtest.rs:226-392 | the nested loop with its mutable cash, positions, fees, peak and day counters returns the ledger function's report, which is the one that tells the run's history, or its first error |
| BacktestEngine.Engine.RunInterval | crates/crow-agent-core/src/backtest.rs:282-374 | one pass of the loop body is one step of the ledger function |
| BacktestEngine.Engine.Fund | crates/crow-agent-core/src/backtest.rs:283-296 | the funding loop charges what the ledger function charges, symbol by symbol |
| BacktestEngine.Engine.CheckGrid | crates/crow-agent-core/src/backtest.rs:234-255 | the grid loop accepts exactly gapless fifteen-minute triples in symbol order |
| BacktestEngine.Engine.BuildSchedule | crates/crow-agent-core/src/backtest.rs:256-264 | the schedule map is built exactly when no two proposals share a decision time |
| DecimalTheorems.AgentParserIsExact | crates/crow-agent-core/src/hyperliquid.rs:982-1019 | the agent's parser returns x exactly when the text is well formed and denotes x at the scale, zeros beyond it being the only digits allowed there |
| DecimalTheorems.PublisherParserIsExact | apps/crow-dataset-publisher/src/main.rs:310-355 | the publisher's parser returns x exactly when the text is well formed, has no more digits than the scale, and denotes x |
| DecimalTheorems.ParsersAgree | apps/crow-dataset-publisher/src/main.rs:310-355 | the publisher's parser succeeds exactly when the agent's does and no digit is beyond the scale, with the same integer |
| DecimalTheorems.RoundedParserIsNearest | apps/crow-dataset-publisher/src/main.rs:357-401 | up to eighteen decimal places the rounding parser returns x exactly when x is the nearest integer to the scaled decimal, ties away from zero |
| DecimalTheorems.PrintedTextParsesBack | crates/crow-agent-core/src/hyperliquid.rs:924-941 | the shortest decimal text of a positive value parses back to it in both parsers, at every scale whose power fits |
| DecimalTheorems.PlacesTellDivisibility | crates/crow-agent-core/src/hyperliquid.rs:943-947 | the printed text has at most d fraction digits exactly when the value is a multiple of the power of ten left over |
| Venue.FixedDecimal | crates/crow-agent-core/src/hyperliquid.rs:924-941 | the printer that pops trailing zeros yields the shortest text of the value, and fails exactly for non-positive values and powers that do not fit |
| Venue.EncodedSize | crates/crow-agent-core/src/hyperliquid.rs:894-947 | the encoded size parses back to the quantity and passes the precision check exactly when the lot step divides the quantity |
| Venue.BuildIocRequest | crates/crow-agent-core/src/hyperliquid.rs:894-922 | an order encodes exactly when its asset is known, price and quantity are positive and the size fits; both texts parse back, and side, client id and reduce-only flag are carried in a request that can never rest on the book |
| Venue.ApprovedOrdersEncode | crates/crow-agent-core/src/hyperliquid.rs:894-922 | no policy-approved order fails the venue's size-precision check |
| Book.BookSnapshot.MarketableLimitPrice | crates/crow-agent-core/src/hyperliquid.rs:129-150 | the price loop returns the price of the last level within five per cent of the top, and fails exactly when the top or the stopping level cannot be read |
| Book.BookSnapshot.OpposingTopPrice | crates/crow-agent-core/src/hyperliquid.rs:152-159 | the best opposing price, or an error exactly when there is none |
| Book.BookSnapshot.MarketableDepth | crates/crow-agent-core/src/hyperliquid.rs:161-187 | the depth loop sums the rounded-down notional of exactly the levels the price loop sweeps, and fails exactly when one of them or the stopping level cannot be read |
| Book.SweptIsDeepest | crates/crow-agent-core/src/hyperliquid.rs:129-150 | the limit is the price of the last level in reach: no dearer than 105 per cent of the top for a purchase, no cheaper than 95 for a sale, every level up to it priced, and the next one priced and out of reach |
| Book.DepthOfTurnover | crates/crow-agent-core/src/hyperliquid.rs:161-187 | the depth is the sum of price times quantity over its levels, less than one micro-USDC a level short of it |
| Book.LoopsAgree | crates/crow-agent-core/src/hyperliquid.rs:129-187 | whenever the depth loop succeeds so does the price loop, on the same non-empty prefix |
| Book.ApprovedWithinDisplay | crates/crow-agent-core/src/hyperliquid.rs:129-208 | on a sorted book an approved order exceeds the displayed quantity by less than one unit of notional at its limit (buy) or at 95% of the top (sell) |
| Market.MarketSnapshotFromParts | crates/crow-agent-core/src/hyperliquid.rs:659-700 | a snapshot exists exactly for a usable view: positive tops that do not cross, a book not from the future, both depths readable, prices and spread that fit; its market state has the depths of its own book, each on its side |
| Market.UsableIff | crates/crow-agent-core/src/hyperliquid.rs:659-700 | a view is usable exactly when both sides have a positive best price, they do not cross and their spread fits sixteen bits, the book is no newer than its observation, both sides can be summed and both reference prices are there |
| Market.MarketSays | crates/crow-agent-core/src/hyperliquid.rs:659-700 | the policy is told the venue's two prices, each in its place, the whole seconds since the book's time, the spread in whole basis points of the middle, and each side's own depth |
| Market.MarketDepth | crates/crow-agent-core/src/hyperliquid.rs:659-700 | the depth the policy compares an order with is the depth of the levels the order's own limit sweeps |
| Scoring.IntegerSqrt | crates/crow-agent-core/src/scoring.rs:161-176 | for every unsigned 128-bit value the bisection ends without overflow at the root r with r² ≤ v < (r + 1)² |
| Scoring.MaxDrawdownUnique | crates/crow-agent-core/src/scoring.rs:117-160 | the maximum over all ordered pairs of the floored relative drop is one number in [0, 10⁶) |
| Scoring.Drawdown | crates/crow-agent-core/src/scoring.rs:117-160 | the one-pass running peak computes that maximum over all pairs |
| Scoring.ComputePerformanceMetrics | crates/crow-agent-core/src/scoring.rs:117-160 | metrics exist exactly when there are at least two equities, all positive, and every number fits; they are net return, all-pairs drawdown and the downside ratio |
| Scoring.DownsideRatio | crates/crow-agent-core/src/scoring.rs:139-158 | the ratio is the mean change over the floor of the root of the mean squared loss, each quotient cut off toward zero |
| Scoring.ChangesAreQuotients | crates/crow-agent-core/src/scoring.rs:117-138 | a change is the difference in millionths of the equity before it, a drop the loss in millionths of the higher equity, each cut off toward zero |
| Scoring.SumsOfParts | crates/crow-agent-core/src/scoring.rs:139-150 | the mean is taken of all changes, the downside of the squares of the losses only |
| Scoring.RatioUnique | crates/crow-agent-core/src/scoring.rs:139-158 | that definition names one number |
| Scoring.SumFits | crates/crow-agent-core/src/scoring.rs:117-160 | the 128-bit sum of changes cannot overflow on curves of up to eighteen million million points |
| Ranking.RanksSumUp | crates/crow-agent-core/src/scoring.rs:178-189 | doubled average ranks over n values, ties included, add up to n(n − 1) |
| Ranking.PercentileInRange | crates/crow-agent-core/src/scoring.rs:178-189 | the percentile of a member lies in [0, 10⁶] |
| Ranking.PercentileMonotone | crates/crow-agent-core/src/scoring.rs:178-189 | a higher value never has a lower percentile |
| Ranking.ScoreRuns | crates/crow-agent-core/src/scoring.rs:40-114 | the output is a permutation of the scored runs in ranking order, eligible runs first with ranks 1 to k, disqualified ones last without rank |
| Ranking.ScoresFollowRanks | crates/crow-agent-core/src/scoring.rs:40-114 | along the ranks net returns and scores never increase, ties fall to the smaller run id, and every score is within its range |
| Ranking.DisqualifiedById | crates/crow-agent-core/src/scoring.rs:87-104 | disqualified runs come last, in the order of their ids |
| Ranking.RankedScoresSay | crates/crow-agent-core/src/scoring.rs:40-114 | every ranked score is that of one of the runs: its percentile is the share of the other eligible runs with lower net return, half of it for equal ones, rounded down, or the top without company; its score is a tenth of that, and a disqualified run has zero and its reason |
| Ranking.EveryRunIsScored | crates/crow-agent-core/src/scoring.rs:40-114 | every run has such a score in the ranking |
| Dataset.ValidateCandles | crates/crow-agent-core/src/dataset.rs:334-388 | the one-pass validator with its remembered key, opens and decimals accepts exactly the tables a pointwise definition admits |
| Dataset.AdmittedIff | crates/crow-agent-core/src/dataset.rs:334-388 | a table is admitted exactly when it has whole intervals and every row has the asset of its column, its quarter of an hour counted from the first row, its column's lot, funding only on the hour, and open and close within low and high |
| Dataset.AdmittedIsBacktestable | crates/crow-agent-core/src/dataset.rs:334-388 | an admitted table of at least six rows passes the backtest's own grid check |
| PublisherTheorems.WindowIff | apps/crow-dataset-publisher/src/main.rs:285-299 | a window is valid exactly when it runs from a whole hour, not before the epoch, to a later one over at most five thousand quarters of an hour |
| PublisherTheorems.UsableIff | apps/crow-dataset-publisher/src/main.rs:403-473 | a symbol's source is usable exactly when it has one candle of readable numbers for every quarter of an hour and one readable record for every hour of the window, and nothing else |
| PublisherTheorems.PublishedRowsTell | apps/crow-dataset-publisher/src/main.rs:403-523 | every row of the published table says what the venue says of its symbol and interval: times, prices to six places, the volume rounded to eight, the instrument's lot, and on the hour the rate of that hour's record to twelve places, otherwise none |
| Publisher.WindowIsWholeHours | apps/crow-dataset-publisher/src/main.rs:285-299 | a valid window starts on the hour and holds a whole number of hours, four intervals each |
| Publisher.CollectFunding | apps/crow-dataset-publisher/src/main.rs:403-435 | the funding map is built exactly when every record is the symbol's own, not before the window, readable, and alone in its hour, and holds each hour's rate |
| Publisher.NormalizeSymbol | apps/crow-dataset-publisher/src/main.rs:403-473 | a series is normalised exactly when its candles and funding hours are complete, and row i carries the i-th open time, the parsed candle and the funding of its hour |
| Publisher.Interleave | apps/crow-dataset-publisher/src/main.rs:496-523 | the nested push loops produce the interval-major table of three series, or fail exactly when one is too short |
| Publisher.FundingIsConserved | apps/crow-dataset-publisher/src/main.rs:403-473 | the funding rates of a symbol's rows add up to exactly its funding records |
| Publisher.PublishedIsAdmitted | apps/crow-dataset-publisher/src/main.rs:475-523 | an interleaved table meets every time, symbol, precision and funding condition of the agent's validator, so it is admitted exactly when its prices are valid |
| Publisher.PublicationAgrees | apps/crow-dataset-publisher/src/main.rs:475-523 | everything the publisher builds for a valid window is admitted by the agent exactly when its prices are valid, with each symbol's funding conserved |
| Publisher.BuildTable | apps/crow-dataset-publisher/src/main.rs:490-523 | a table is built exactly when the window is valid and every symbol has a usable source, and it is the interleaving of the normalised series |
| Publisher.FetchInstruments | apps/crow-dataset-publisher/src/main.rs:191-218 | the three instruments in symbol order, exactly when the venue lists each of them and has delisted none |
| Publisher.InstrumentsAgree | crates/crow-agent-core/src/dataset.rs:390-415 | the agent accepts the published instruments beside the published table exactly when each has at most eight size decimals and some leverage: every row carries its own instrument's lot |
| Publisher.Publish | apps/crow-dataset-publisher/src/main.rs:475-543 | a publication succeeds exactly when its version is not zero, its directory is empty, its key can be read, every source is usable, the table's prices are valid, the venue's metadata is in range and the window ends before the year 10000; then it is the requested table, the agent admits it with its instruments, and each symbol's funding is conserved |
| Publisher.TableUnique | apps/crow-dataset-publisher/src/main.rs:475-523 | a request that can be built has one table |
| Publisher.TableEnds | crates/crow-agent-core/src/dataset.rs:88-89 | the two dates of the manifest are the window's own ends: the first row opens at its start, the last closes a millisecond before its end |
| Events.TipDeterminesChain | crates/crow-agent-protocol/src/lib.rs:822-888 | with an injective digest two verified chains with the same tip hash have the same length and agree on every hashed field of every event |
| Events.ChainExtends | crates/crow-agent-protocol/src/lib.rs:866-888 | a chain with one more event is verified exactly when the chain is and the event verifies, carries the next sequence and links to the tip |
| Journal.EncryptedJournal.Append | crates/crow-agent-core/src/journal.rs:67-114 | an event is stored exactly when it verifies, continues its run, fits the sequence range and has a new hash; otherwise the table is unchanged |
| Journal.EncryptedJournal.PendingEvents | crates/crow-agent-core/src/journal.rs:148-164 | the run's unacknowledged events in order, exactly when all of them verify |
| Journal.EncryptedJournal.PublicEvents | crates/crow-agent-core/src/journal.rs:166-198 | the single pass that remembers run, sequence and hash accepts exactly the tables in which every envelope continues the one before or starts a run |
| Journal.EncryptedJournal.AcknowledgeEvent | crates/crow-agent-core/src/journal.rs:200-235 | a non-blank receipt is recorded on the event's pending rows and never replaced; success means one row took it or already had the same |
| Journal.EncryptedJournal.PutSecret | crates/crow-agent-core/src/journal.rs:258-271 | a named secret is stored or replaced, all others kept |
| Journal.EncryptedJournal.DeleteSecret | crates/crow-agent-core/src/journal.rs:293-303 | a named secret is removed, all others kept |
| JournalTheorems.PendingOfParts | crates/crow-agent-core/src/journal.rs:148-164 | what is pending of a table is what is pending of its parts, in order |
| JournalTheorems.AuditIsExact | crates/crow-agent-core/src/journal.rs:166-198 | for any sequence of envelopes: one that passes has every run in one verified chain from sequence one and the zero hash if and only if no run comes back after another has begun; and one in which none comes back passes if and only if every run is such a chain |
| JournalTheorems.AuditSays | crates/crow-agent-core/src/journal.rs:166-198 | a sequence passes the audit exactly when every event's hash is the digest of its fields, its signature is accepted for its key, and it follows the event before it in its run or starts one |
| JournalTheorems.EveryEventIsSigned | crates/crow-agent-core/src/journal.rs:67-114 | after any appends and acknowledgements every stored event is hashed, signed and linked so |
| JournalTheorems.EveryHistoryIsSound | crates/crow-agent-core/src/journal.rs:67-235 | every table reachable by appends and acknowledgements passes the audit, has every run in one verified chain, and holds each hash once |
| JournalTheorems.AppendKeepsSound | crates/crow-agent-core/src/journal.rs:67-114 | an append extends exactly the event's own run by that event and leaves every other run as it was |
| JournalTheorems.LatestAfterAppend | crates/crow-agent-core/src/journal.rs:116-135 | after an append the event is the latest of its run, one sequence number further on, and the latest of every other run is what it was |
| JournalTheorems.LatestCountsRun | crates/crow-agent-core/src/journal.rs:116-135 | the latest sequence number of a run is the number of its events |
| JournalTheorems.CountAfterAppend | crates/crow-agent-core/src/journal.rs:137-146 | the number of a run's events of a kind grows by one exactly when such an event is appended to it |
| JournalTheorems.ReceiptKeepsSound | crates/crow-agent-core/src/journal.rs:200-235 | a receipt changes no chain |
| JournalTheorems.AuditIgnoresColumns | crates/crow-agent-core/src/journal.rs:166-198 | a table with unique keys and unique hashes that passes and is not chained: its run column is false, so one run comes back after another and starts again |
| Writer.Sink.AppendEvent | crates/crow-agent-core/src/live.rs:19-29 | a delivery meets the next answer of the script: receipt, refusal, lost reply, or a crash before or after the sink accepted |
| Writer.DurableRunEventWriter.FlushPending | crates/crow-agent-core/src/live.rs:72-85 | the loop delivers every pending event in order and records the sink's own answer to it, stops at the first failure, and counts what it settled |
| Writer.DurableRunEventWriter.AppendEvent | crates/crow-agent-core/src/live.rs:92-125 | flush first, then sign the next event of the chain with the drafted contents, store it, deliver it, record the receipt the sink gave for it; each failure stops there |
| WriterTheorems.AcknowledgeSays | crates/crow-agent-core/src/journal.rs:200-235 | with distinct event ids an acknowledgement succeeds exactly for a receipt that says something and a stored event that is pending or has this receipt; then that event has it and nothing else changes |
| WriterTheorems.EveryInterleavingIsSettled | crates/crow-agent-core/src/live.rs:72-125 | under any interleaving of calls over any runs, with sink failures and crashes anywhere, every event of a run but possibly its last is acknowledged and the server holds a gapless in-order prefix of the local chain, at most one event behind |
| WriterTheorems.EveryReceiptIsTheSinks | crates/crow-agent-core/src/live.rs:76-123 | after any calls, answers and crashes, every stored receipt is one the sink gave, in answer to a delivery of that very event, and every event delivered is stored |
| WriterTheorems.AppendEffect | crates/crow-agent-core/src/live.rs:92-125 | an append grows the run by the drafted event or not at all, loses no receipt, records no receipt but the sink's answers to the very events, and success leaves the whole run acknowledged |
| WriterTheorems.FlushSettles | crates/crow-agent-core/src/live.rs:72-85 | a flush adds no event, records no receipt but the sink's answers to the very events, and success leaves the whole run acknowledged |
| WriterTheorems.SettleLast | crates/crow-agent-core/src/live.rs:113-122 | delivering a run's last pending event keeps the invariant whatever the sink does |
| WriterTheorems.KnownIffSent | crates/crow-agent-core/src/live.rs:72-85 | the server knows a run's last event exactly when it is not behind on that run, so a redelivery is harmless |
| WriterTheorems.StoreKeepsSettled | crates/crow-agent-core/src/live.rs:99-112 | storing the next event of an acknowledged run leaves exactly that event outstanding |
| Progress.AppendSucceeds | crates/crow-agent-core/src/live.rs:92-125 | with an identity whose signatures verify, a digest that tells events apart, room in the run and a sink that answers, an append succeeds: the run is one event longer, acknowledged and on the server whole |
| Progress.FlushSucceeds | crates/crow-agent-core/src/live.rs:72-85 | with a sink that answers, a flush succeeds and takes at most one answer |
| Live.LiveAgent.ReconcileLiveState | crates/crow-agent-core/src/live_cycle.rs:197-267 | reconciliation reports fills and funding from the last stored time to now, then the account, and only then stores the new time; any failure stops at that act |
| Live.LiveAgent.ExecuteLiveCycle | crates/crow-agent-core/src/live_cycle.rs:284-402 | a cycle performs exactly its plan: refuses before its first event when account or markets are unusable, then records start, book, candles and portfolio before deciding |
| Live.LiveAgent.FollowDecision | crates/crow-agent-core/src/live_cycle.rs:403-492 | a failed decision is recorded, the risk state stored and the run kept; a decision is reported after its receipts and a hold ends with a policy outcome |
| Live.LiveAgent.ConsiderProposal | crates/crow-agent-core/src/live_cycle.rs:493-582 | the account is refreshed before the book, the limit and sizing reference come from the refreshed book, and a policy refusal or a closed gate ends with a recorded outcome |
| Live.LiveAgent.AskPolicy | crates/crow-agent-core/src/live_cycle.rs:509-582 | the proposal takes its limit from the refreshed book; a book that cannot be read, a policy refusal and a closed gate each end where the source ends them, and only an approval is dispatched |
| Live.LiveAgent.DispatchOrder | crates/crow-agent-core/src/live_cycle.rs:583-667 | policy outcome, order event, incremented counter stored, and only then the venue; a refused submission keeps the counted order |
| LiveTheorems.CycleSanctioned | crates/crow-agent-core/src/live_cycle.rs:284-676 | whatever the environment answers, every submission of a cycle is the policy's verdict on the account, book, proposal and risk state recorded with it, announced in an acknowledged event and counted durably before, and the reconciliation time moves only to the end of reported windows |
| LiveTheorems.DispatchSanctioned | crates/crow-agent-core/src/live_cycle.rs:583-667 | below the daily maximum the dispatch acts keep that discipline |
| LiveTheorems.ReconcileSanctioned | crates/crow-agent-core/src/live_cycle.rs:212-266 | reconciliation acts keep that discipline |
| LiveTheorems.DispatchedWithinDisplay | crates/crow-agent-core/src/live_cycle.rs:504-541 | on a sorted book every order that is the verdict on its recorded basis is covered by what that very book displays up to its limit, to within one unit of notional |
| LiveTheorems.CutPlanKeeps | crates/crow-agent-core/src/live_cycle.rs:284-676 | a disciplined plan cut after any number of acts leaves every durable promise intact |
| LiveTheorems.PlanKeeps | crates/crow-agent-core/src/live_cycle.rs:284-676 | a disciplined plan that ends keeps every durable promise, and an ending the run survives leaves memory in step with the stored state |
| LiveTheorems.CoverExtends | crates/crow-agent-core/src/live_cycle.rs:620-646 | a window that starts at the stored time extends coverage without a gap, also when the clock ran backwards |
| LiveTheorems.CycleCountsOnce | crates/crow-agent-core/src/live_cycle.rs:361-369 | a cycle appends exactly one counted event once it has begun, and every ending the run survives has begun |
| LiveTheorems.CycleSendsIff | crates/crow-agent-core/src/live_cycle.rs:284-607 | a cycle sends an order if and only if clock, account, books and candles answer, both accounts are healthy, the model proposed one, the policy approves it on the refreshed book and account, and the execution gate is open |
| LiveTheorems.AskableIff | crates/crow-agent-core/src/live_cycle.rs:504-541 | the policy can be asked exactly when the refreshed view is usable, the side has a deepest price in reach, and the capital fits |
| LiveTheorems.VerdictIff | crates/crow-agent-core/src/live_cycle.rs:509-541 | its verdict is an order exactly when the declarative policy admits it for the proposal at that deepest price, on the venue's prices, the book's age, spread and depths, and the account and risk state refreshed for it |
| LiveTheorems.JustifiedWithinRules | crates/crow-agent-core/src/policy.rs:107-247 | every order that is the verdict on its recorded basis respects, written out on that basis, the loss limits, the day's count, order and position size, the cash reserve, the age and spread of the book and the displayed depth, and is the least number of lots worth the proposed share |
| LiveTheorems.CycleReportsTruth | crates/crow-agent-core/src/live_cycle.rs:477-676 | a cycle sends at most one order, the verdict on the account and book refreshed at dispatch, the model's proposal and the risk state in memory; it sent one exactly when it reports so, and a hold, a refusal or a failed decision sent none |
| Progress.PlanSucceeds | crates/crow-agent-core/src/live_cycle.rs:284-676 | a plan whose events can all be appended is carried out to its end: its ending, its risk state in memory and in store, and its orders are exactly those it names |
| Schedule.ScheduleExists | apps/crow-agentd/src/live_run.rs:792-802 | there is a schedule exactly when the arena lasts at least one interval |
| Schedule.CyclesAreSpaced | apps/crow-agentd/src/live_run.rs:762-773 | the first cycle starts with the arena, each following one exactly one interval later |
| Schedule.EveryCycleFits | apps/crow-agentd/src/live_run.rs:762-773 | the schedule holds exactly the cycles with a representable start a full interval before the arena ends |
| Schedule.DueIsExact | apps/crow-agentd/src/live_run.rs:775-802 | the due count is exactly the number of scheduled starts that have come |
| Session.RunSession.InitializeEventChain | apps/crow-agentd/src/live_run.rs:225-231 | start or flush the chain, count started and missed cycles, and refuse a count beyond the schedule |
| Session.RunSession.StartChain | apps/crow-agentd/src/live_run.rs:626-679 | a run with events only flushes; a new one records start, handoff and pause in order |
| Session.RunSession.RecoverState | apps/crow-agentd/src/live_run.rs:232-266 | load the stored risk state, or store a first one for a valid account, then reconcile from it; a stored state that does not decode ends the session with nothing changed |
| Session.RunSession.CatchUpWithSchedule | apps/crow-agentd/src/live_run.rs:267-301 | one missed event for each boundary passed, then stop if the schedule is used up or go on |
| Session.RunSession.AccountForBoundaries | apps/crow-agentd/src/live_run.rs:267-285 | the catch-up loop appends the missed events of exactly the boundaries between the counter and the due count |
| Session.RunSession.Tick | apps/crow-agentd/src/live_run.rs:473-543 | stop at the end of the schedule, record a missed boundary while paused, otherwise run a cycle; only a completed cycle or a failed model decision counts and goes on |
| Session.RunSession.AppendLifecycle | apps/crow-agentd/src/live_run.rs:358-383 | an authenticated control is recorded, and a stop ends the run |
| SessionTheorems.DailyCapHolds | crates/crow-agent-core/src/live_cycle.rs:583-607 | over any run of sessions, cycles and crashes whose clock never steps back to an earlier day, submissions dated to one day never exceed the daily maximum |
| SessionTheorems.ClockBoundsOrders | crates/crow-agent-core/src/live_cycle.rs:583-607 | for any clock and any crashes, submissions dated to a day are at most what the visits to that day can account for |
| Clock.CapDependsOnClock | crates/crow-agent-core/src/live_cycle.rs:692-699 | for any sequence of restarts and wake-ups in an arena that would trade at every wake-up, every run that reads those days keeps the daily maximum if and only if the visits to the day cannot account for more than it; the breaking run reads every time on the day it shows |
| Clock.TradingRun | crates/crow-agent-core/src/live_cycle.rs:692-699 | a run of restarts and wake-ups in which nothing but the clock changes sends on every day exactly as many orders as the visits to the day account for, and accounts for exactly its cycles |
| Clock.RestartGoesOn | apps/crow-agentd/src/live_run.rs:225-301 | a session that dies and starts again goes on with the boundaries it missed accounted for, the same orders sent, and a risk state dated to the day the clock shows: the count is kept on the same day and zero on any other |
| Clock.ComingBackBreaksTheCap | crates/crow-agent-core/src/live_cycle.rs:692-699 | a concrete run with coherent times: at most one order a day, one order on day 1, a restart while the clock is set back to day 0, and another order on day 1 |
| RiskMemory.EveryRunRemembers | crates/crow-agent-core/src/live_cycle.rs:692-699 | over any run and any crashes, the stored peak is the highest equity of the run's first state and of every account its stages kept, the day's starting equity is the first equity kept on the trading day, and a live session holds exactly what is stored; a stage lived through keeps every account it saw, one that dies the first ones |
| RiskMemory.OrdersRemember | crates/crow-agent-core/src/live_cycle.rs:493-541 | every order was judged on the peak and the day's starting equity told from the run's first state, every account kept before its wake-up, the account that wake-up began with and the account it was judged on |
| Tally.OrdersAreCounted | crates/crow-agent-core/src/live_cycle.rs:606-645 | over a run each stage lived through adds exactly the orders it sent to the stored count of the day, from zero on a new day, and moves the reconciliation time exactly to that of its own reconciliation; a stage cut short may have counted the one order it was about to send |
| SessionTheorems.RiskIsNeverReset | crates/crow-agent-core/src/live_cycle.rs:692-699 | over any stretch of a run the stored risk state is never lost, its peak never falls, and orders are judged against a peak no lower; with a clock that never steps back, its day never goes back, its starting equity stays within a day and its count never falls |
| SessionTheorems.SubmissionsAreJustified | crates/crow-agent-core/src/live_cycle.rs:504-607 | whatever the clock and the crashes, every order sent answers the wake-up that sent it, through an open gate: it is the policy's verdict on the account and book refreshed for it, the model's proposal and the risk state of its day, respects every limit of the arena, is covered by that book if it is sorted, and the server holds the event that announced it |
| SessionTheorems.OrdersAnswerWakeUps | apps/crow-agentd/src/live_run.rs:473-543 | each order of a run was sent by one of its wake-ups, from the answers that wake-up met and the risk state its session held |
| SessionTheorems.SubmissionsEncode | crates/crow-agent-core/src/hyperliquid.rs:894-922 | no order of a run fails the venue's encoder, as long as the venue's table has the lot of the view the order was decided on |
| Windows.NoReconciliationGap | crates/crow-agent-core/src/live_cycle.rs:620-667 | whatever the clock and the crashes, every instant from the first stored reconciliation time to the current one is in a fill window and in a funding window, each recorded by a recovery or a wake-up of the run for which the venue had answered fills, funding and a healthy account up to that window's end |
| Windows.EveryWindowIsAnswered | crates/crow-agent-core/src/live_cycle.rs:212-249 | every fill or funding window of a run was recorded by such a stage |
| Windows.TimeMovesWhenAnswered | crates/crow-agent-core/src/live_cycle.rs:214-222 | the stored reconciliation time is the first state's, or changes only in a stage whose fills, funding and account were all answered, to the time they were asked for |
| Trace.EveryEventHasItsStage | crates/crow-agent-core/src/live_cycle.rs:306-676 | every event of a run was recorded by one of its stages, carries that run's and identity's marks, and is one that the stage may record on what it met: a control its own kind, a reconciliation only when answered, an order only through an open gate |
| Trace.CycleTells | crates/crow-agent-core/src/live_cycle.rs:361-676 | a cycle the run survives records exactly its record, in order: start, book, candles and portfolio, then a failure, or receipts, proposal, the refreshed book, the outcome, and for an order its announcement, acknowledgement and reconciliation |
| Trace.ReceiptsAreTheSinks | crates/crow-agent-core/src/live.rs:76-123 | every receipt a run leaves was there before or is what the sink answered to a delivery of that very event during the run |
| Stages.LivingStagesTell | apps/crow-agentd/src/live_run.rs:159-566 | a session that lives through a stage has recorded exactly the stage's events, in order, and goes on with the stage and the counter the source gives it |
| Stages.StagesAreLivedThrough | apps/crow-agentd/src/live_run.rs:159-566 | a session lives through a stage only if what the stage asks for answers: a recovery may start and is reconciled, a cycle ends alive; and if the stage is not cut and its events can be signed, stored and delivered, exactly then |
| Stages.CycleEndsIff | crates/crow-agent-core/src/live_cycle.rs:284-676 | a cycle ends with the run alive exactly when everything it asks for first answers and then the model fails, or decides on nothing, or its proposal concludes: the book can be swept, and an approved order that the gate lets through is accepted and reconciled |
| SessionTheorems.EveryRunIsAccounted | apps/crow-agentd/src/live_run.rs:225-285 | started plus missed cycles in the journal never exceed the schedule and equal the counter of every live session at every stage |
| SessionTheorems.CatchUpLeavesNothingDue | apps/crow-agentd/src/live_run.rs:267-285 | a session that goes on after catching up has accounted for every boundary that has passed, and for none that has not |
| SessionTheorems.RunsAreSettled | crates/crow-agent-core/src/live.rs:72-125 | the server's copy of a run stays a gapless prefix of the local chain throughout any run of sessions |
| SessionTheorems.StepKeeps | apps/crow-agentd/src/live_run.rs:159-566 | one stage of a session, cut anywhere or carried out, keeps every durable promise |

## Left out

- Ed25519, SHA-256, HMAC, X25519 and XChaCha20: the digest and the signature check are parameters; private payloads and their ciphertext columns are not modelled.
- SQLite, Parquet, the file system and the keyring: tables are sequences and maps, and each statement is atomic.
- HTTP, websockets and the relay: their answers are parameters of plans and scripts.
- Canonical JSON: an event's payload is an opaque number, a reconciliation window, a client order with its order, or a missed boundary; the reference from an order event to its policy event is not modelled.
- The execution gate's own transitions: whether orders are permitted at dispatch, and whether the run is running at a tick, are answers of the environment.
- Whether a recovered run resumes by itself: the decision is an answer of the environment, its event is modelled.
- Mid-run changes of settings: the cooldown and the leverage are fixed, so the expected count is too.
- Leases, run identifiers and the strategy version kept as secrets: a run that is over does not come back under the same identifier.
- The static backtest, a simpler variant of the synchronized one.
- Model output, prompts and summaries: a decision is a failure, a hold or any proposal.
- Desktop shell, deployment files, the request budget and the nonce of the venue.
- Unchecked additions of 64-bit times in the grid checks are exact integers here; a wrapping build differs only within a day of the largest time.
- BacktestTheorems.FillIsTheApprovedOrder: the sum of half spread and slippage wraps modulo 65536 as in an optimised build; a debug build would abort instead.
- Journal.EncryptedJournal.AcknowledgeEvent: a blank receipt is one of spaces, tabs and line breaks; other Unicode white space is not modelled.
- Ranking.ScoreRuns: run identifiers are numbers in their own order, and the library's stable sort is an insertion sort.
- Scoring.ComputePerformanceMetrics: the sum of changes is an unbounded integer; it fits 128 bits on curves of up to eighteen million million points (`Scoring.SumFits`), far beyond memory.
- SessionTheorems.DailyCapHolds: speaks of clocks that never step back to an earlier day; under one that comes back to a day the cap can fail (`Clock.ComingBackBreaksTheCap`), since the source's counter restarts; `Clock.CapDependsOnClock` has the exact condition.
- BacktestExact.SimulatesIff: which error a run that does not succeed returns is not stated.
- PolicyTheorems.RefusalHasItsReason: the named reason is a true one; which of several true reasons comes first, and when an overflow is reported instead, is not stated.
- Publisher.Publish: which of the errors a refused publication returns is not stated.
