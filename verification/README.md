# A verified model of the prediction ledger and the trading agent

This project models two systems of the repository and proves what they promise of every run.

**The prediction agent** (`src/predict_agent`) keeps a paper ledger: cohorts and their funded portfolios,
research attempts, forecasts, baselines, decisions, tickets, settlements and a backed cash chain. The tables
are one value (`Schema.Tables`); a `Connection` object holds it, and each transaction is a method that
replaces it, proved equal to a function of the old tables. Around it stand the order-book walk and the sizing
policy (pure functions), the rule that picks the observation that settles a market, the research-day loops
with their budget, and the auditor that re-derives every accounting relation.

**The trading agent** (`src/japan_agent`) approves and executes trade tickets: a `Database` of proposals,
executions and events, a risk engine, and an `ExecutionService` that claims, sends and records. The protocol
is also modelled as a state machine in which every transaction and every broker call is a step of its own,
any processes interleave and any of them may stop for good after any step.

Main results, in the order of the tables below:

- the walk is an optimal purchase for every budget exactly when no level too small for a share quantum hides a
  larger one, and its fills pass the auditor exactly when the book repeats no price;
- a trade costs at least its minimum edge less a share than its chance of paying, under every probability of the
  forecast's band where the policy is cautious, and settling pays its holder exactly what the outcome is worth;
- every trade the policy returns is accepted by the ledger and passes the audit; after any run the audit is
  clean and each portfolio's cash plus open cost is its bankroll plus its settled results; no run ruins a
  portfolio that caps its open cost below its equity;
- a market's outcome depends only on the facts observed and their times;
- no UTC day is overspent, in money or entries, over any run with crashes, recoveries and changing caps; each
  queued market gets exactly the disposition the earlier ones leave it; resuming converges;
- an order is sent exactly when the stored ticket, the quote, the portfolio and the limits meet conditions stated in
  numbers;
- at most one order is ever sent per proposal, for the ticket whose exact hash was approved before it expired,
  and an order leaves before its ticket expires exactly when the ticket outlives the time its call takes to send;
- completed serial executions send at most three orders a week and one of a call that straddled the Monday;
  at most three are always sent exactly when every call leaves more time before the Monday than its order
  takes to go out, and concurrent executions send any number;
- submission times move back exactly where an execute or a reconcile overtakes a reconcile of the same proposal.

Conventions. Money, prices, shares and probabilities are exact reals; the only roundings are the explicit
ones (`RoundShares`, `Cents`, `WholeQuantity`). Instants are integers in microseconds. A SHA-256 digest is the
value it digests, so it is injective and never the genesis value. What the outside world answers (sessions,
books, observations, broker, clock, eligibility, discovery) is a parameter or an object that promises nothing
more than its type.

Where the code and its own words differ, the model follows the code: `src/japan_agent/storage.py:533-534` says
the earliest submission time is kept, the statement below it keeps the newest (`Submissions.NewestKept`); an
APPROVED proposal whose execution is already CLAIMED can still become EXPIRED (`Protocol.Coupled`), and
reconciling does not look at the previous state, so FILLED and FAILED are not final.

## Model

| member | source | states |
|---|---|---|
| Fills.FirstBadLevel | src/predict_agent/fills.py:65-75 | no refusal exactly when every level has a price in (0, 1), a positive size and a price on the tick |
| Fills.FirstBadLevelIs | src/predict_agent/fills.py:65-75 | a book is refused for its first level with a price outside (0, 1), no size or a price that is no whole number of ticks, as a bad book or for the tick |
| Fills.RoundSharesDown | src/predict_agent/fills.py:61-62 | shares are rounded towards zero to whole hundredths |
| Fills.SortCorrect | src/predict_agent/fills.py:65-75 | the walk's order is the whole book, cheapest first |
| Fills.SortStable | src/predict_agent/fills.py:65-75 | levels at one price keep the order of the book |
| Fills.UnitCostIncreasing | src/predict_agent/fills.py:53-54 | price plus fee is strictly increasing in price for every rate in [0, 1) |
| Fills.FeeShape | src/predict_agent/fills.py:53-54 | the fee is nothing at prices 0 and 1, the same for a price and its complement, and at most a quarter of the rate, which it is at even odds |
| Fills.TakeBounds | src/predict_agent/fills.py:96-102 | a level's take is within its depth and the money left, and when it is short of the depth one quantum more is unaffordable |
| Fills.WalkLevels | src/predict_agent/fills.py:92-110 | the loop computes the greedy walk and never costs more than the budget; after each level the budget is what remains plus notional plus fees |
| Fills.WalkAsks | src/predict_agent/fills.py:78-110 | refusals in order, otherwise the walk of the sorted book, within the budget |
| Fills.WalksIff | src/predict_agent/fills.py:78-91 | a book is walked exactly with a budget that is not negative, a rate in [0, 1), a positive tick and only usable levels, and which refusal otherwise |
| Fills.GreedyShape | src/predict_agent/fills.py:92-110 | fills are a prefix of the sorted book: every level but the last at its rounded depth, none beyond its size or the limit price |
| Optimality.WalkOptimalIff | src/predict_agent/fills.py:78-110 | for every budget no allocation of quanta within depth, limit and budget buys more, or as much for less, exactly when no sub-quantum level under the limit stands before a larger one |
| Optimality.WalkOptimalWithoutDust | src/predict_agent/fills.py:78-110 | with every size at least one quantum the walk is optimal for every budget and limit |
| RecordedBook.WalkAverage | src/predict_agent/fills.py:48-50 | the average price of a non-empty walk lies between the best ask and the limit |
| RecordedBook.AlwaysRecordedIff | src/predict_agent/invariants.py:280-292 | whatever is bought from a usable book passes the auditor's depth check exactly when, before the first level smaller than a quantum, no price repeats and the size kept at each price covers the level there |
| RecordedBook.RecordedWithoutDust | src/predict_agent/invariants.py:280-292 | distinct prices suffice, and are needed when no level is smaller than a quantum |
| Extremes.RepeatedPriceFailsAudit | src/predict_agent/invariants.py:280-292 | a run from the empty ledger over a book that repeats a price leaves a ticket the auditor reports |
| PolicyParams.FeeRate | src/predict_agent/gamma.py:126-137 | a usable rate is in [0, 1) |
| PolicyParams.FeeRateIff | src/predict_agent/gamma.py:126-137 | a schedule gives a rate exactly when it is a linear taker fee with that rate in [0, 1) |
| PolicyParams.ConfidenceOrder | src/predict_agent/policy_params.py:21 | low, medium and high are in that order, above no confidence at all |
| Policy.KellyWealth | src/predict_agent/policy.py:92-93 | spending the Kelly fraction makes wealth q over p of what it was where the side wins and (1 - q) over (1 - p) where it loses |
| Policy.BoundsIsWorstCase | src/predict_agent/policy.py:96-102 | under bounds a side is judged at the largest value that no probability of the band puts below it |
| Policy.MidIsFair | src/predict_agent/policy.py:96-102 | under mid YES is judged at the middle of the band and the two sides sum to one |
| Policy.BudgetIsLargest | src/predict_agent/policy.py:105-121 | a positive amount is within the budget exactly when it is within the stake, the cash and each cap on top of what is exposed |
| PolicyRules.BudgetAllows | src/predict_agent/policy.py:92-121 | the budget at an ask is the most within the policy's fraction of the Kelly stake, the cash and every cap |
| Policy.GateOpenIff | src/predict_agent/policy.py:124-153 | the gate is open exactly when the forecast, the market, the confidence, the time left and both books' ages and fees meet every standing condition |
| Policy.GateReason | src/predict_agent/policy.py:124-153 | which refusal: the first standing condition that fails, in the source's order, the YES book before the NO book |
| Policy.DecideTradesIff | src/predict_agent/policy.py:203-220 | a trade is made exactly when every standing condition holds and some side, judged at its end of the band or at the middle, is tradable |
| Policy.DecideIsBestSide | src/predict_agent/policy.py:203-220 | a trade is its side's own answer at its end of the band or the middle, no tradable side has a larger edge, and a tie goes to YES |
| Policy.DecideSound | src/predict_agent/policy.py:165-220 | a trade comes from its own side's fresh and priced book, is a prefix walk within its budget, meets the minimum order, stays within every cap and the cash, and keeps at least the minimum edge after fees |
| PolicyRules.SideTradesIff | src/predict_agent/policy.py:165-200 | a side trades exactly when its budget buys shares within the slippage limit, no fewer than the minimum order by either reading, each at least the minimum edge cheaper than it is judged to be worth, fees included |
| PolicyRules.SideReason | src/predict_agent/policy.py:165-200 | which refusal of a side that does not trade |
| PolicyRules.DecideReason | src/predict_agent/policy.py:203-220 | the gate's refusal, or the first side's that is not the lack of an edge |
| PolicyRules.BoundsTradeKeepsEdge | src/predict_agent/policy.py:96-220 | a bounds trade costs, fees included, at least the minimum edge less a share than its chance under every probability of the band |
| PolicyRules.MidTradeKeepsEdge | src/predict_agent/policy.py:96-220 | a mid trade likewise against the middle of the band |
| Settlement.GoverningByFacts | src/predict_agent/settlement.py:82-101 | the governing observation is unambiguous exactly when one fact ended last, began last among those, and nothing gathered since it began disagrees |
| Settlement.GoverningRow | src/predict_agent/settlement.py:82-101 | the governing row is one seen last; requested last, then lowest id, where those agree, and lowest id where they do not |
| Settlement.AmbiguousIff | src/predict_agent/settlement.py:69-101 | the evidence is ambiguous exactly when two rows seen last disagree or a row that disagrees with the governing one was fetched or Gamma-fetched at or after its request, or its fetch where no request time was kept |
| Settlement.FinalOutcomeIff | src/predict_agent/settlement.py:111-138 | a final outcome exists exactly when the deciding fact is resolved and confirmed with it |
| Settlement.FinalOutcomeByColumns | src/predict_agent/settlement.py:69-138 | in the rows' own columns: an outcome exists exactly when some resolved and confirmed row was seen last and every row that reports otherwise was last fetched and Gamma-fetched before its request |
| Settlement.PendingMeans | src/predict_agent/settlement.py:111-127 | what a market waits for, by its governing row |
| Settlement.OutcomeFromFacts | src/predict_agent/settlement.py:82-138 | ambiguity and outcome depend only on the set of facts |
| Settlement.OutcomeOrderIndependent | src/predict_agent/settlement.py:82-138 | permuting and renumbering a market's observations changes neither |
| Settlement.LateArrivalOfOldEvidence | src/predict_agent/settlement.py:82-101 | an observation that ended before the governing one began changes nothing |
| Settlement.NewestEvidenceGoverns | src/predict_agent/settlement.py:82-101 | an observation that began after all others ended governs unambiguously |
| Schema.Connection.constructor | src/predict_agent/db.py:173-205 | a new ledger is empty |
| Cash.AvailableCash | src/predict_agent/cash.py:44-50 | the signed sum of the portfolio's entries |
| Cash.AppendCashEntry | src/predict_agent/cash.py:73-174 | the next chained entry, or the refusal of an unbacked or uncovered one |
| Cash.AppendsIff | src/predict_agent/cash.py:73-174 | exactly which entries are accepted: the bankroll once and first, the cost of an own open ticket once and within the cash, the payout of an own settled ticket once |
| Cash.AppendedBalance | src/predict_agent/cash.py:44-50 | an accepted entry adds to its own portfolio's cash, a debit subtracts, and no other portfolio's changes |
| Cash.SameHeadSameChain | src/predict_agent/cash.py:53-70 | two accepted cash chains of a portfolio with the same head are the same entries |
| Tickets.TicketTotals | src/predict_agent/tickets.py:54-70 | shares and cost of a draft, or malformed |
| Tickets.OpenTicketLocked | src/predict_agent/tickets.py:97-185 | the ticket, its debit and its decision together, or a refusal |
| Tickets.OpensIff | src/predict_agent/tickets.py:97-185 | exactly which drafts open a ticket, in the tables' own columns |
| Tickets.OpeningWrites | src/predict_agent/tickets.py:97-185 | the ticket with the draft's columns and totals, its debit and its decision, and nothing else |
| Tickets.RecordRefusalLocked | src/predict_agent/tickets.py:193-239 | one refusal per portfolio and entry forecast with a baseline row |
| Tickets.RefusesIff | src/predict_agent/tickets.py:193-239 | exactly when a refusal is recorded, and that only its decision is written |
| Tickets.ReadOpenCost | src/predict_agent/tickets.py:254-261 | the cost of the portfolio's open tickets |
| Tickets.OpeningKeepsEquity | src/predict_agent/tickets.py:254-265 | opening moves cash into open cost and leaves equity as it was |
| Cohorts.EnsureCohort | src/predict_agent/cohorts.py:91-185 | an existing cohort reused, or the active ones closed and a new one with its funded portfolios, or nothing |
| Cohorts.EnsuresMeans | src/predict_agent/cohorts.py:92-185 | which identity gives a cohort: a usable one at a positive bankroll; a known one only active and at its own bankroll; a new one closes the active cohort and funds its portfolios |
| Cohorts.VariantNameIff | src/predict_agent/cohorts.py:28-29 | a variant's name is a slug of at most 32 characters, or one and a final newline |
| Cohorts.StoresIff | src/predict_agent/artifacts.py:14-26 | content is stored once under its digest, as one kind |
| Cohorts.FundPortfolios | src/predict_agent/cohorts.py:166-173 | each declared portfolio inserted and funded in order |
| Cohorts.CloseActive | src/predict_agent/cohorts.py:141-152 | every active cohort closed |
| Forecasts.StartAttempt | src/predict_agent/forecasts.py:149-171 | one STARTED attempt of an active cohort |
| Forecasts.FailAttempt | src/predict_agent/forecasts.py:174-205 | a STARTED attempt closed with its cost and error, once |
| Forecasts.AttemptsIff | src/predict_agent/forecasts.py:139-205 | an attempt starts exactly in an active cohort and fails exactly once, with a cost and a reason |
| Forecasts.RecordForecast | src/predict_agent/forecasts.py:97-302 | the forecast and its attempt's success together, or a refusal |
| Forecasts.RecordsIff | src/predict_agent/forecasts.py:101-302 | exactly which forecasts are recorded, in the tables' own columns |
| Forecasts.AttachBaseline | src/predict_agent/forecasts.py:323-370 | two books of the market, one a side, fetched inside the window, or a refusal |
| Forecasts.AttachesIff | src/predict_agent/forecasts.py:317-370 | exactly once, and of a YES and a NO book of the market fetched within the cohort's seconds of the forecast |
| Forecasts.MarkNoTimelyBaseline | src/predict_agent/forecasts.py:373-406 | only after the window, with a default decision in every undecided portfolio |
| Forecasts.MarksIff | src/predict_agent/forecasts.py:317-406 | exactly once and after the cohort's seconds; then exactly the undecided portfolios of its cohort get the default decision |
| Forecasts.ResumeStepMeans | src/predict_agent/forecasts.py:421-437 | where a forecast stands, by its baseline row, its window and the undecided portfolios |
| Forecasts.FinishedIff | src/predict_agent/forecasts.py:421-451 | finished exactly with a baseline row and, for a timely entry, a decision in every portfolio of its cohort |
| Forecasts.StoredBaseline | src/predict_agent/research_run.py:478-502 | the earliest timely pair, and none exactly when no stored pair could be attached |
| Paper.ReadExposure | src/predict_agent/paper.py:81-100 | open cost on the market, its event, its category and in total |
| Paper.ExposureCounts | src/predict_agent/paper.py:81-100 | an open ticket of the portfolio on a listed market counts at its cost on its market, event and category |
| Paper.DecisionReads | src/predict_agent/paper.py:63-170 | which columns a decision reads |
| Paper.PolicyReadIff | src/predict_agent/policy_params.py:96-135 | a policy is read exactly when it is stored as one under its own digest with every parameter in range |
| Paper.DecidePortfolio | src/predict_agent/paper.py:183-237 | one decision transaction: skipped, refused or traded, or nothing on an error |
| PolicyRules.TicketKeepsEdge | src/predict_agent/paper.py:183-237 | the ticket a decision opens costs at least the minimum edge less a share than the chance of its side, for every probability its policy's source stands for |
| Settling.SettleTicket | src/predict_agent/settlement.py:141-213 | one settlement transaction: settled, waiting or already settled |
| Settling.SettlingPays | src/predict_agent/settlement.py:55-213 | settling credits all the shares where the held side is the outcome, none where it is the other and half on a half, and records the result net of cost |
| Settling.HoldersShareTheShares | src/predict_agent/settlement.py:55-213 | a YES and a NO holding of equal shares together receive exactly those shares |
| Settling.SettleOpenTickets | src/predict_agent/settlement.py:141-213 | the sweep is its tickets' transactions in order, with its count of settled tickets and its list of waiting ones |
| Sweeps.SweepSettlesAll | src/predict_agent/settlement.py:141-213 | on a reachable ledger a sweep never fails, settles exactly the open tickets whose market has a final outcome, lists the others with what they wait for, and a second one settles nothing |
| Invariants.ChainProblems | src/predict_agent/invariants.py:92-99 | reports nothing exactly when the cash chain recomputes |
| Invariants.BalanceProblems | src/predict_agent/invariants.py:108-122 | reports nothing exactly when no prefix is negative and every entry is for a ticket of the portfolio |
| Invariants.CashProblems | src/predict_agent/invariants.py:84-125 | reports nothing exactly when the portfolio's cash is clean |
| Invariants.VerifyLedger | src/predict_agent/invariants.py:378-415 | reports nothing exactly when no trigger is missing and every check of every record passes |
| AuditFacts.CohortFacts | src/predict_agent/invariants.py:53-81 | what a clean audit says of a cohort and its portfolios, in their own columns |
| AuditFacts.CashFacts | src/predict_agent/invariants.py:84-125 | of a portfolio's cash entries |
| AuditFacts.ForecastFacts | src/predict_agent/invariants.py:128-170 | of a forecast, its attempt and its baseline |
| AuditFacts.TicketFacts | src/predict_agent/invariants.py:173-237 | of a ticket, its forecast, its decision and its entries |
| AuditFacts.SettlementFacts | src/predict_agent/invariants.py:240-266 | of a settlement: a confirmed resolution, what the held side is due, and the net |
| AuditFacts.FillFacts | src/predict_agent/invariants.py:269-318 | of a ticket's fills: from its recorded book, adding up at its rate, as old and as dear as its policy allows |
| AuditFacts.DecisionFacts | src/predict_agent/invariants.py:321-352 | of a decision and an artifact |
| Accounting.Regroup | src/predict_agent/invariants.py:84-266 | a balance is its unticketed part plus the flows of its tickets |
| Accounting.CleanAuditBalances | src/predict_agent/invariants.py:84-266 | a clean audit alone implies cash plus open cost is the bankroll plus the net results of settled tickets |
| Reachability.BaselineAttachedInv | src/predict_agent/forecasts.py:323-370 | attaching a baseline keeps the audit clean |
| Reachability.MarkedNoTimelyInv | src/predict_agent/forecasts.py:373-406 | closing a forecast without a baseline keeps the audit clean |
| Reachability.ForecastRecordedInv | src/predict_agent/forecasts.py:217-302 | recording a forecast keeps the audit clean |
| TradeSteps.TradeFillsMatch | src/predict_agent/invariants.py:269-318 | a sound trade on a book with distinct prices passes the auditor's fill check: depth, per-level fee, totals, slippage and age |
| TradeSteps.TradeAccepted | src/predict_agent/tickets.py:97-185 | every trade the policy returns on a reachable ledger is accepted by the ledger |
| TradeSteps.DecidesIff | src/predict_agent/paper.py:183-237 | on a reachable ledger deciding raises exactly when the portfolio is undecided in an active cohort and its policy artifact cannot be read; otherwise it leaves a decision |
| TradeSteps.DecidedInv | src/predict_agent/paper.py:183-237 | a decision transaction keeps the audit clean |
| SettleSteps.SettlesExactly | src/predict_agent/settlement.py:141-213 | settling never raises on a reachable ledger and settles exactly the resolved open tickets |
| SettleSteps.SettleInv | src/predict_agent/settlement.py:141-213 | a settlement transaction keeps the audit clean |
| CohortSteps.CohortEnsuredInv | src/predict_agent/cohorts.py:106-185 | opening a cohort keeps the audit clean |
| CohortSteps.EnsuredIsActive | src/predict_agent/cohorts.py:106-185 | an ensured cohort is the one active cohort, at its bankroll, with every declared portfolio funded once |
| Ledger.StepInv | src/predict_agent/db.py:208-216 | every transaction, committed or rolled back, keeps the ledger audit-clean |
| Ledger.EveryRunAuditsClean | src/predict_agent/invariants.py:378-415 | after any run of transactions in any order, over books with distinct prices, the auditor reports nothing and every portfolio balances |
| NoRuin.TradeLeavesCaps | src/predict_agent/policy.py:105-121 | after a trade the market, event, category and total exposure are each within their cap of equity |
| NoRuin.EveryOpeningWithinCaps | src/predict_agent/policy.py:105-121 | the same of every opening in every run, for the portfolio's frozen policy |
| NoRuin.NeverRuined | src/predict_agent/policy.py:105-121 | after any run a portfolio whose policy caps total open cost below its equity has cash left |
| Extremes.LastCentSpent | src/predict_agent/policy.py:105-121 | a run after which a portfolio whose caps are all one has no cash left |
| Budget.FallbackCap | src/predict_agent/budget.py:51-62 | the highest cap known |
| Budget.ReadDayUsage | src/predict_agent/budget.py:65-83 | the day's charged spend and entry attempts |
| Budget.ChargedMeans | src/predict_agent/budget.py:38-83 | an attempt is charged its cost once closed, and until then its cohort's positive cap or the fallback |
| Budget.RecoverInterruptedAttempts | src/predict_agent/budget.py:98-117 | every STARTED attempt closed at its own cohort's cap |
| Budget.RecoveryKeepsUsage | src/predict_agent/budget.py:98-117 | recovery changes no day's spend or entry count and leaves nothing STARTED |
| Budget.FinishingRaisesNothingIff | src/predict_agent/budget.py:65-83 | finishing an attempt raises no day's spend exactly when it costs no more than its cap |
| Spending.RefusalMeans | src/predict_agent/budget.py:86-95 | when a session may not start, and why |
| Spending.SessionWithinBudget | src/predict_agent/budget.py:86-95 | a session that passed the check keeps every day within the budget its latest session started under plus that session's overshoot of its own cap, even across midnight and whatever the other cohorts' caps |
| Spending.SessionWithinVolume | src/predict_agent/budget.py:86-95 | likewise of the entry limit |
| Spending.NeverOverspent | src/predict_agent/research_run.py:597-706 | over any run of sessions, crashes, recoveries and cohorts, with caps and limits that change from session to session, every UTC day's charged spend stays within the budget its latest session started under plus what that one session reported above its cap, and its entries within the limit its latest entry started under |
| Spending.NeverAbove | src/predict_agent/research_run.py:597-706 | a limit that no session's budget and overshoot exceed is never exceeded |
| Spending.FallbackMattersIff | src/predict_agent/budget.py:51-83 | a day's spend depends on the running cap exactly when a STARTED attempt of that day belongs to a cohort without a readable one |
| Spending.OpeningCharges | src/predict_agent/budget.py:51-83 | then opening a dearer cohort raises that day's spend by the difference for each such attempt |
| Spending.UnreadableCapOverspends | src/predict_agent/budget.py:51-83 | a run that overspends its day in this way |
| ResearchRun.FailureStreak.Failed | src/predict_agent/research_run.py:543-562 | counts one failure and says whether the run must stop: at once for TOOLSET_MISMATCH, HOOK_ERROR and CLEANUP_TIMEOUT, at the second SDK_ERROR or TIMEOUT in a row, at the third failure in a row |
| ResearchRun.FailureStreak.Succeeded | src/predict_agent/research_run.py:543-562 | a success ends both streaks |
| ResearchRun.CodesAsRecorded | src/predict_agent/research_run.py:74-84 | the text each failure code is recorded as |
| ResearchRun.ResearchMarket | src/predict_agent/research_run.py:380-475 | one attempt opened and closed with what the session cost |
| ResearchRun.RunUpdates | src/predict_agent/research_run.py:581-631 | the update loop, with everything left refused after an abort |
| ResearchRun.RunEntries | src/predict_agent/research_run.py:682-725 | the entry loop, with its sticky budget refusal |
| ResearchRun.RunLoops | src/predict_agent/research_run.py:669-725 | updates, then entries, with one streak |
| ResearchRun.RunResearchDay | src/predict_agent/research_run.py:644-731 | the cohort ensured or its error, interrupted attempts recovered, then the loops, or neither loop when discovery is stale |
| ResearchRun.DayIsDisciplined | src/predict_agent/research_run.py:543-731 | exactly which disposition each queued market gets: aborted with a code if and only if an earlier session stopped the run with it (systemic failure, second SDK error or timeout in a row, third failure in a row, book outage); otherwise no longer eligible, skipped (by the day's check, sticky for entries), failed or recorded |
| ResearchRun.AbortedIff | src/predict_agent/research_run.py:70-84 | over every log, naming the codes: a market is aborted with a code exactly when an earlier one stopped the day with it |
| ResearchRun.SystemicStopsTheDay | src/predict_agent/research_run.py:76 | after a TOOLSET_MISMATCH, HOOK_ERROR or CLEANUP_TIMEOUT every later market is aborted with that code |
| ResearchRun.LoneFailureStopsNothing | src/predict_agent/research_run.py:543-562 | a lone failure with any other code stops nothing |
| ResearchRun.StreaksBounded | src/predict_agent/research_run.py:543-562 | at every moment of the day at most two SDK errors or timeouts and at most three failures stand in a row, over both loops, and once either is reached the run has stopped |
| ResearchRun.OneLog | src/predict_agent/research_run.py:543-731 | that rule admits one log only |
| ResearchRun.DayWithinBudget | src/predict_agent/research_run.py:644-731 | a research day whose sessions read the clock in order is such a spending run, so over any number of days no UTC day is charged or entered beyond those limits |
| Resume.DecideForecast | src/predict_agent/paper.py:240-263 | no portfolio is left undecided on the forecast, unless an unreadable policy raised |
| Resume.TradeReady | src/predict_agent/paper.py:240-263 | the trade sweep leaves no forecast with a timely baseline undecided, unless an unreadable policy cut it short |
| Resume.CloseWindow | src/predict_agent/research_run.py:523-541 | an expired forecast gets a baseline exactly when some stored pair is timely, and NO_TIMELY_BASELINE otherwise |
| Resume.ResumeForecasts | src/predict_agent/research_run.py:505-540 | every forecast whose window had closed has a baseline row afterwards, and none was closed without one while a pair is attachable, even of the books stored when the sweep ends |
| Convergence.RunDecided | src/predict_agent/forecasts.py:373-406 | in every reachable ledger forecasts closed without a baseline are decided in every portfolio |
| Convergence.ResumeThenTrade | src/predict_agent/research_run.py:505-540 | once all windows have closed one resume and one trade sweep leave nothing unfinished and one decision per portfolio per entry forecast; with readable policies neither is cut short |
| Journal.Log.Append | src/predict_agent/db.py:225-238 | one chained entry |
| Journal.Verify | src/predict_agent/db.py:241-255 | accepts exactly the intact chains, with their length |
| Journal.AppendedVerifies | src/predict_agent/db.py:219-255 | every sequence built by appending verifies and keeps its contents |
| Journal.VerifiesIffAppended | src/japan_agent/storage.py:608-630 | a chain verifies exactly when appending its own contents builds it |
| Journal.SameHeadSameChain | src/japan_agent/storage.py:608-630 | two accepted chains with the same head are the same sequence |
| Time.SameWeek | src/japan_agent/risk/engine.py:99-102 | an instant is in the week its Monday starts and in no other |
| Time.KnownMonday | src/japan_agent/risk/engine.py:99-102 | one known Monday, and the length of a week |
| RiskEngine.CentsNearest | src/japan_agent/risk/engine.py:125-145 | rounding to cents moves by at most half a cent, ties to even |
| RiskEngine.OrderNeverOvershoots | src/japan_agent/risk/engine.py:125-141 | the order is the largest quantity of ten-thousandths that does not overshoot the target |
| RiskEngine.TargetIsWeight | src/japan_agent/risk/engine.py:125-145 | the target is the weight of the NAV and the value the quantity at the price, both to half a cent; the quantity is in whole ten-thousandths |
| RiskEngine.PositionIsFirst | src/japan_agent/models.py:120-124 | the first position of that ticker, or none |
| RiskEngine.NavAdds | src/japan_agent/models.py:114-118 | the NAV is the cash and what each position is worth |
| RiskEngine.ValidateExecution | src/japan_agent/risk/engine.py:201-263 | grows exactly the violations of the fresh portfolio |
| RiskEngine.ExecutableIff | src/japan_agent/risk/engine.py:201-263 | no violation exactly when the instrument is allowed, fewer than three trades were submitted this week and every limit holds |
| RiskEngine.LimitsMean | src/japan_agent/risk/engine.py:201-263 | the limits in numbers: two fifths of NAV or the instrument's fraction, its pounds or 15 outside the core, 5 pounds of cash, no short sale |
| RiskEngine.ViolationsMean | src/japan_agent/risk/engine.py:201-263 | an execution is told of exactly the limits it breaks, by name |
| RiskEngine.Build | src/japan_agent/risk/engine.py:54-199 | the ticket, or every violation found |
| RiskEngine.BuildsIff | src/japan_agent/risk/engine.py:54-180 | exactly when a ticket is built, with those numbers |
| RiskEngine.RefusedFor | src/japan_agent/risk/engine.py:54-180 | a refused decision is told of exactly the early checks it fails, or the NAV, or exactly the order's checks it fails |
| RiskEngine.BuiltTicketSays | src/japan_agent/risk/engine.py:182-199 | sign, price, deviation, expiry and size of a built ticket |
| RiskEngine.FreshTicketRevalidates | src/japan_agent/risk/engine.py:54-263 | a built ticket is well formed and passes the execution check at once |
| Storage.Database.CreateProposal | src/japan_agent/storage.py:364-380 | a pending proposal with its ticket's fingerprint |
| Storage.Database.DecideProposal | src/japan_agent/storage.py:398-442 | a pending proposal of exactly that hash decided, or retired when expired |
| Storage.Database.MarkExpired | src/japan_agent/storage.py:444-453 | only pending and approved proposals are retired |
| Storage.Database.ClaimExecution | src/japan_agent/storage.py:485-503 | new exactly when the proposal had no execution |
| Storage.Database.UpdateExecution | src/japan_agent/storage.py:522-560 | the execution and its proposal's status together |
| Storage.UpdateLeaves | src/japan_agent/storage.py:522-560 | what an update replaces, what it keeps, and in which states it sets the submission time |
| Storage.Database.SubmittedTradeTimes | src/japan_agent/storage.py:474-483 | the recorded submission times since an instant |
| Storage.SubmittedTimesAre | src/japan_agent/storage.py:474-483 | a time is among them exactly when some execution has it and it is not before the instant |
| Storage.Database.AppendEvent | src/japan_agent/storage.py:562-606 | one chained event |
| Execution.SendsIff | src/japan_agent/execute/service.py:101-182 | an order is sent exactly when the ticket is intact, approved, unexpired and unclaimed, the quote is for its ticker, at most 20 minutes old and within the deviation of the reference price, the portfolio is the broker's and at most 2 minutes old, and the limits hold |
| Execution.SendsTheTicket | src/japan_agent/execute/service.py:163-182 | what is sent and what the claim requests is the stored ticket |
| Execution.SecondExecute | src/japan_agent/execute/service.py:110-176 | a second execute sends nothing and answers only with a stored response |
| Execution.LostClaimAnswers | src/japan_agent/execute/service.py:170-176 | a claim lost to an earlier execute answers with a submitted or filled order's response and otherwise asks for a human |
| Execution.ExecutionService.Execute | src/japan_agent/execute/service.py:101-245 | what one uninterrupted execute reads, claims, sends, records and returns |
| Execution.ExecutionService.RecordAnswer | src/japan_agent/execute/service.py:178-245 | the rows and event that follow each broker answer |
| Execution.AnswerLeaves | src/japan_agent/execute/service.py:178-245 | which states, event and outcome each answer leaves, and exactly which answer confirms the order |
| Execution.ExecutionService.MarkUnknown | src/japan_agent/execute/service.py:302-326 | an uncertain order waits for reconciliation |
| Execution.ExecutionService.Reconcile | src/japan_agent/execute/service.py:247-300 | the broker's report of a known order, recorded whatever the previous state; a missing order and any other broker error raise |
| Execution.ReportLeaves | src/japan_agent/execute/service.py:272-300 | which broker report leaves which state, status and event |
| ProtocolSafety.StepSafe | src/japan_agent/execute/service.py:101-326 | every step of every process, and a crash after it, keeps the protocol's invariant |
| ProtocolSafety.AtMostOnePost | src/japan_agent/execute/service.py:101-245 | over all interleavings at most one order is sent per proposal: the ticket whose exact hash was approved before its expiry, for a call that read the clock before it too |
| Races.InTimeIff | src/japan_agent/execute/service.py:130-182 | when each order leaves within some delay of its call's reading, all calls that left their tickets a given time to live send before the expiry exactly when that time is longer than the delay |
| Races.LateSend | src/japan_agent/execute/service.py:130-182 | for every life no longer than the delay, a run from the start whose one order leaves within the delay and at or after its ticket's expiry |
| ProtocolSafety.StatusesCoupled | src/japan_agent/storage.py:398-560 | in every reachable state each execution state goes with its own proposal statuses, by name, and a proposal that touched the broker has an execution |
| Submissions.NeverCleared | src/japan_agent/storage.py:522-560 | a submission time once set is never cleared |
| Submissions.OverlapMovesBack | src/japan_agent/execute/service.py:247-300 | from any world that knows an order, two overlapping reconciles move its submission time back although the clock does not |
| Submissions.ExecuteOvertakes | src/japan_agent/cli.py:275-287 | from any world in which a reconcile has read the clock and an execute of the same proposal, which read it later, is about to send, the execute records and the reconcile then moves its time back |
| Races.ExecuteOvertakesReconcile | src/japan_agent/cli.py:275-287 | such a run from the start, with readings in order and one reconcile |
| Overlaps.MovesBackIff | src/japan_agent/storage.py:522-560 | under a clock that never runs back, over all interleavings, a step moves a submission time back exactly when it ends a reconcile that read the clock before, and earlier than, the execute or reconcile of that proposal whose reading is recorded |
| Overlaps.NeverBack | src/japan_agent/storage.py:522-560 | no time moves back in any run in which neither an execute nor a reconcile of a proposal is called while another process reconciles it |
| SerialRuns.SerialNeverBack | src/japan_agent/storage.py:522-560 | nor in any serial run, with crashes, while the clock moves on between steps |
| Submissions.NewestKept | src/japan_agent/storage.py:533-543 | of two recorded submissions the newest write is kept |
| SerialRuns.ExecuteIsItsSteps | src/japan_agent/execute/service.py:101-245 | an uninterrupted execute leaves the rows and sends the order of the protocol's steps whatever time passes between them, and the order leaves at the fourth |
| SerialRuns.ReconcileIsItsSteps | src/japan_agent/execute/service.py:247-300 | likewise for reconcile, whatever the broker answers |
| WeeklyLimit.RiskLeavesRoom | src/japan_agent/risk/engine.py:227-234 | the fetch of the last seven days covers the week, so passing the check leaves room for one order of a call that reads the clock this week |
| WeeklyLimit.WeeklyLimitWithCrashes | src/japan_agent/risk/engine.py:227-234 | in serial runs with crashes, the clock moving on between steps, the unrejected orders sent in a week are at most three, plus those lost between sending and recording, plus those of calls that read the clock before its Monday, of which there is at most one |
| SerialRuns.AtMostThreeAWeek | src/japan_agent/risk/engine.py:227-234 | in serial runs of completed executions the unrejected orders sent in a week are at most three and the at most one that straddled its Monday |
| WeekBoundary.FourInAWeek | src/japan_agent/execute/service.py:151-182 | however long before a Monday a call reads the clock, a serial run of completed executions in which it and three calls of the Monday all send in that week |
| WeekBoundary.ThreeWhereNoneStraddles | src/japan_agent/risk/engine.py:227-234 | where every call leaves more time before the next Monday than its order takes to go out, at most three orders are sent in any week |
| WeekBoundary.AtMostThreeIff | src/japan_agent/risk/engine.py:227-234 | over all such runs in which calls leave a given margin before the next Monday and orders go out within a given delay, at most three a week are always sent exactly when the delay is shorter than the margin |
| SerialRuns.CrashedOrderIsNotCounted | src/japan_agent/execute/service.py:170-200 | an execution that crashes after sending leaves the weekly count as it was |
| Races.AllSend | src/japan_agent/execute/service.py:151-182 | executions of different proposals that all passed the risk check before any claims all send |
| Races.ConcurrentOrders | src/japan_agent/risk/engine.py:227-234 | so for every number there is a run from the start that sends that many orders, each for its own instrument, in one week |

## Left out

- Decimal precision: arithmetic is exact, so the 28-digit rounding of the division at `src/predict_agent/fills.py:100` is not modelled.
- Journal rows of ledger transactions: each transaction also appends a journal entry; the chain is modelled by itself.
- JSON, SQLite, timestamps as text and SHA-256: rows are typed records, unique keys are map keys, instants are integers.
- HTTP clients, Telegram, the Trading 212 transport, market data and the research session itself: their answers are parameters.
- Gamma and CLOB parsing, market eligibility, resolution cross-checking and exposure scanning: single-record lookups whose results are inputs.
- Citation checks, duplicate-proposal lookup and proposal workflow: their results are inputs of `Build`.
- The environment gate before an execution: its verdict is the `allowed` field of a call.
- The texts of problems, refusals and errors, event payloads and random event ids.
- `resolved_since`, reports, scoring, performance and pending ages: counts and averages over rows.
- ResearchRun.ResearchMarket: keeps the attempt and its cost; the forecast row, artifacts and baseline the same call writes are modelled as separate transactions in `Forecasts` and `Resume`.
- ResearchRun.RunEntries: the queues are given; how `candidates` and `due_updates` select and order markets is not part of this model.
- ResearchRun.RunResearchDay: the resume and trade sweeps between recovery and the loops, and after them, are `Resume.ResumeForecasts` and `Resume.TradeReady`.
- Ledger.EveryRunAuditsClean: asks every stored book for distinct ask prices; `Extremes.RepeatedPriceFailsAudit` shows why.
- Resume.ResumeForecasts: likewise takes fetched books to have distinct ask prices.
- Cohorts.EnsureCohort: the code version column, which nothing reads back.
- Forecasts.RecordForecast: the JSON body's fields and the form of digests are types, and a forecast with some but not all probabilities, which is refused, has no value.
- Invariants.VerifyLedger: reports of rows that cannot be read back, because rows are typed.
- Schema migrations, file locks, command-line plumbing and configuration loading.
