# Matched-betting tracker: staking calculator and bet ledger

This project is a Dafny model of the two pure parts of the matched-betting tracker, a single React component in `src/App.jsx`:

- **The staking calculator** (`calculateMatchedBet`). It takes a bet type, a back stake, back odds, lay odds and an exchange commission in percent. It returns the lay stake, the liability, the profit if the back bet wins, the profit if the lay bet wins, and their average. Each figure is rounded to the cent. It also returns an `isGoodBet` flag, which is judged on the unrounded average.
- **The bet ledger.** It holds a cash balance, the list of bets in the order they were opened, and the list of event reminders. Three transitions change it:
  - `addBet` opens a bet. It freezes the calculator's quote into a pending record, may schedule a reminder, and debits a qualifying stake.
  - `updateBetResult` settles every bet with a given id and credits the balance.
  - `deleteBet` removes a bet. It refunds a pending qualifying stake and drops reminders by substring match on the event name.

  Three derived views are also modelled: `totalProfit`, `pendingBets` and `upcomingReminders`.

Files:

- `options.dfy` defines `Option`, which stands for JavaScript's `null` and for "not found".
- `cents.dfy` defines `Math.round(x * 100) / 100` over `real`, with `Math.round(y) = floor(y + 1/2)`.
- `calculator.dfy` holds the bet types, the three formula sets, the fallback branch and the quote.
- `staking_facts.dfy` holds the lemmas about the calculator.
- `text.dfy` defines `String.prototype.trim` (over ECMAScript's white-space and line-terminator characters) and `String.prototype.includes`.
- `ledger.dfy` holds the records, the state and the three transitions as pure `State -> State` functions, plus the derived views.
- `bookkeeping.dfy` holds the invariants the transitions keep and the round-trip lemmas.

Arithmetic is exact (`real`). In the source, a formula that divides by a zero denominator gives non-finite numbers. The model shows this as `Calculate(...) == None`. This case can happen in the app: the odds fields fall back to `0` when cleared, so lay odds 0 with commission 0 divide by zero. Ids, the current time, event times and the reminder id are integer milliseconds that the caller supplies.

Behaviours of `src/App.jsx` worth knowing:

- The bet-type strings are `'qualifying'`, `'snr'` and `'sr'`; any other string takes the all-zero fallback.
- Deleting drops every reminder whose name contains the deleted bet's name (src/App.jsx:256), so an unknown id drops them all.
- Settling a completed bet credits the balance again (`SettleTwiceCreditsTwice`).
- The form defaults quote a lay stake of 9.62 (`QualifyingExample`).

A proved identity shows what the lay-stake denominator `layOdds - (layOdds - 1) * c` does. For all three bet types, the unrounded back-win profit minus the unrounded lay-win profit equals `layStake * c * (2 - layOdds)`. So the two unrounded outcomes are equal exactly when there is no commission, the lay odds are 2, or the lay stake is 0. The cent-rounded figures the calculator returns can coincide outside these cases: 1 at 2.0, lay 2.1, 2% quotes -0.06 for both (`RoundingCanEqualiseOutcomes`).

## Model

| member | source | states |
|---|---|---|
| Cents.RoundCents | src/App.jsx:144-148 | the rounded figure is a whole number of cents lying in (x - 1/200, x + 1/200] |
| Cents.RoundCentsUnique | src/App.jsx:144-148 | any whole number of cents in that window is the rounded value, so the window defines the rounding |
| Cents.RoundCentsIdempotent | src/App.jsx:228 | rounding a cent-exact value is the identity, and rounding twice equals rounding once |
| Cents.RoundCentsMonotone | src/App.jsx:144-148 | rounding to the cent preserves order |
| Cents.RoundCentsNonNegative | src/App.jsx:144-145 | a non-negative amount rounds to a non-negative amount |
| Calculator.QualifyingFigures | src/App.jsx:111-117 | for a qualifying bet, the lay stake solves layStake * denominator = backOdds * backStake |
| Calculator.SnrFigures | src/App.jsx:119-125 | for a stake-not-returned free bet, the lay stake solves layStake * denominator = (backOdds - 1) * backStake |
| Calculator.SrFigures | src/App.jsx:127-133 | for a stake-returned free bet, the lay stake solves layStake * denominator = backOdds * backStake |
| Calculator.Formulas | src/App.jsx:110-133 | for every bet type with a formula, the lay stake solves layStake * denominator = exposure (back return for qualifying and stake-returned bets, back winnings for stake-not-returned), and the liability and total have the shared shape |
| Calculator.RawFigures | src/App.jsx:106-141 | figures are missing exactly when a formula branch divides by zero; liability = layStake * (layOdds - 1); the total is the mean of the two profits; an unrecognised type gives all zeros |
| Calculator.Calculate | src/App.jsx:106-151 | all five outputs are whole cents within 1/200 of the unrounded figures; the flag is judged on the unrounded total; the result is missing exactly when the figures are |
| StakingFacts.ValidInputsGiveNonNegativeStakes | src/App.jsx:107-133 | with lay odds > 1, commission in [0, 100), stake >= 0 and back odds >= 1, the denominator is positive and the lay stake and liability are non-negative, rounded or not |
| StakingFacts.RawOutcomes | src/App.jsx:111-133 | for every bet type with a formula, backProfit is the back return (winnings, plus the stake for a stake-returned bet) less the liability, and layProfit is the lay stake net of commission less the back stake for a qualifying bet |
| StakingFacts.HedgeGap | src/App.jsx:111-133 | for every bet type with a formula, the unrounded backProfit - layProfit = layStake * c * (2 - layOdds) |
| StakingFacts.QualifyingGap | src/App.jsx:111-117 | the hedge-gap identity for the qualifying formulas |
| StakingFacts.SnrGap | src/App.jsx:119-125 | the hedge-gap identity for the stake-not-returned formulas |
| StakingFacts.SrGap | src/App.jsx:127-133 | the hedge-gap identity for the stake-returned formulas |
| StakingFacts.OutcomesEqualIff | src/App.jsx:111-133 | the two unrounded outcomes are equal if and only if the commission is 0, the lay odds are 2, or the lay stake is 0 |
| StakingFacts.RoundingCanEqualiseOutcomes | src/App.jsx:111-148 | a stake of 1 at 2.0, lay 2.1, 2% quotes 0.96 / 1.06 / -0.06 / -0.06 / -0.06, good: the rounded outcomes coincide while the unrounded ones differ |
| StakingFacts.ZeroCommissionHedge | src/App.jsx:111-133 | with no commission, back-win profit, lay-win profit and the total all coincide |
| StakingFacts.QualityFlag | src/App.jsx:149 | isGoodBet holds iff the unrounded total is in (-1, 1) for a qualifying bet, and iff it is positive for any other type |
| StakingFacts.UnrecognisedTypeQuotesZero | src/App.jsx:135-149 | an unrecognised bet type quotes all-zero figures with isGoodBet false |
| StakingFacts.QualifyingExample | src/App.jsx:106-151 | the form defaults (10 at 2.0, lay 2.1, 2%) quote 9.62 / 10.59 / -0.59 / -0.57 / -0.58, good |
| StakingFacts.SnrExample | src/App.jsx:119-125 | a stake-not-returned free bet of 20 at 3.0, lay 3.2, 5% quotes 12.94 / 28.48 / 11.52 / 12.30 / 11.91, good |
| Text.Trim | src/App.jsx:156 | trimming keeps the slice starting at the first non-space character; everything cut is white space; a non-empty result has no white space at either end |
| Text.BlankIffAllSpace | src/App.jsx:156 | a name is blank after trimming iff every character is white space |
| Text.ContainsIffOccursAt | src/App.jsx:256 | `includes` holds iff the pattern occurs at some position |
| Text.ContainsEmptyAndSelf | src/App.jsx:256 | every name contains the empty string and itself |
| Ledger.AddBet | src/App.jsx:155-205 | a blank name changes nothing; otherwise exactly one pending record is appended after the unchanged old ones, carrying the inputs, bookmaker, exchange, event time and the frozen quote; the balance drops by the stake iff the bet is qualifying; a reminder is appended iff an event time is set, the lead is positive and the reminder time is after now, and that reminder fires the lead's minutes before the event |
| Ledger.EnabledAddKeepsBalanceNonNegative | src/App.jsx:522 | through the enabled add button, opening a bet never takes a non-negative balance below zero |
| Ledger.SettleMatching | src/App.jsx:208-233 | the list keeps its length and ids; bets with another id are untouched and every bet with the id is settled |
| Ledger.CreditFor | src/App.jsx:209-223 | an unknown id credits nothing; when exactly one bet carries the id, the credit is that bet's stake-plus-profit or profit |
| Ledger.UpdateBetResult | src/App.jsx:207-235 | matching bets become completed with the chosen profit rounded and the winning side recorded; nothing else in them or elsewhere changes; an unknown id changes nothing; when exactly one bet carries the id, the balance rises by stake plus profit for a qualifying bet and by the profit alone otherwise |
| Ledger.AutoFetchResult | src/App.jsx:237-246 | an unknown bet or an empty fetch changes nothing; a fetched answer settles the bet with it |
| Ledger.FirstIndex | src/App.jsx:249 | finds the first bet with the id, and finds nothing iff no bet has it |
| Ledger.RemoveId | src/App.jsx:253 | the filter never lengthens the list and leaves it unchanged for an unknown id |
| Ledger.RemoveIdKeepsOthers | src/App.jsx:253 | the filtered list holds exactly the bets with another id |
| Ledger.RemoveIdAppend | src/App.jsx:253 | filtering out an id distributes over concatenation |
| Ledger.RemoveIdCutsOut | src/App.jsx:253 | when exactly one bet carries the id, the filter cuts out exactly that position and keeps the rest in order |
| Ledger.DropReminders | src/App.jsx:256 | keeps exactly the reminders whose name does not contain the pattern; the empty pattern keeps none; when no name contains it, the list is returned unchanged |
| Ledger.DropRemindersAppend | src/App.jsx:256 | the filter distributes over concatenation, so the survivors keep their order and multiplicity |
| Ledger.DeleteBet | src/App.jsx:248-257 | removes every bet with the id, keeping the others in order (the `RemoveId` filter), and when exactly one bet carries it, cuts out that position keeping the rest in order; refunds the stake iff the found bet is pending and qualifying; keeps exactly the reminders not containing its name, in order (the `DropReminders` filter); an unknown id leaves balance and bets alone but drops all reminders |
| Ledger.PendingBets | src/App.jsx:263 | the view holds exactly the ledger's pending bets, and is the whole ledger when every bet is pending |
| Ledger.UpcomingReminders | src/App.jsx:264 | the view holds exactly the unsent reminders whose time is after now, and is the whole list when all are |
| Ledger.UpcomingAppend | src/App.jsx:264 | the view distributes over concatenation, so it keeps the reminders' order |
| Bookkeeping.TotalProfitSplits | src/App.jsx:259-261 | `TotalProfit`, the `reduce` over each bet's `actualResult` with null counted as 0, is additive: two concatenated ledgers total the sum of their totals |
| Bookkeeping.UnsettledRealiseNothing | src/App.jsx:259-261 | a ledger with no settled result totals 0 (null counts as 0) |
| Bookkeeping.AddBetKeepsInvariants | src/App.jsx:155-200 | opening a bet with a fresh id keeps records consistent, ids unique and balance conservation; it leaves totalProfit unchanged; a quote from the calculator keeps frozen profits cent-exact |
| Bookkeeping.AddBetExtendsPending | src/App.jsx:179 | after opening, the pending view is the old one plus the new record |
| Bookkeeping.SettleStoresFrozenProfit | src/App.jsx:225-229 | with cent-exact frozen profits, the stored actualResult equals the chosen expected profit |
| Bookkeeping.SettlePendingKeepsInvariants | src/App.jsx:207-233 | settling a pending bet keeps every invariant including balance conservation, and totalProfit rises by the chosen profit |
| Bookkeeping.SettleShrinksPending | src/App.jsx:207-233 | after settling, the pending view has lost exactly the bets with the id |
| Bookkeeping.SettleTwiceCreditsTwice | src/App.jsx:207-233 | with no status check, settling the same bet twice credits the balance once per call |
| Bookkeeping.DeleteKeepsInvariants | src/App.jsx:248-257 | deleting keeps records consistent and ids unique; a pending bet's deletion keeps the books; a completed bet's deletion leaves the balance alone |
| Bookkeeping.OpenThenDeleteRestores | src/App.jsx:155-257 | opening a bet and deleting it while pending restores the balance and the bet list, and removes the reminder it scheduled |
| Bookkeeping.OpenThenSettleCreditsProfit | src/App.jsx:155-235 | opening then settling changes the balance by exactly the chosen frozen profit, for qualifying and free bets alike |

## Left out

- Persistence in `localStorage` (src/App.jsx:6-19, 37-47) is browser I/O. The state is passed explicitly instead.
- Notification permission and the one-minute reminder-firing timer (src/App.jsx:49-83) are platform timers and APIs. No transition sets a reminder's `sent` flag.
- The network request in `fetchMatchResult` (src/App.jsx:86-103) is left out. `AutoFetchResult` takes the fetch's answer as `Option<bool>`; `None` stands for a failed or empty fetch.
- Ledger.AutoFetchResult: the answer's `homeWin` is taken as a boolean. The source passes any value and tests its truthiness, so a missing `homeWin` settles as a lay win with `backWon` stored as `undefined`; the model does not represent this.
- `Date.now()` ids, `Date` parsing and ISO formatting (src/App.jsx:159, 176, 183-190) are clock and formatting calls. Ids and times are integer parameters. The `dateCreated` field is not modelled. An unparsable event time is modelled as absent.
- React's updater semantics are not modelled. This includes `setBalance` called inside the `setBets` updater (src/App.jsx:217) and stale closures. Each operation is one atomic transition.
- IEEE-754 double rounding is not modelled; the arithmetic is exact over `real`.
- Ledger.AddBet: the quote is a parameter. When the calculator's denominator is zero, the source stores non-finite numbers in the record; a `real` cannot represent them, so no `Quote` corresponds to that record.
- Ledger.UpdateBetResult: the balance credit is stated only when exactly one bet carries the id. With duplicate ids the source credits once per matching bet; the model computes that sum but does not state it in the contract.
- Ledger.CreditFor: the credit is stated only for an unknown id or when exactly one bet carries the id, for the same reason.
- Ledger.RemoveId: its own contract states only length and the unknown-id case. Membership for any ledger is stated by `RemoveIdKeepsOthers`, and the exact sequence, when exactly one bet carries the id, by `RemoveIdCutsOut`.
- Rendering, labels and colours (src/App.jsx:266-667) are left out, as are the form resets after add and settle (src/App.jsx:203-204, 234). They are UI.
