# Verified model of the riskguard pre-trade gate

The gate decides, before an order tool runs, whether a user's order may be placed. It walks an
ordered chain of checks, keeps per-user counters and sliding windows up to date as it goes, freezes
users who keep hitting limits, and records the orders that were placed. This project models the gate
as one state machine and proves what it is for: what a walk decides, what the counters mean, how far
concurrent requests can overshoot a limit, what a freeze stops, and that users never influence each
other.

## How it is built

- *The gate itself.* `Guard.dfy` holds the class with the fields the program updates and one method
  per operation, each proved equal to a function of `GuardModel.dfy`. `Dedup.dfy`, `PerSecond.dfy`
  and `Subprocess.dfy` hold the other three stateful classes; `Format.dfy` the buffer-filling number
  formatter. `Calendar.dfy`, `Orders.dfy`, `Limits.dfy`, `Chain.dfy`, `Trackers.dfy` and
  `KillSwitch.dfy` hold the values and rules they work with.
- *The simple form.* `Windows.dfy` and `History.dfy` define the full log of everything a user did and
  what each limit asks of it; the gate's lazily reset counters and pruned windows are proved to be a
  fast form of that log.
- *Sequential runs.* `Laws.dfy`, `Tracking.dfy`, `Runs.dfy`, `AutoFreeze.dfy`, `Holds.dfy` and
  `Spellings.dfy` reason about any sequence of operations, one caller after another.
- *Interleaved runs.* `Protocol.dfy` is the concurrent gate: any number of requests advance by
  atomic steps, one lock section at a time, in any order, together with freezes, lifts, reports and
  sweeps. The second counter's clock reading is a step of its own. `Coupling.dfy` carries the meaning
  of the bookkeeping over every step, and `Decision.dfy` says what an allow means in terms of a
  user's history. `Terms.dfy` restates it in the numbers of the stored row, and `Reasons.dfy` says
  what a refusal tells. `Overshoot.dfy`, `Bounds.dfy` and `OneADay.dfy` prove the overshoot bounds;
  `SecondRate.dfy` bounds the orders of a calendar second. `Calls.dfy`, `Keys.dfy`, `Drain.dfy`,
  `HeldRuns.dfy`, `Breakers.dfy`, `Restart.dfy` and `Isolation.dfy` prove the other properties of
  interleaved runs.
- *Runs that reach the bounds.* `Uninterrupted.dfy` shows that a request whose steps nobody
  interrupts is one call of the sequential gate. `Batch.dfy` and `Halfway.dfy` build interleavings
  out of such requests, and `Attained.dfy`, `Credit.dfy` and `Rush.dfy` use them to reach the bounds
  and to say when a tighter one fails.

## Assumptions

- Clock readings never run backwards and each atomic step uses one instant. The program mixes the
  guard's clock with the system clock; in production they are the same source. Only the second
  counter is asked and bumped with a reading from before its lock was taken.
- Asia/Kolkata is a fixed +05:30 offset.
- Money is an exact amount with a currency tag: it is zero when the amount is, and adding or
  comparing across currencies fails. Prices that enter through the middleware are in rupees.
- A check is one atomic step. The limits it reads first are, apart from the freeze, never changed by
  a run, so reading them and taking the tracker lock may count as one instant.
- SHA-256 (section 6.2 of FIPS 180-4) is taken to be injective: keys are modelled by the hashed text.
- External checks (margin, circuit, exchange quantity, price band, anomaly, plugins, subprocesses)
  have no effect on the gate; each call answers, or panics, as its environment says.

## What the proofs found

- In every reachable state, however it was interleaved, an order is allowed exactly when the user's
  own full history and the limits at start-up permit it, nobody has frozen trading, and no external
  check objects (`Decision.DecisionIsHistory`). Of the second limit it is the history since the last
  increment of another second that counts. For a request with an idempotency key this supposes that
  no address in the run holds a NUL.
- A refusal tells the truth: its reason names a limit that the user's history does not meet, or is
  what an external check answered (`Reasons.RefusalsTellTheTruth`).
- Every recorded order, and every rejection that feeds the breaker, stems from a call that was
  confirmed, if the user's limits require it (`Calls`). For the breaker this needs the confirmation to
  be asked for second, as the built-in chain does; external checks registered in front of it may
  count first.
- A user is frozen exactly when the last of the user's freezes, breaker trips and lifts, under any
  spelling of the address, is not a lift (`Holds.HeldByTheLastOne`, `HeldRuns.HeldByTheLastStep`).
- A user with at most k requests in flight can exceed the daily count and the minute rate by k - 1
  orders, and by no more. With quantities that are not negative the daily value is exceeded by at most
  k - 1 orders of the per-order cap; without that condition the day's value stays under the daily
  limit, or one order of the cap if that is more, and k - 1 further orders of the cap
  (`Bounds.BoundedOvershoot`). For every k some run reaches these bounds (`Attained`, `Credit.CreditRun`).
- Value given back by a negative quantity admits orders whose credit the 09:15 reset then removes. For
  any user of any start, some run exceeds the bound that natural quantities obey exactly when the
  per-order cap is above the daily limit, counted as zero when it is negative, an order a minute is
  allowed, and either two orders a day are, or one is, the daily limit is negative and two requests
  may be in flight (`Credit.ValueBoundFailsIff`).
- The second counter forgets under interleaving: its count is the unbroken streak of increments of
  the second, and that is the second's whole history exactly when no increment with another second's
  reading came in between (`PerSecond.StreakIsHistoryIff`, and `PerSecond.LateReadingForgets` for one
  late reading). Still a second never counts more than 9k + k(k - 1)/2 orders
  (`SecondRate.SecondsAreBounded`), and for every k some run counts that many
  (`Rush.SecondsBoundIsReached`). For one request at a time this is nine orders counted in a second.
  Ten may be recorded in one, also under the default limits (`Rush.TenInASecond`), but only if one of
  them was counted on a reading of an earlier second (`SecondRate.TenOnlyIfCarriedOver`).
- An idempotency key is spent exactly when it was not taken and every check in front of the key check
  passed, also if a later check rejects the order; it is then taken for fifteen minutes
  (`Laws.KeyIsSpentIff`). The separator isolates users exactly when their addresses hold no NUL
  (`Dedup.IsolatedIff`).
- Kill-switch events replay the state for one caller at a time. With interleaved callers the last
  event is sure to be right exactly when no event of the opposite kind is pending
  (`KillSwitch.LastEventTellsIff`); `KillSwitch.LateTripEvent` ends with a trip although trading is
  open. Dispatching every event before the next lock section is enough
  (`KillSwitch.DisciplineKeepsEventsRight`). Freezing again changes the reason without an event
  (`KillSwitch.RefreezingIsNotAnnounced`).
- After `Close`, a call that passed the closed test earlier can launch the subprocess again, and that
  process stays (`Subprocess.CloseLeaksIff`); a late failure discards whatever process is cached, also
  a healthy replacement (`Subprocess.DiscardKillsTheCurrent`).
- A table with rows of one user under keys in different case lets the row that is read last decide a
  restart: a freeze written under the lower-case key survives exactly when that row is frozen too
  (`Laws.LastRowDecidesFreeze`).
- `itoa` renders the least 64-bit integer as a lone minus sign (`Format.ItoaIsFaithfulIff`).
- `allow_off_hours` has no column: a restart forgets it (`Laws.RestartAgrees`). Otherwise a restart in
  the middle of any interleaving changes nothing for a user whose own row decides, as long as writes
  succeed (`Restart.RestartAtAnyMoment`).

The code is followed where its comments say otherwise: of two checks registered under one name both
run, although guard.go:262 says the last one wins; a submission never sweeps neighbouring stale keys,
although dedup.go:75 says so; Close does not stop calls that began before it, although
subprocess_check.go:281-283 calls it terminal for every call; and the fixed order of the built-in
checks ends with market hours at 1300, which the list at guard.go:375-387 leaves out.

## Model

| member | source | states |
|---|---|---|
| Calendar.BoundaryIsLastOpening | trackers.go:133-140 | the reset boundary is the greatest 09:15 IST that is not after now, and nothing else is |
| Calendar.BoundaryMonotone | trackers.go:133-148 | boundaries never move back, lie less than a day behind, and two instants share one exactly when no opening lies between them |
| Calendar.SessionOrdersBelongToToday | market_hours.go:67-95 | an order that passes market hours without the after-market bypass belongs to the current date's 09:15 and never meets the off-hours block |
| Calendar.SessionInstants | market_hours.go:67-95 | the market-hours rule passes an order that is not after-market exactly on weekdays from the opening for six and a quarter hours |
| Calendar.WeekdaysGoRound | market_hours.go:76-77 | weekdays advance by one a day from a known Thursday, and change at midnight in India |
| Calendar.AWeekInApril | market_hours.go:76-90 | at 10:30 IST an order passes on Wednesday 22 April 2026 and not on the Saturday and Sunday after |
| Calendar.OpeningsInUtc | trackers.go:133-140 | the openings that reset the day are the instants of 03:45 UTC |
| Calendar.OffHoursInUtc | internal_checks.go:299-321 | the off-hours block holds exactly from 20:30 to 00:30 UTC |
| Calendar.AmoInAnyCase | market_hours.go:53-55 | a variety bypasses the session exactly when it is the three letters in any case between white space |
| Base.SpellingsOfOneAddress | guard.go:476 | two addresses are one user exactly when they differ in the case of ASCII letters at most |
| Windows.Prune | internal_checks.go:123-129 | the pruning loop drops exactly the longest prefix before the cutoff |
| Windows.PruneIsFilterIff | internal_checks.go:176-182 | prefix pruning equals filtering exactly when no stale stamp stands behind a fresh one |
| Windows.PruneAnswersForLog | lifecycle.go:192-198 | pruning what earlier prunings left of a time-sorted log answers like filtering the whole log, and leaves a suffix of it |
| Windows.SinceShrinks | internal_checks.go:123-129 | a later cutoff keeps fewer events, and pruning in two stages is pruning once |
| Orders.BuildRequest | middleware.go:59-86 | requests are in rupees and everything else, confirmation, variety, order type, tool, signature and key, is what the caller said; a price that is not zero is used, otherwise the trigger price is |
| Orders.OrderToolsAreThese | guard.go:36-44 | exactly the eight order tools go through the gate |
| Limits.FreezingKeepsPolicies | limits.go:170-207 | creating a record on demand, freezing or thawing it leaves every effective non-freeze limit of every user as it was |
| Limits.RowRoundTrip | limits.go:213-254 | a stored row is a faithful copy exactly for storable records, and any record in rupees reads back with the same limits and freeze up to the second and the off-hours switch |
| Limits.LoadedRowsAreStable | limits.go:302-340 | a record that was loaded, written back and loaded again is unchanged |
| PerSecond.PerSecondCounter.Count | per_second.go:72-81 | the reading method answers the specified count and changes nothing |
| PerSecond.PerSecondCounter.Increment | per_second.go:86-97 | only this user's bucket changes, to the specified next bucket |
| PerSecond.CountIsHistory | per_second.go:72-81 | with a clock that never runs backwards the one bucket gives the number of increments in the current calendar second out of the whole history |
| PerSecond.IncrementKeepsHistory | per_second.go:86-97 | an increment keeps the bucket in agreement with the extended history |
| PerSecond.LateReadingForgets | per_second.go:136-144 | after one late reading the count is still that of the history exactly when the current second was empty or the reading lies in it; otherwise the current second counts as empty |
| PerSecond.CountIsStreak | per_second.go:72-81 | whatever the clock readings of earlier increments, the count is the unbroken streak of increments of the second asked about |
| PerSecond.IncrementKeepsStreak | per_second.go:86-97 | an increment with any clock reading keeps the bucket the streak of the last increment |
| PerSecond.StreakIsHistoryIff | per_second.go:115-144 | the streak never exceeds the history of the second, and equals it exactly when no increment of another second came after one of it |
| Dedup.HashInputInjective | dedup.go:61-67 | for addresses without NUL the hashed text determines address and key |
| Dedup.IsolatedIff | dedup.go:61-67 | an address can share a hashed text with some other NUL-free address exactly when it holds a NUL itself |
| Dedup.Dedup.constructor | dedup.go:40-49 | a new map is empty, and a window that is not positive becomes the default one |
| Dedup.Dedup.SeenOrAdd | dedup.go:78-91 | answers whether a live entry exists and otherwise records the instant, leaving every other key alone |
| Dedup.Dedup.Cleanup | dedup.go:105-114 | whatever the order of visits, exactly the expired entries are gone |
| Dedup.EntriesAreLiveFirsts | dedup.go:78-114 | in every run the live entries of the map are exactly the first submissions within the window |
| Dedup.AtMostOncePerWindow | dedup.go:78-91 | the map answers like a scan of the full submission history, so two first submissions of a key are at least the window apart |
| Dedup.SweepingSimulates | dedup.go:105-114 | the swept and the never-swept map differ in expired entries only, throughout any run |
| Dedup.CleanupIsInvisible | dedup.go:105-114 | sweeps inserted anywhere change no answer |
| History.ResetRefines | trackers.go:133-148 | after the lazy reset the day counters are the totals of all orders since the latest 09:15 IST |
| History.RateRefines | internal_checks.go:117-129 | the pruned order window holds exactly the orders of the closed last minute of the full log |
| History.DuplicateRefines | internal_checks.go:167-196 | the pruned signature window holds exactly the signatures of the closed duplicate window, so a match exists exactly when the full log has one |
| History.RejectionsRefine | lifecycle.go:190-198 | the pruned rejection window holds exactly the counted rejections of the closed last five minutes |
| History.RejectionIsLogged | lifecycle.go:165-169 | recording a rejection extends the log that the tracker represents by that rejection |
| History.OrderIsLogged | guard.go:490-522 | recording an order, across any pending day reset, extends the log that the tracker represents by that order |
| Chain.StableSortUnique | guard.go:286-299 | two ascending chains that agree on every order value are the same chain |
| Chain.RegisteredIsTheStableSort | guard.go:269-299 | after any registrations the chain is the one that is ascending and keeps registration order among equal orders, and a permutation of the registrations |
| Chain.RegistrationKeepsChainWellFormed | check.go:220-239 | the sixteen built-ins run in their listed order and every built-in rule survives any further registrations |
| Chain.BuiltinPlaces | check.go:54-68 | each built-in rule stands at its published place |
| KillSwitch.EventsReplayTheSwitch | lifecycle.go:34-79 | trips and lifts strictly alternate, starting with a trip, and the last one tells whether trading is frozen |
| KillSwitch.RefreezingIsNotAnnounced | lifecycle.go:34-54 | after a second freeze the last trip event still names the freezer and reason exactly when they are repeated |
| KillSwitch.BalanceIsTheSwitch | lifecycle.go:34-79 | under every interleaving trips minus lifts, emitted or pending, is one exactly while trading is frozen |
| KillSwitch.LateTripEvent | lifecycle.go:46-53 | an interleaving ends open with nothing pending and a trip as the last event |
| KillSwitch.LastEventTellsIff | lifecycle.go:34-79 | from any state with something pending, every way of dispatching it ends with an event that tells the state exactly when no event of the opposite kind is pending |
| KillSwitch.DisciplineKeepsEventsRight | lifecycle.go:34-79 | if every event is dispatched before the next lock section, the last event tells the state whenever nothing is pending |
| Guard.Guard.constructor | guard.go:244-257 | a new guard is the empty state with the built-in chain in its fixed order |
| Guard.Guard.InsertCheck | guard.go:286-299 | the swapping loop inserts behind the last check that is not strictly greater |
| Guard.Guard.RegisterCheck | guard.go:269-276 | registration changes the chain only, by that insertion |
| Guard.Guard.GetOrCreateTracker | trackers.go:116-123 | returns the user's tracker, creating an empty one when there is none, and touches no other user |
| Guard.Guard.MaybeResetDay | trackers.go:133-148 | the day counters are reset exactly when the last reset lies before the boundary, and the answer says so |
| Guard.Guard.GetOrCreateLimits | limits.go:197-207 | returns the user's record, creating the on-demand one when there is none |
| Guard.Guard.GetEffectiveLimits | limits.go:170-193 | every override that is not zero is in force, every other limit is the default, switches and freeze are those of the record; nothing is written |
| Guard.Guard.PersistLimits | limits.go:213-254 | the user's row is written when the table takes the write, and nothing else changes |
| Guard.Guard.LoadLimits | limits.go:302-340 | the loop yields the limits that the rows in front of the first unreadable one denote, later rows winning; a failed query changes nothing, and the answer tells whether everything was read |
| Guard.Guard.FreezeGlobal | lifecycle.go:34-54 | trading is frozen in the given name, and a trip is emitted exactly when it was open |
| Guard.Guard.UnfreezeGlobal | lifecycle.go:61-79 | the switch opens and a lift is emitted exactly when it was closed |
| Guard.Guard.FreezeUser | lifecycle.go:101-111 | the user is frozen under every spelling of the address, in the given name, for the given reason, from that instant; record and row are written and nothing else changes |
| Guard.Guard.UnfreezeUser | lifecycle.go:114-124 | the user is free under every spelling of the address; record and row are written and nothing else changes |
| Guard.Guard.CheckDailyOrderCount | internal_checks.go:99-115 | resets lazily and answers as judged on the state before |
| Guard.Guard.CheckRateLimit | internal_checks.go:117-138 | prunes the order window and answers as judged on the state before |
| Guard.Guard.CheckClientOrderId | internal_checks.go:149-165 | consults and records the key and answers as judged on the state before |
| Guard.Guard.CheckDuplicateOrder | internal_checks.go:167-198 | prunes the signature window and answers as judged on the state before, the scan loop included |
| Guard.Guard.CheckDailyValue | internal_checks.go:200-239 | resets lazily for priced orders and answers as judged on the state before, currency mismatches included |
| Guard.Guard.CheckReadOnly | internal_checks.go:25-80 | the remaining rules answer as judged and change nothing |
| Guard.Guard.SafeEvaluate | guard.go:451-470 | every rule leaves its specified state and verdict, a panic of an external check counting as a rejection |
| Guard.Guard.RecordRejection | lifecycle.go:165-169 | the rejection is appended to the user's window and nothing else changes |
| Guard.Guard.CheckAutoFreeze | lifecycle.go:182-226 | prunes, freezes and reports exactly when the breaker trips |
| Guard.Guard.CheckOrder | guard.go:404-435 | the loop over the snapshot leaves the state and gives the answer of the specified walk; an order that lacks a required confirmation is refused and leaves the state as it was |
| Guard.Guard.RecordOrder | guard.go:484-526 | bumps the second bucket, then counts and windows the order; a report under any spelling of the address shows one more |
| Guard.Guard.GetUserStatus | trackers.go:92-112 | reports the counters after a lazy reset, whether the user is held, and by whom, why and since when |
| Guard.Guard.Middleware | middleware.go:44-108 | check, handler, record: a blocked or failed order is not recorded, other tools and calls without a user pass untouched, and a call that lacks a required confirmation is blocked and counts nowhere |
| Laws.WalkAllowsIffAllPass | guard.go:421-434 | a walk allows exactly when every check passes on the state its predecessors left, and then leaves all their effects |
| Laws.FirstRejectionWins | guard.go:421-433 | the first rejecting check gives the reason, only effects up to it remain, and it alone feeds the breaker |
| Laws.EffectsDoNotInterfere | internal_checks.go:99-239 | within one call no check changes what another answers |
| Laws.DecisionIsConjunction | guard.go:404-435 | an order is allowed exactly when every check, judged on the state before the call, passes |
| Laws.OrderOfChecksIsIrrelevant | guard.go:404-435 | any permutation of the chain, effectful checks included, allows the same orders |
| Laws.RegistrationOnlyAddsAVeto | guard.go:269-276 | an external check inserted anywhere never turns a rejection into an allow, and what it lets through is answered as before |
| Laws.KeyIsSpentIff | internal_checks.go:149-165 | after a walk the key is taken exactly when it was taken before or every check in front of the key check passed, whatever the checks behind it say, and a key spent by the walk stays taken for the window |
| Laws.WalkKeepsPolicies | guard.go:404-435 | no walk changes a non-freeze limit of any user |
| Laws.WriteThroughMirrors | limits.go:213-254 | a successful write of anybody's record keeps every user's row decoding to the record in memory |
| Laws.FirstWriteMirrors | limits.go:213-254 | a successful write of a user's record makes that row decode to the record, whatever the table held before |
| Laws.WalkMirrors | lifecycle.go:206-211 | automatic freezes during a walk keep table and memory in agreement |
| Laws.RestartAgrees | limits.go:302-340 | a fresh guard that loads the table gives the user the same freeze state and effective limits, up to the second of the freeze and the off-hours switch, if no row of the user in other case is read after the lower-case one |
| Laws.LoadedIsLastRow | limits.go:315-338 | loading gives every user the record of the last row whose key lower-cases to the user, and of no other |
| Laws.LoadingMirrors | limits.go:302-340 | a guard that has just loaded a table mirrors it, under the same condition |
| Laws.LastRowDecidesFreeze | limits.go:315-338 | after a restart the user is frozen exactly when the user's last row is, whatever its case |
| Tracking.ChecksAnswerFromHistory | internal_checks.go:99-239 | each counting check admits an order exactly when the user's full history leaves room for it |
| Tracking.BreakerFollows | lifecycle.go:182-226 | the breaker leaves the user frozen exactly when frozen before or with three counted rejections of the full log in the closed last five minutes |
| Tracking.EffectFollows | internal_checks.go:99-239 | no check of anybody changes the logs that the gate represents |
| Tracking.TrackFollows | guard.go:490-522 | recording an order of anybody extends exactly the owner's log |
| Runs.RunFollows | guard.go:404-526 | in every state of every sequential run the gate holds the fast form of every user's full logs |
| Runs.StatusIsHistory | trackers.go:92-112 | a status report at any time gives the number and the value of the orders since the latest 09:15 IST, whichever operations came before |
| Runs.RunKeepsPolicies | limits.go:170-207 | any sequence of operations leaves every non-freeze limit of every user as it was at start-up |
| Runs.RunMirrors | limits.go:213-254 | when writes succeed, a user's row and record agree at every moment of a run that starts with agreement |
| Runs.RestartAfterAnyRun | limits.go:302-340 | a guard that loads its table, runs, and is restarted at any moment gives every user the freeze state and effective limits of the running one, under the conditions of a single restart |
| AutoFreeze.BuiltinsKillSwitchFirst | check.go:81-88 | in the built-in chain no counted check runs before the per-user kill switch |
| AutoFreeze.BuiltinsCountIff | check.go:81-210 | a refusal of the built-in chain feeds the breaker exactly when what refuses is neither the user's freeze, nor the missing confirmation, nor the margin check |
| AutoFreeze.UnconfirmedIsRefused | check.go:90-99 | an order that lacks a required confirmation is refused, for the freeze in force or the confirmation, and leaves the whole gate as it was |
| AutoFreeze.UnconfirmedLeavesNoTrace | check.go:90-99 | taken out of any run, such an order changes no later state, no user's counted rejections and no freeze |
| AutoFreeze.ExtraChecksStayBehind | guard.go:269-299 | external checks registered at 200 or later leave freeze and confirmation the first two checks |
| AutoFreeze.UnconfirmedIsBlocked | internal_checks.go:48-61 | whatever external checks are registered and wherever, an order that lacks a required confirmation is blocked |
| AutoFreeze.CountedRejectionFreezesIffThree | lifecycle.go:182-226 | a counted rejection leaves the user frozen exactly when at least three of all counted rejections ever recorded lie in the closed five minutes that end then |
| AutoFreeze.UnfrozenMeansSparse | lifecycle.go:182-226 | without a lift nobody who is not frozen ever had three counted rejections within five minutes |
| AutoFreeze.FrozenLogStops | guard.go:421-433 | until the freeze is lifted nothing more is counted for a frozen user |
| Holds.HoldRefuses | internal_checks.go:25-38 | the freeze check refuses exactly the users that are held, and says so |
| Holds.HeldIsRefused | guard.go:404-435 | a held user's order is refused by every well-formed chain, in the built-in one as frozen and without a trace |
| Holds.StatusTellsHold | trackers.go:105-110 | a report says frozen exactly when the check would refuse, under any spelling, with the holder's name, reason and instant |
| Holds.FreezeHolds | lifecycle.go:101-111 | a freeze holds the user under every spelling in the given name, and nobody else |
| Holds.FreezeStopsOrders | lifecycle.go:101-111 | an order after a freeze is refused, whatever the spellings of the two |
| Holds.LiftReleases | lifecycle.go:114-124 | a lift releases the user under every spelling, forgets the holder, and releases nobody else |
| Holds.CheckHolds | lifecycle.go:206-211 | a check sets a hold exactly when its answer says so, in the breaker's name, on a user who was not held, and ends none |
| Holds.HeldByTheLastOne | lifecycle.go:101-226 | after any sequence of calls the user's hold is the one that the last freeze, breaker trip or lift left, or the one at the start |
| Holds.ReportsNameTheHolder | trackers.go:92-112 | every report after any run tells that hold |
| Spellings.RecordIsSeen | guard.go:484-526 | one record adds one to the report under every spelling and changes nobody else's |
| Spellings.CheckCountsNoOrder | guard.go:404-435 | whatever its answer, a check leaves every user's reported count and value |
| Spellings.ReportsCountEverySpelling | trackers.go:92-112 | a report counts and adds up the orders of the trading day recorded under all spellings |
| Spellings.ChecksCountEverySpelling | internal_checks.go:99-239 | daily count, daily value and minute rate admit a request exactly when the orders recorded under all spellings leave room |
| Coupling.StepKeepsSound | middleware.go:88-105 | every atomic step of every interleaving keeps the gate's bookkeeping the fast form of the user's logs, the second bucket that of the streak |
| Overshoot.AdmissionLeavesRoom | internal_checks.go:99-239 | a counting check lets a request through only while the history leaves room for it |
| Overshoot.StepKeepsWithin | middleware.go:88-105 | for the limits over recorded orders, every step keeps what is used up plus what requests past the check may still add under the ceiling |
| Overshoot.StepKeepsHistory | guard.go:484-526 | every step keeps the period that ends at each recorded order under the ceiling |
| Bounds.ReachableInvariant | middleware.go:88-105 | for the limits over recorded orders, in every reachable state of every interleaving with at most k requests in flight, records and admitted requests stay under the ceiling together, whatever the quantities; when the user's quantities are not negative the ceiling on value is the daily limit and k - 1 orders of the cap |
| Bounds.BoundedOvershoot | middleware.go:88-105 | for every interleaving and every instant, daily count and minute rate are exceeded by at most k - 1; the value of the trading day is at most the daily limit, or one order of the per-order cap if that is more, plus k - 1 orders of the cap, and the second alternative goes when the cap is not above the daily limit or the user's own quantities are not negative |
| Bounds.StatusStaysBounded | trackers.go:92-112 | the counters that the gate reports obey the same bounds, the unconditional one on value included |
| Bounds.DuplicatesAreSpaced | internal_checks.go:167-198 | with one request in flight two equal orders are strictly more than the duplicate window apart |
| OneADay.OneADayIsBounded | internal_checks.go:200-239 | with at most one order a day allowed, whatever the quantities, the value of the trading day is at most the daily limit, counted as zero when negative, plus k - 1 orders of the per-order cap |
| OneADay.ShutMeansNone | internal_checks.go:99-138 | an effective daily or minute limit below one lets no order be recorded in any interleaving |
| Bounds.CreditIsLostAtTheOpening | internal_checks.go:200-239 | any order above the daily limit and within the per-order cap passes its checks on enough value given back before 09:15, and is placed whole once the reset has removed the credit |
| Attained.OvershootIsAttained | middleware.go:88-105 | for every k some interleaving with at most k requests in flight reaches all three bounds at once |
| Credit.CreditRun | internal_checks.go:200-239 | for every start, with two orders a day and one a minute allowed and the cap above the daily limit, a run gives back value before 09:15, has one order of the cap checked in every slot, records them at 09:15, and so reaches the unconditional bound on value |
| Credit.HeldRun | internal_checks.go:200-239 | with one order a day allowed, a run holds all but one request behind the order count, gives back value with the last one, and records the others at 09:15 for k - 1 orders of the cap |
| Credit.ValueBoundFailsIff | internal_checks.go:200-239 | for every start, user and number of slots, some interleaving exceeds the bound on value of natural quantities exactly when the per-order cap is above the daily limit (zero when negative), an order a minute is allowed, and two orders a day are, or one is with a negative daily limit and two slots |
| SecondRate.SecondsAreBounded | per_second.go:115-144 | with at most k requests in flight a calendar second counts at most 9k + k(k - 1)/2 orders, however late clock readings reach the counter, and has at most k more recorded in it |
| SecondRate.NineASecond | per_second.go:115-144 | with one request in flight no calendar second counts more than nine orders, nor has more than ten recorded in it |
| SecondRate.TenOnlyIfCarriedOver | per_second.go:115-144 | with one request in flight the i-th order counted is the i-th recorded, and more than nine are recorded in a second only if one of them was counted on a reading of an earlier second |
| SecondRate.OneAtATimeCountsAll | per_second.go:115-144 | with one request in flight the streak that the counter answers with is the whole history of the current second |
| Rush.SecondsBoundIsReached | per_second.go:115-144 | for every k a run with at most k requests in flight counts 9k + k(k - 1)/2 orders in one second, while the counter itself has forgotten all but 8 + k of them |
| Rush.TenInASecond | per_second.go:115-144 | under the default limits a run with one request in flight at a time records ten orders in one second |
| Keys.KeysAtMostOnce | internal_checks.go:149-165 | under every interleaving two acceptances of one key of one user are at least fifteen minutes apart |
| Keys.KeysAnswerFromHistory | dedup.go:78-91 | in every reachable state the shared map answers like a scan of everything the user ever had accepted |
| Calls.RecordsStemFromCalls | middleware.go:59-105 | in any interleaving a recorded order is what the last call of its slot asked for: tool, signature, value and user are the caller's, and it was confirmed if the user's limits require it |
| Calls.CountsStemFromConfirmedCalls | guard.go:426-431 | in any interleaving a rejection counted towards the breaker stems from a call of the user, confirmed if the limits require it |
| Calls.NothingUnconfirmed | middleware.go:69-73 | for a user who must confirm and never does, no interleaving records or counts anything |
| Drain.FreezeStays | lifecycle.go:34-124 | no request and no call but the matching lift ends a freeze |
| HeldRuns.HeldByTheLastStep | lifecycle.go:101-226 | in every interleaving a user's hold is the one that the last freeze, trip or lift left, a trip being what one of the user's requests was told of |
| Drain.FrozenPipelineDrains | guard.go:404-435 | from a freeze in any reachable state on, while it lasts, the orders still recorded are bounded by the requests that were past the check when it began |
| Drain.FrozenCountsDrain | guard.go:421-433 | from a freeze in any reachable state on, while it lasts, the rejections still counted are bounded by the requests that were past the freeze, or on their way to the count, when it began |
| Breakers.ThreeStrikesFreeze | guard.go:426-431 | under every interleaving without a lift, a user with three counted rejections in five minutes is frozen unless some of them have not reached the breaker yet |
| Restart.InterleavedRunMirrors | limits.go:213-254 | when writes succeed, every step of every interleaving keeps a user's row and record in agreement |
| Restart.RestartAtAnyMoment | limits.go:302-340 | a guard that loads its table, serves any interleaving and is restarted at any moment treats every user whose own row decides as the running one does: same freeze, same effective limits up to the off-hours switch |
| Isolation.JudgeAlike | guard.go:404-435 | what a check answers depends on the requester's own part of the gate only |
| Isolation.OthersNeverMatter | guard.go:404-526 | deleting every action of all other users from any interleaved run leaves the user's replies, reports, logs, counters, limits and keys unchanged |
| Decision.PassingIsAgreement | guard.go:404-435 | a well-formed chain passes an order exactly when all eleven rules of the gate and every external check do |
| Decision.CountingRules | internal_checks.go:99-239 | each counting rule answers exactly as its limit reads against the full history |
| Decision.OtherRules | internal_checks.go:25-80 | freeze, confirmation, order value, second streak, key and time rules answer exactly as their limits read against the user's record and history |
| Decision.AllowedIffPermitted | guard.go:404-435 | with sound bookkeeping an order is allowed exactly when nothing is frozen, every rule read against the full history permits it and no external check objects |
| Decision.RegisteredAsksOnce | check.go:220-239 | the built-ins with any external checks registered consult the idempotency key once |
| Decision.DecisionIsHistory | guard.go:404-435 | the same in every reachable state of every interleaved run, under the limits at start-up; a request with a key supposes that no address in the run holds a NUL |
| Terms.OverridesAreInForce | limits.go:170-191 | field by field, an override that is not zero is the limit in force, a zero one is the system's number, and switches and freeze are the record's own |
| Terms.NewcomersHaveTheDefaults | guard.go:25-33 | a user without a record is bound to Rs 50,000 an order, 20 orders a day, 10 a minute, 30 seconds, Rs 200,000 a day, the breaker and the confirmation |
| Terms.LoadedTermsAreInForce | limits.go:302-340 | after loading, the numbers, switches and freeze of the user's last row, under any spelling, are in force |
| Terms.LoadedTermsGovern | guard.go:404-435 | from then on, in every interleaving, an order is allowed exactly when nothing is frozen, the numbers of that row leave room for it in the user's history, and no external check objects |
| Reasons.ReasonOfRule | internal_checks.go:25-321 | which rule refuses with which reason; a panic has its own |
| Reasons.RefusalIsTrue | guard.go:421-433 | with sound bookkeeping the reason of a refusal is true of the request, the history and the limits, or an external check's |
| Reasons.RefusalsTellTheTruth | guard.go:404-435 | the same in every reachable state of every interleaved run |
| Uninterrupted.UninterruptedRequestIsOneCall | middleware.go:44-108 | a request followed to its end without interruption does to the gate, records and tells the user exactly what one middleware call with the same two instants does |
| Subprocess.SubprocessCheck.constructor | subprocess_check.go:118-120 | a new check has launched nothing |
| Subprocess.SubprocessCheck.LaunchLocked | subprocess_check.go:235-266 | a launch caches the process when it is ready and kills it otherwise, so at rest at most the cached process lives |
| Subprocess.SubprocessCheck.EnsureProxy | subprocess_check.go:212-231 | launches only when nothing is cached, and returns the cached proxy |
| Subprocess.SubprocessCheck.DiscardClient | subprocess_check.go:271-279 | afterwards nothing is cached and nothing lives |
| Subprocess.SubprocessCheck.Close | subprocess_check.go:284-293 | closed, nothing cached, nothing lives |
| Subprocess.SubprocessCheck.Evaluate | subprocess_check.go:154-192 | an allow needs an open check, a working process and a successful reply that said so |
| Subprocess.LockFreeMeansAtRest | subprocess_check.go:212-293 | under every interleaving, whenever the lock is free client and proxy are set together and the cached process is the only one alive; evaluations begun after a Close are refused as closed |
| Subprocess.AnswersAreThePlugins | subprocess_check.go:180-191 | the answers given on the plugin's behalf are its successful replies, in the same sequence to the same callers, and every other answer is a refusal |
| Subprocess.CloseLeaksIff | subprocess_check.go:284-293 | after the tear-down of a Close a process can come back exactly when some call is past the closed test and before its launch |
| Subprocess.DiscardKillsTheCurrent | subprocess_check.go:271-279 | a discard leaves nothing alive, and kills the process that failed exactly when that one is still cached |
| Subprocess.UninterruptedEvaluation | subprocess_check.go:154-192 | an evaluation that nobody interrupts does in the protocol what the method does |
| Format.DecimalReadsBack | otr_band.go:176-196 | decimal rendering of any integer parses back to it |
| Format.Itoa | otr_band.go:176-196 | the buffer loop stays inside its twenty bytes and gives the decimal rendering of every 64-bit integer but the least, for which it gives a lone minus sign |
| Format.ItoaIsFaithfulIff | otr_band.go:176-196 | the text parses back to the integer exactly when it is not the least one |
| Format.PercentIsRounded | otr_band.go:163-171 | for percentages that are not negative and fit, the digits are the nearest tenth, halves up, whatever the machine does with numbers that do not fit |
| Format.PercentIsWellFormedIff | otr_band.go:163-171 | for percentages whose whole part fits, the tenths are a single digit exactly when the part behind the point is above -0.15 |
| Format.RupeesAreNearest | otr_band.go:154-160 | rupee amounts are shown as the nearest integer, halves away from zero, symmetrically in the sign |
| Format.FmtPct | otr_band.go:163-171 | every percentage is rendered from its parts; one that is not negative and fits is its nearest tenth with a point and a percent sign |
| Format.FmtRupees | otr_band.go:154-160 | every amount is rendered; one whose rounding fits shows it behind the currency mark, the least integer shows as a lone minus sign |

## Left out

- Records held by reference: trackers and limits are values in the guard's maps. Updates in place are map updates, and aliasing of a record is not captured.
- SHA-256, the SQL text and migrations: the table is a map that takes a write or not, and its rows are read or not.
- margin_check.go, circuit_limit.go, the exchange-quantity, anomaly and price-band comparisons: single comparisons against outside data, so external checks that only answer.
- The raw-email lookups of the margin check and of subprocess plugins belong to those external answers; `Isolation` is about the gate's own state.
- checkrpc, plugin discovery, the handshake, gob and the log shim: plumbing around libraries; launches and replies are outcomes of the environment.
- Floating point: prices, values and percentages are exact integers or reals.
- Conversion of reals that do not fit 64 bits: the machine's own, any function that cuts what fits.
- Daily-reset and rejection events, notifiers, logging, contexts, message texts, translations and the JSON form of a status.
- The fail-open paths for a missing time-zone database, a missing counter and a missing key map: the guard's constructor always makes the latter two.
- safeString, safeInt, safeFloat and safeBool: tool arguments arrive already reduced to their typed defaults.
- Lower-casing is that of ASCII letters; trimming of the order variety covers the Latin-1 white space.
- Races on the setters that skip the lock, and registration while requests are in flight: both are start-up wiring.
- Bounds.BoundedOvershoot: the lower of its two bounds on value is conditional, because negative quantities can exceed it; Credit.ValueBoundFailsIff says exactly for which limits.
- Runs: a sequential operation uses one instant from its check to its breaker.
