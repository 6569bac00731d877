# go-aviator: a verified model

go-aviator is a crash game played over SSH. One goroutine, the engine, runs the rounds: it takes commands
from an inbox, moves a multiplier up tick by tick until a committed crash point, and keeps balances and bets
in Postgres. This project models the engine with the database it writes to, the sessions that log in beside
it and the client that reads its snapshots, and proves what holds of every run.

## How it is put together

- `System` is the whole system as one machine. A step is what is atomic in the program: one inbox command,
  one tick, one SQL statement, one commit, one locked section of a login. `Step` is total (an event the
  system is not ready for changes nothing), so every sequence of events is a run, with failed statements,
  commits of unknown outcome and process crashes wherever the sequence puts them. `Store` holds the durable
  tables, `Auth` the login steps, `Rounds` and `Multiplier` the values of a round and the multiplier curve.
- `Flight`, `Ledger`, `WriteOrder`, `Stages`, `Solvency`, `Reveal`, `Shown`, `Secrecy`, `Sessions`, `Display`
  and `Restarts` prove invariants and relations over all runs of that machine; `Window` what becomes of each
  command and of a whole betting window; `WholeRound` puts window, takeoff, flight and settlement together into
  the closed form of a round; `Faultless` and `Reduction` say what the transactions come to when nothing fails,
  by themselves and with logins in between; `Admission` who gets in; `Overdrafts` when balances go below zero;
  `Stakes` which stakes are safe from overflow; `Cases` concrete runs. `Fair` and `Odds` are about the crash
  sampler, the commitment and the odds; `Mailbox`, `Client`, `Typing` and `EndToEnd` about what reaches a
  player and comes back.
- `Server`, `Databases`, `Subscribers`, `Managers` and `Games` are the code in its own form: classes whose
  fields the methods update in place, loops over maps in any order. The engine's `Valid` says that the object
  is in the state the machine reaches by the events carried out so far, that these take exactly the inputs the
  object was given, and that every failure in them was reported by the database; so the results about runs hold
  of the object (`Audit`). The others are proved against the steps of `Auth`, `Mailbox` and the reducer in `Client`.

## What is assumed

- SHA-256 and the conversion to hex are one function parameter. Collision freedom is a hypothesis where a
  lemma names it, and only there.
- `math.Exp(growthK * ticks)` is a power of a real number g with 1.07 < g < 1.0726 (e^0.07 = 1.07250...).
  The sampler is computed in exact integers. IEEE 754 rounding is not modelled.
- Random draws, clocks, the betting window, the settle pause and the outcome of each statement are arbitrary.
- Participants in a snapshot are compared as a map, since Go promises no iteration order.
- The database session runs in UTC and its date never goes back.

## Where the code falls short of its documentation

- `houseEdge` is documented as the share the house keeps (internal/engine/fair.go:11-16). The sampler keeps
  it (`Fair.SamplerFavoursHouse`), the flight does not: an auto-cashout is paid on the tick that overshoots
  the crash point, before the crash check. A target reached on the first tick is always paid, and every
  target a tick lands on (up to some 600x) pays more than it stakes over all rolls (`Odds.HouseHoldsIff`,
  `Odds.TickTargetsBeatTheHouse`).
- The round row is not a verifiable record in two cases: the hash update fails and is only logged, or the
  crash point does not fit the 32-bit column (`Reveal.RowVerifiesIff`). The snapshots always are.
- A round marked 'settled' need not have its payouts committed, because the mark is written before the commit
  and outside its transaction (internal/engine/engine.go:359): it has them if and only if the commit did not
  fail (`Solvency.SettledIsPaidIff`). Otherwise, or if the mark was carried out but reported as failed, the
  announced cash-outs are never paid (`Cases.SettledForGoodUnpaid`, `Cases.MarkedButRolledBack`). The
  converse holds: only settled rounds have payouts (`WriteOrder.BetsFollowRounds`).
- The form may show a bet as placed although none was sent for the round on the screen, in three situations,
  each with the flag still up from an earlier round: a queued bet is rejected at the start of the betting window;
  two betting windows follow one another on the screen, so that nothing is reset; or no betting frame of the
  round gets through at all (`Client.PlacedIsRightIff`, which is exact, and `Client.FlagKeptWithinRound`). In the
  last two a queued bet is not sent either (`Client.QueuedBetGoesOutIff`). The second needs no lost frame: a
  takeoff that fails broadcasts nothing, and the next subscription opens the next round
  (`Cases.TwoBettingWindows`).
- The engine accepts any amount and target, and nothing keeps a balance from going below zero
  (`Cases.Overdrawn`). It stays at zero or above exactly as long as every commit is covered
  (`Overdrafts.SolventThroughoutIff`); `Solvency.Solvency` names what must be true of each accepted bet for
  that. A large enough stake makes `amount * multiplier` wrap around an int64; the exact bound is
  `Stakes.StakeReturnedIff`.
- The client's checks do not provide it: on a new betting window the form's maximum is reset to the balance at
  login, not the refreshed one, because the game keeps a pointer to the model as it was first built
  (internal/tui/game.go:37, internal/tui/model.go:107). So the form covers its bets if and only if the balance
  at login is still there (`Client.OpeningCoveredIff`, `Client.BetsWhatIsGone`, `Cases.TwiceTheLoginBalance`).
- The 32-bit column for the paid multiplier agrees with the payout beside it if and only if the multiplier is
  below 2^31 (`Solvency.StoredPayoutIff`).
- The README gives the betting window as 5 seconds, the code as 8. `StateSettling` is declared and never
  entered.

## Model

| member | source | states |
|---|---|---|
| `Fair.SurvivesIff` | internal/engine/fair.go:17-37 | Exact sampler, for every word drawn: it reaches target m ≥ 101 exactly when its value modulo 2^32 is among the last floor(99·2^32/(m−1)) of the 2^32 rolls. |
| `Fair.SurvivalCount` | internal/engine/fair.go:17-37 | Exact survival function: for every m ≥ 101 precisely floor(99·2^32/(m−1)) rolls give a crash point of at least m. |
| `Fair.WordCount` | internal/engine/fair.go:17-37 | So of the 2^64 words the program can draw precisely 2^32 × floor(99·2^32/(m−1)) reach m. |
| `Fair.SamplerFavoursHouse` | internal/engine/fair.go:11-16 | m × (rolls reaching m) < 100·2^32 for every m ≥ 101: the sampler on its own keeps the documented house edge at every target. |
| `Fair.ParseInvertsPreimage` | internal/engine/fair.go:44-50 | Round trip: an independent parser recovers (id, crash point, salt) from the printed preimage, for every salt, dashes and digits included. |
| `Fair.PreimageInvertsParse` | internal/engine/fair.go:44-50 | The other direction: whatever the parser accepts is the preimage of what it read, so printing is a bijection onto the accepted strings. |
| `Fair.CommitHashesPreimage` | internal/engine/fair.go:44-50 | The published hash is the hash of the printed preimage itself: of whatever string the independent parser reads as this opening. |
| `Fair.VerifyIff` | internal/engine/fair.go:52-56 | Verify accepts a hash if and only if it is the hash of the printed string, which parses to the opening. |
| `Fair.PrintedExample` | internal/engine/fair.go:39-50 | One preimage in full: round 42 at 12.05x. |
| `Fair.VerifyExactly` | internal/engine/fair.go:52-56 | A published hash verifies its own opening, and under a collision-free hash no other (id, crash point, salt). |
| `Fair.NegativePrintsApart` | internal/engine/fair.go:39-42 | A negative multiplier never prints like a non-negative one, whatever follows it. |
| `Fair.SignedNegative` | internal/engine/fair.go:39-42 | A negative number prints as a minus sign and the digits of its absolute value. |
| `Fair.NegativeExamples` | internal/engine/fair.go:39-42 | Three negative multipliers as Go prints them, with the sign of quotient and remainder. |
| `Fair.MultiplierDecidesPreimage` | internal/engine/fair.go:39-50 | With id and salt fixed, two multipliers (one possibly negative) give the same preimage if and only if they are equal. |
| `Odds.PaysIff` | internal/engine/engine.go:280-290 | An auto-cashout is paid in a flight with a given crash point if and only if its tick is the first or the crash point lies above the curve one tick earlier. |
| `Odds.PayingCount` | internal/engine/engine.go:271-295 | Exact number of rolls that pay an auto-cashout target: all of them up to the first tick's multiplier, floor(99·2^32/bar) beyond it, bar being the curve one tick before the target. |
| `Odds.HouseHoldsIff` | internal/engine/engine.go:280-290 | Exactly when the documented edge survives the flight, for every target above 1.00x: the house comes out even or ahead over all the rolls if and only if the target lies past the first tick and floor(99·2^32/bar) ≤ floor(100·2^32/target). |
| `Odds.HouseHoldsWithinBar` | internal/engine/engine.go:280-290 | The same without the rounding: a target with 99·target ≤ 100·bar keeps the edge, and up to some 600x only such a target does. |
| `Odds.TickTargetsBeatTheHouse` | internal/engine/engine.go:280-290 | Every target that a tick lands on exactly, up to some 600x, pays more than it stakes over all the rolls: a whole family of inputs on which the edge is lost. |
| `Multiplier.CurveStep` | internal/engine/engine.go:272-275 | The multiplier starts at 100 and rises by at least 7 at every tick. |
| `Multiplier.PowAdds` | internal/engine/engine.go:272-275 | Growth compounds: s + t ticks multiply by the power for s and the power for t. |
| `Multiplier.CurveTruncates` | internal/engine/engine.go:272-275 | The multiplier is the power of g in hundredths, cut off: one tick is g itself, any further span another power of it. |
| `Multiplier.CurveMonotone` | internal/engine/engine.go:272-275 | Over any span of ticks the curve rises by at least 7 per tick. |
| `Multiplier.FirstTickIff` | internal/engine/engine.go:286-290 | The search for the first tick at a target is right: the curve has reached the target at tick t if and only if t is not before it. |
| `Multiplier.FirstTickBound` | internal/engine/engine.go:271-295 | A target is reached within max(1, ceil((target − 100)/7)) ticks. |
| `Multiplier.Overshoot` | internal/engine/engine.go:271-295 | A tick that starts below the crash point ends at no more than g times the crash point. |
| `Rounds.PassIsOrderIndependent` | internal/engine/engine.go:280-287 | Visiting the participants in any order that covers them, repeats included, gives the same auto-cashout pass. |
| `Rounds.PayoutExactIff` | internal/engine/engine.go:302-305 | settleCashout's int64 product gives the exact quotient if and only if amount × multiplier < 2^63. |
| `Rounds.PayoutCutsOff` | internal/engine/engine.go:302-305 | In general, negative and wrapped products included, the payout is a hundredth of the product as an int64 holds it, cut off toward zero. |
| `Rounds.PayoutMonotone` | internal/engine/engine.go:302-305 | As long as amount × multiplier stays below 2^63 a higher multiplier never pays less, and one of at least 100 returns at least the stake. |
| `GoInt.Int32Exact` | internal/engine/engine.go:148-152 | The conversion to int32 keeps a non-negative value if and only if it is below 2^31. |
| `GoInt.ConversionsWrap` | internal/engine/engine.go:148-152 | The int32 and int64 conversions are the value in range that is congruent to the argument, and no other. |
| `GoInt.QuotTruncates` | internal/engine/fair.go:39-42 | Go's quotient and remainder: the remainder is smaller than the divisor and has the sign of the dividend. |
| `Stakes.PayableIff` | internal/engine/engine.go:280-290 | A target is paid on some roll of the sampler if and only if it is at most Top, the multiplier at which the highest possible flight crashes. |
| `Stakes.StakeReturnedIff` | internal/engine/engine.go:302-305 | For every stake a > 0: every payable multiplier of at least 1.01x returns at least the stake if and only if a × Top < 2^63; otherwise the least wrapping target is named, and pays less than the stake. |
| `Stakes.MaxStakeFits` | internal/engine/engine.go:302-305 | Stakes of up to 20,000,000 are among those that fit. |
| `Flight.RunKeeps` | internal/engine/engine.go:111-427 | Invariant of every run: current multiplier on the curve, below the crash point while flying (or no tick yet), seats paid by the formula at a multiplier the flight reached. |
| `Flight.FlightOutcome` | internal/engine/engine.go:263-307 | Refinement: every interleaving of ticks, commands and logins from any point of a flight pays each seat the closed form — the target if its tick is no later than the crash and the player's first cash-out, else the curve at that cash-out if before the crash, else nothing. |
| `Flight.EveryFlightPays` | internal/engine/engine.go:263-307 | The same from every flying state that a run of the system reaches. |
| `Flight.StillFlying` | internal/engine/engine.go:263-299 | A flight has crashed if and only if it was given enough ticks to reach the first tick at the crash point, and it crashes on exactly that tick. |
| `Flight.FlightEnds` | internal/engine/engine.go:271-295 | Termination: at most max(1, ceil((crash − 100)/7)) ticks whatever commands arrive, and the distance to the crash point strictly falls with each tick. |
| `Flight.OvershootBound` | internal/engine/engine.go:271-295 | In every reachable flight a cash-out pays below 1.0726 × the crash point, and one other than the configured auto-cashout pays at most the crash point. |
| `Flight.NoOverflow` | internal/engine/engine.go:302-305 | In every reachable flight a stake that fits (amount × Top < 2^63) is paid exactly amount × multiplier / 100, without int64 wrap-around. |
| `Flight.UnfitStakeLoses` | internal/engine/engine.go:302-305 | For every stake that does not fit there is a roll and a target of at least 1.01x whose flight pays less than the stake. |
| `Flight.CashOutIsFinal` | internal/engine/engine.go:280-287 | Once a seat has cashed out nothing but the next round or a restart changes it, except for its bet id. |
| `Flight.FirstBetStands` | internal/engine/engine.go:400-414 | The first accepted bet of a player keeps its stake and target until the next round or a restart: no second bet is recorded. |
| `Window.BetTakenIff` | internal/engine/engine.go:400-414 | A bet is taken if and only if the window is open and the player has none; then that player has exactly this bet, nobody else anything new, and a snapshot is taken. A refused bet changes nothing. |
| `Window.WindowOutcome` | internal/engine/engine.go:172-192 | A whole betting window in closed form, over every interleaving of commands, broadcasts and logins: a player is seated if and only if a bet was sent, with the first one as it was sent. |
| `Window.CashOutTakenIff` | internal/engine/engine.go:416-425 | A cash-out is taken if and only if the round flies and the player is still in; it pays the current multiplier, and every other seat is as it was. |
| `Window.IdleHears` | internal/engine/engine.go:126-137 | Idle, a subscription opens a round and every other command is discarded. |
| `Window.LastWordCounts` | internal/engine/engine.go:388-398 | While the inbox is read, exactly those are subscribed whose last word on it was to subscribe. |
| `Window.PauseEndsIff` | internal/engine/engine.go:375-386 | The settle pause ends in Idle if and only if nobody is subscribed, otherwise in the next round. |
| `Audit.EngineSeatsFirstBets` | internal/engine/engine.go:172-192 | So after its betting window the engine object holds exactly the first bet of every player who sent one. |
| `WholeRound.RoundInClosedForm` | internal/engine/engine.go:172-386 | A round in closed form: from any open window without bets, whatever commands, ticks, logins and failures lead to the settle pause, a player has lost the first stake sent and gained what Flight.Outcome pays on it, daily credits apart, and the bet row says so field by field; who sent no bet has neither. |
| `WholeRound.StepEarns` | internal/engine/engine.go:194-375 | Daily credits apart, no step moves a player's money but a COMMIT that does not fail, and that by exactly the stake or the payout. |
| `Cases.RoundCompletes` | internal/engine/engine.go:172-386 | A run from the start that meets every condition of the closed form. |
| `Audit.EngineRoundPays` | internal/engine/engine.go:111-124 | The closed form for the engine object, of the first process or any later one. |
| `Shown.SnapshotTakenIff` | internal/engine/engine.go:463-491 | Which steps take a snapshot, exactly, and that it is the engine as the step has left it: multiplier, stake, cash-out, payout of every seat; the draw only after the crash. |
| `Shown.NewestIsTrue` | internal/engine/engine.go:271-297 | In every run, from the first tick of a flight to the end of its round, the newest snapshot is the engine as it stands. |
| `Stages.RevealMarksIff` | internal/engine/engine.go:309-314 | After revealOutcome the row is marked crashed if and only if the statement did not fail, and nothing else has changed. |
| `Stages.EmptyTakeoffMarksIff` | internal/engine/engine.go:195-204 | A takeoff without bets flies in any case, and is marked so if and only if its statement did not fail. |
| `Stages.TransactionMarksIff` | internal/engine/engine.go:246-252 | The mark before a COMMIT, flying or settled, is in the row if and only if its statement did not fail; the transaction goes on only if it is reported as done. |
| `Stages.RowSaysWhatIs` | internal/engine/engine.go:139-375 | From any start of a round on, as long as no mark fails, the row says at every moment exactly how far the round is. |
| `Stages.StartWritesRow` | internal/engine/engine.go:148-165 | A start without failures writes a row in betting, with the hash the engine shows, the salt and the narrowed crash point. |
| `Stages.RowVerifiesForGood` | internal/engine/engine.go:148-165 | If the crash point of such a round is below 2^31 its row verifies, after any continuation of the run. |
| `Ledger.Conservation` | internal/engine/engine.go:194-261 | Over every run with failed statements, rollbacks, commits of unknown outcome, process crashes and daily credits in between: balance = 2000 + 1000 × grants − stakes of bet rows + payouts. |
| `Ledger.StepKeeps` | internal/engine/engine.go:316-369 | Each step of the system keeps the books, the foreign keys, the one-bet-per-round key and the match between seats, pending writes and rows. |
| `Ledger.UniqueNeverRefuses` | internal/engine/engine.go:231-243 | UNIQUE (round_id, player_id) never refuses a bet the engine inserts. |
| `Ledger.CreateBetGoesIff` | migrations/0001_init.up.sql:21-31 | CreateBet goes through if and only if it does not fail, player and round are known, and the player has no row in the round; otherwise the engine gives up. |
| `Ledger.CommitBalances` | internal/engine/engine.go:253-257 | COMMIT turns the open transaction's balance into the ledger identity. |
| `WriteOrder.BetsFollowRounds` | internal/engine/engine.go:194-257 | In every reachable state a bet row belongs to a round at least flying, and one with a payout to a settled round, paid by the formula at a multiplier its flight could reach. |
| `WriteOrder.StoredPayout` | internal/engine/engine.go:333-351 | For every row of a round whose multipliers all fit the 32-bit column, the stored payout is amount × stored multiplier / 100. |
| `Solvency.StoredPayoutIff` | internal/engine/engine.go:333-351 | Exactly when that holds of a paid row, however the payout was committed and whatever happens after: if and only if the multiplier that was paid is below 2^31 (for every positive stake that fits). |
| `Stakes.NarrowedPayoutIff` | internal/engine/engine.go:333-334 | The arithmetic of it: narrowing the multiplier to 32 bits keeps the payout if and only if it is below 2^31. |
| `Flight.NarrowedFlight` | internal/engine/engine.go:302-305 | A flight that fails it: the highest roll and an auto-cashout at 2^31, which is stored as −2^31. |
| `WriteOrder.RunAdvances` | internal/engine/engine.go:309-369 | Over any continuation of any run rounds only move betting → flying → crashed → settled, no row is lost or restaked and a written payout never changes. |
| `WriteOrder.UnpaidForGood` | internal/engine/engine.go:316-369 | A bet still unpaid when its round is no longer the engine's is never paid or touched again, in any continuation. |
| `Solvency.CommitMoves` | internal/engine/engine.go:215-257 | What a COMMIT moves under each of its three outcomes: unless it failed, a takeoff debits each participant the stake, a settlement credits each cashed-out participant the payout, nobody else is touched and each seat has its row; if it failed, no balance or bet row has changed. |
| `Solvency.SettledIsPaidIff` | internal/engine/engine.go:359-369 | A round marked settled has the payout of a cashed-out seat in its bet row if and only if the commit after the mark did not fail. |
| `Solvency.PaidForGood` | internal/engine/engine.go:365-375 | Whenever a run reaches the settle pause, every player who cashed out has the payout in the bet row, and after any continuation still. |
| `Solvency.Solvency` | internal/engine/engine.go:400-425 | If every accepted bet was within the durable balance, fitting (amount × Top < 2^63) and without or with a target of at least 1.01x when handled, no balance is ever negative and every paid bet returns at least its stake. |
| `Overdrafts.CommitSolventIff` | internal/engine/engine.go:215-225 | A commit that is carried out keeps every balance at zero or above if and only if, at takeoff, every stake is within its player's durable balance, and at settlement no (wrapped) payout is below minus the balance. |
| `Overdrafts.SolventThroughoutIff` | internal/engine/engine.go:194-257 | Exact solvency over runs: no balance is negative at any point of a run if and only if every commit carried out in it was covered. |
| `Cases.Overdrawn` | internal/engine/engine.go:400-414 | A run from the start in which a new player stakes more than the 2000 credits and is left below zero. |
| `Cases.TwiceTheLoginBalance` | internal/engine/engine.go:400-414 | A run in which the player stakes the login balance in two rounds, loses both, and is left with −2000. |
| `EndToEnd.AcceptedAreSoundIff` | internal/tui/bet.go:92-108 | Whatever is typed, what a form with a given maximum accepts meets the conditions of solvency if and only if the maximum is within the durable balance and fits. |
| `Client.OpeningCoveredIff` | internal/tui/game.go:34-38 | What the form accepts when a betting window opens is within a player's balance, whatever is typed, if and only if the balance at login is. |
| `Client.BetsWhatIsGone` | internal/tui/game.go:34-45 | Keys and frames with which a player who has been told of a balance of 0 sends a bet of 5, the balance at login. |
| `Reduction.OthersMoveOut` | internal/engine/engine.go:206-256 | The statements of an open transaction and the steps of logins commute: a transaction broken into at any points ends as if it had run by itself, with the others' steps after it, unless they let a seated player in for the first time. |
| `Reduction.SettlementReachesCommit` | internal/engine/engine.go:326-364 | Without failing statements no settlement can stop short of its COMMIT, whatever order the map yields the participants in and whatever logins come in between. |
| `Reduction.SettlementPays` | internal/engine/engine.go:316-371 | So such a settlement credits every cashed-out player, on top of what the logins have made of the balances, gives each seat its final row and marks the round settled. |
| `Reduction.TakeoffIff` | internal/engine/engine.go:206-261 | A takeoff without failures, broken into by logins that let no seated player in for the first time, takes off if and only if every participant is a known player; then all are debited and have rows, otherwise the engine gives up with the bets as they were. |
| `Reduction.TakeoffBracket` | internal/engine/engine.go:206-261 | Without that proviso: it takes off if every participant is known when it begins, and only if every one is when it commits. |
| `Faultless.TakeoffAloneIff` | internal/engine/engine.go:206-261 | The same for a takeoff that runs by itself, with balances and bets unchanged when it gives up. |
| `Cases.SettledAndPaid` | internal/engine/engine.go:316-371 | A run from the empty system in which a player logs in, stakes 100 of 2000, is cashed out at 1.07x and ends with 2007. |
| `Cases.SettledForGoodUnpaid` | internal/engine/engine.go:359-369 | In every run whose settlement commit fails, or whose process dies before it, the round is settled and no cash-out of it is ever paid. |
| `Cases.MarkedButRolledBack` | internal/engine/engine.go:359-364 | And so in every run in which the mark is carried out but reported as failed. |
| `Cases.SettledYetUnpaid` | internal/engine/engine.go:359-369 | A run in which this happens: 107 announced, round settled, never paid. |
| `Reveal.RevealMatchesCommit` | internal/engine/engine.go:463-491 | Over every run, failed round creations and restarts included: what a crashed snapshot reveals verifies against the hash any betting or flying snapshot of the round showed, and under a collision-free hash nothing else does. |
| `Reveal.HiddenUntilCrash` | internal/engine/engine.go:485-489 | No snapshot of a run taken outside Crashed shows the crash point or the salt. |
| `Reveal.RowVerifiesIff` | internal/engine/engine.go:148-165 | The stored round row verifies if and only if the hash update went through and the crash point fits 32 bits. |
| `Cases.NarrowedRowFails` | internal/engine/engine.go:148-152 | Every round opened with a crash point of 2^31 or more leaves a row that does not verify. |
| `Cases.HighestRollIsNarrowed` | internal/engine/fair.go:32-36 | The highest roll gives such a round, reachable from the start. |
| `Cases.UnpublishedRowFails` | internal/engine/engine.go:161-165 | And so does every round whose hash update fails. |
| `Reveal.RunKeeps` | internal/engine/engine.go:463-491 | Invariant of every run: frames show the hash of their round's draw, and the frames of one process never go back in round or state. |
| `Rounds.PositionOrder` | internal/engine/round.go:8-14 | The order that frames keep: later rounds come later, and within a round betting, flying, crashed, given up. |
| `Secrecy.DrawIsSecret` | internal/engine/engine.go:263-299 | Two runs whose draws hash alike are indistinguishable — same snapshots, seats, cash-outs, balances and bet rows — under any commands, logins and database outcomes up to the first tick that reaches the smaller crash point. |
| `Secrecy.RunLooksSame` | internal/engine/engine.go:463-491 | The same from any pair of states that differ only in an unrevealed draw. |
| `Auth.LoginsIgnoreTables` | internal/auth/identity.go:61-113 | No login step reads or writes rounds or bets: it commutes with any change of those tables. |
| `Sessions.SessionsExclusive` | internal/auth/identity.go:61-113 | Over every interleaving of logins, logouts, engine steps and restarts: no two attempts share a key, no two players share one, an attempt about to create a player finds none, and no player is credited twice on a date. |
| `Sessions.NextKeeps` | internal/auth/identity.go:61-97 | Each locked section or statement of a login keeps reservations, players and credit dates consistent. |
| `Sessions.InsertKeeps` | internal/auth/identity.go:99-112 | An attempt that found no player may still create one: no other attempt with the key can have come in between. |
| `Managers.Manager.Login` | internal/auth/identity.go:61-90 | Login as code: turned away if and only if the key is taken; an error only if a lookup or creation was reported as failed; whoever gets in holds the key's only reservation, plays with its only player, new if and only if the key was unknown, and has the day's credit unless that statement was reported as failed. |
| `Admission.AdmittedIff` | internal/auth/identity.go:61-113 | A whole login with any steps of other sessions in between: on a free key it gets in if and only if the lookup and, for a new key, the creation succeed; the balance is then the old or the starting one plus 1000 exactly if the credit was due and did not fail. |
| `Admission.ForeignRun` | internal/auth/identity.go:61-113 | While a session holds a key, no steps of other sessions touch the key's player. |
| `Admission.CreditsInNumbers` | internal/auth/identity.go:78-90 | A new player has 3000 credits after the first login, as many after another one that day, and 4000 after one on the next day. |
| `Managers.Manager.GetOrCreate` | internal/auth/identity.go:99-113 | getOrCreate as code, with the other sessions running between its two statements: an error if and only if one of them was reported as failed, and isNew exactly for an unknown key. |
| `Managers.Manager.CreatePlayer` | internal/auth/identity.go:107-112 | CreatePlayer never meets another row for the key. |
| `Managers.Manager.GrantDailyCredit` | internal/auth/identity.go:78-87 | The credit of Login as code: the player has it afterwards unless the statement failed. |
| `Managers.Manager.Logout` | internal/auth/identity.go:92-97 | Logout frees exactly this key and changes nothing else. |
| `Mailbox.DropsOnlyStale` | internal/engine/engine.go:444-461 | Over every interleaving with the receiver: the queue is a contiguous run of at most 4 frames, received frames strictly increase, and when sendTo has returned the newest frame is last in the queue or already received. |
| `Mailbox.RetryAlwaysSends` | internal/engine/engine.go:456-459 | The third select of sendTo never falls through to its default. |
| `Mailbox.OnlyTheOldestIsDropped` | internal/engine/engine.go:450-455 | No step takes a frame from the receiver but the second select, and that takes only the oldest one. |
| `Mailbox.LosesOnePerOverrun` | internal/engine/engine.go:444-461 | Over every interleaving at most as many frames are lost as sends have found the channel full. |
| `Mailbox.SendAloneDropsIff` | internal/engine/engine.go:444-461 | With nobody receiving, sendTo adds the frame and drops the oldest one if and only if there were four. |
| `Subscribers.Subscriber.SendTo` | internal/engine/engine.go:444-461 | sendTo as code, with the receiver running between its selects: afterwards the frame is last in the channel or the last one received. |
| `Subscribers.Subscriber.Receive` | internal/engine/engine.go:81-92 | A receive takes the oldest frame of the channel. |
| `Client.ParseValues` | internal/tui/bet.go:92-108 | Exactly which forms are accepted, and that the bet is the typed amount, 1 to maxBet, and the typed target in hundredths, cut off, at least 101; or 0 where the field is blank. |
| `Client.RefusedBecause` | internal/tui/bet.go:92-108 | Which of the three errors a refused form shows. |
| `Client.SentExactly` | internal/tui/game.go:30-83 | What each input sends, exactly: Enter in an open window, a betting frame with a queued bet, space in flight, and nothing else. |
| `Client.FlagsAfter` | internal/tui/bet.go:112-152 | A bet that has gone out is placed and no longer queued; a refused one shows its error and is not queued either; Enter queues what it does not send. |
| `Client.FormKept` | internal/tui/bet.go:40-90 | What an input leaves alone, and what the maximum is after it. |
| `Typing.BetsWhatIsTyped` | internal/tui/bet.go:40-122 | What is typed is what is bet: typing the digits of n and a target and pressing Enter in an open window sends a bet of n at that target in hundredths if and only if both are within bounds. |
| `Typing.TypedNumber` | internal/tui/bet.go:70-80 | The decimal text of n typed into the empty amount is parsed as n. |
| `Typing.TypesTarget` | internal/tui/bet.go:70-88 | Digits with at most one point typed into the target are appended to it as they are. |
| `Typing.KeysUndo` | internal/tui/bet.go:47-69 | Backspace takes back the key before it, and tab moves to the other field and back. |
| `Client.OneBetPerRound` | internal/tui/game.go:30-69 | For every key sequence and every thinned stream of ordered frames the client sends at most one bet per round it shows. |
| `Client.PlacedIsRightIff` | internal/tui/game.go:30-45 | On the first frame of a round that reaches the screen, of whatever state, "bet placed" is true to that round if and only if not: the flag was up and the frame is not of the betting window, or the screen showed a betting window already, or a queued bet was just rejected. |
| `Client.FlagKeptWithinRound` | internal/tui/game.go:52-83 | No key, refreshed profile or later frame of the same round makes a right flag wrong or a wrong one right. |
| `Client.PlacedOutlivesAMissedWindow` | internal/tui/game.go:30-45 | Keys and frames that end with the flag up in a round of which no betting frame got through. |
| `Client.PlacedOutlivesItsRound` | internal/tui/game.go:34-45 | Keys and frames that end with the flag up and no bet sent for the round on the screen. |
| `Client.QueuedOutlivesItsRound` | internal/tui/game.go:34-45 | And some that leave a queued bet waiting through a new betting window. |
| `Cases.BettingFollowsBetting` | internal/engine/engine.go:206-257 | The engine does send such frames: after a failed takeoff the next broadcast is the next round's betting window. |
| `Cases.TwoBettingWindows` | internal/engine/engine.go:126-137 | A run from the start that broadcasts the betting windows of rounds 1 and 2 with nothing in between. |
| `Client.QueuedBetGoesOutIff` | internal/tui/game.go:34-45 | A betting frame sends a bet if and only if the screen was not in a betting window, one is queued and the form is still good against the login balance, with exactly the form's values; after Esc none goes out. |
| `Client.AmountRejectedIff` | internal/tui/bet.go:91-99 | Whatever has been typed, the amount is refused as no number if and only if it is blank, zero or beyond an int64. |
| `EndToEnd.AtMostOneBet` | internal/tui/bet.go:112-152 | For every run, every in-order selection of the process's broadcasts and all keys in between: at most one bet per round id. |
| `Audit.SessionBetsOnce` | internal/engine/engine.go:435-461 | Derived for the engine object: whatever a subscriber's mailbox has handed out is such a selection, so the session sends at most one bet per round id. |
| `Audit.EngineDelivers` | internal/engine/engine.go:429-461 | What a subscriber is sent by the engine object: the snapshot of its subscription and every broadcast since, in order, once each, and nothing else. |
| `Games.GameModel.OnSnapshot` | internal/tui/game.go:30-50 | onSnapshot as code does what the reducer says. |
| `Games.GameModel.AutoSubmitQueue` | internal/tui/bet.go:138-152 | autoSubmitQueue as code does what the reducer says. |
| `Games.GameModel.SubmitNow` | internal/tui/bet.go:112-122 | submitNow as code does what the reducer says. |
| `Games.GameModel.QueueForNextRound` | internal/tui/bet.go:126-134 | queueForNextRound as code does what the reducer says. |
| `Games.GameModel.OnEnter` | internal/tui/game.go:61-69 | The enter branch submits or queues as the reducer says. |
| `Games.GameModel.OnSpace` | internal/tui/game.go:56-60 | The space branch sends a cash-out while flying and nothing otherwise. |
| `Display.ShownIsLowerBound` | internal/tui/game.go:148-161 | Whatever flying snapshot of the round is on the screen, however stale, a manual cash-out accepted later pays at least the total shown, for every stake that fits (amount × Top < 2^63). |
| `Display.ShownValues` | internal/tui/game.go:148-161 | Total and profit on the screen: the stake's share of the multiplier shown, which after the crash is the crash point, less the stake; nothing for a player without a bet. |
| `Server.Participant.SettleCashout` | internal/engine/engine.go:302-307 | settleCashout as code: the seat becomes cashed out at that multiplier, with the wrapped product divided by 100. |
| `Server.Engine.TakeSnapshot` | internal/engine/engine.go:463-491 | snapshot as code, its loop in any map order: crash point and salt only after the crash. |
| `Server.Engine.Broadcast` | internal/engine/engine.go:435-442 | broadcast as code: every subscriber's mailbox is sent exactly the current snapshot and the engine state is untouched. |
| `Server.Engine.HandleCmd` | internal/engine/engine.go:388-427 | handleCmd as code is the machine's step for the command, whose effect Window.BetTakenIff, CashOutTakenIff and LastWordCounts spell out. |
| `Server.Engine.AutoCashouts` | internal/engine/engine.go:280-287 | The auto-cashout loop as code, in any map order, gives the order-free pass. |
| `Server.Engine.OnTick` | internal/engine/engine.go:271-297 | The tick branch as code is the machine's tick: the multiplier of Multiplier.CurveTruncates, the pass, then the crash check. |
| `Server.Engine.RunFlying` | internal/engine/engine.go:263-300 | runFlying as code: after the n picks of its select that it takes (all of them unless it has crashed) engine and broadcasts are exactly what the machine makes of those picks. |
| `Audit.EngineFlightPays` | internal/engine/engine.go:263-307 | So when the engine object has flown to the crash, every seat that was in holds the closed form of Flight.Outcome. |
| `Server.Engine.RevealOutcome` | internal/engine/engine.go:309-314 | revealOutcome as code is the machine's reveal step. |
| `Server.Engine.CommitBetsAndTakeoff` | internal/engine/engine.go:194-261 | commitBetsAndTakeoff as code: without bets it flies; with bets it flies if no statement has been reported as failed and gives up at the first that has. |
| `Server.Engine.CommitBet` | internal/engine/engine.go:215-244 | Its loop body: debit, then bet row and id; rollback to Idle if and only if one of them is reported as failed. |
| `Server.Engine.TakeoffEmpty` | internal/engine/engine.go:195-204 | Without bets the round flies even if the write of its state fails. |
| `Server.Engine.SettleOne` | internal/engine/engine.go:326-357 | The loop body of runSettle: skip, credit and settle, or settle without payout; rollback to Idle if and only if a statement is reported as failed. |
| `Server.Engine.SendCommit` | internal/engine/engine.go:253-257 | COMMIT with its three outcomes: done, failed, and reported as failed though carried out. |
| `Server.Engine.StartRound` | internal/engine/engine.go:139-170 | startRound as code is the machine's start step for some draw and outcome, failed creation and failed hash update included. |
| `Server.Engine.RunSettle` | internal/engine/engine.go:316-386 | runSettle as code: if no statement of the transaction is reported as failed the settle pause is reached, and then the next round unless nobody is subscribed or its creation fails; the first failure ends in Idle. |
| `Server.Engine.WaitForSubscribers` | internal/engine/engine.go:126-137 | waitForSubscribers as code: takes picks up to the first subscription, which starts a round, and only then; all others are recorded and change nothing. |
| `Server.Engine.RunBetting` | internal/engine/engine.go:172-192 | runBetting as code: every pick up to the end of the window is the machine's event, the end of the window is a takeoff, and Idle means a failure was reported. |
| `Server.Engine.RunLoop` | internal/engine/engine.go:111-124 | runLoop as code takes exactly the given picks, in order, and is at every return in the state that the machine reaches on these inputs and the failures the database has reported, none made up. |
| `Restarts.RestartIsARun` | internal/engine/engine.go:67-79 | A process started on the tables that an earlier run has left goes through a run of the system, but for the record of earlier broadcasts. |
| `Restarts.DeathLeaves` | internal/engine/engine.go:67-79 | The death of a process leaves the tables and nothing else: no round, bet, subscriber or login. |
| `Audit.EngineKeepsItsBooks` | internal/engine/engine.go:48-79 | So an engine object, of the first process or any later one, always balances its books, has its rows in order and its seats decided by its flight. |
| `Audit.EnginePays` | internal/engine/engine.go:316-375 | When RunSettle has returned with a settlement, every player who had cashed out has the payout in the bet row, then and at any later time. |
| `Databases.Database.CreateBet` | migrations/0001_init.up.sql:21-31 | CreateBet succeeds only for a known player and round without a bet of that player; the id is new and the row joins the open transaction. |
| `Databases.Database.Commit` | internal/engine/engine.go:253-257 | COMMIT applies every pending write at once or none, whatever is reported. |
| `Auth.PlayerOf` | internal/db/players.sql.go:69-71 | The row found by fingerprint carries that fingerprint. |

## Left out

- EndToEnd.AtMostOneBet: is about one session of one process; nothing in the program stops a player from betting
  again after the key has logged out and in, and then the engine drops the second bet (`Flight.FirstBetStands`).
- Client.ParseValues: the auto-cashout text is read by a function parameter as a real number; binary rounding
  before `int(f * 100)` and numbers beyond an int64 are not modelled.
- Server.Engine.StartRound: the insertion of the round and the update of its hash are one step of the machine;
  no other session reads the row in between.
- Server.Engine.AddSubscriber: the channel is made when the subscription is handled, not by the session, and
  subscriptions are not tied to the login that issued them.
- Server.Engine.RunLoop: it is given the finite sequence of picks its selects make instead of running for ever;
  a pick that the current select does not offer is passed over.
- The mutex around the subscribers: only the engine goroutine touches them here.
- The nil check of sendTo: a map of subscribers never yields nil here.
- Display names, the hidden flag and timestamps of players, the order of participants, and overflow of a BIGINT
  balance.
- Leaderboard, history, settings and welcome screens, graphs and all rendering.
- The SSH server, Bubble Tea plumbing, configuration, migrations runner and deployment files.
- Postgres internals: tables are maps with increasing ids, statements are atomic, and commits apply all pending
  writes or none.
- Wall-clock timing: the ticker, the betting countdown and the settle pause are events that may come at any
  time.
