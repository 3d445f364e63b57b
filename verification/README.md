# Infinity Radius: the money engine, proved

A Dafny model of the part of `apps/api` that holds other people's money: a tenant's five-bucket
wallet with its append-only ledger, the withdrawal lifecycle, customer payments and the access they
buy. Two smaller stateful pieces are beside it: the replay guard of signed requests and the two
RADIUS provisioning implementations.

## How it is organised

| files | content |
|---|---|
| `Basics`, `Money`, `Records` | results and list sums; rounding and commission; rows and status vocabularies |
| `WalletRules`, `PayoutRules`, `PaymentRules` | what each operation does to the database, as functions |
| `WalletService`, `PayoutService`, `PaymentServices`, `Backend` | the services as classes that update a `Database` in place, each method proved equal to its rule, and `Api.Handle`, which commits or rolls back |
| `WalletEffects`, `PayoutEffects`, `PaymentEffects` | each rule read back field by field, in the terms of its inputs and rows alone: exactly when it goes through, and everything it changes |
| `Books`, `Lifecycle`, `Sales`, `Invariants` | why balances, withdrawals and payments are what they are; the writes that keep it so |
| `Platform` | the state machine: every call, in any order, with any provider answer; every run keeps the invariants |
| `WalletTheorems`, `PayoutTheorems`, `PayoutResults`, `OneTimeCodes`, `DailyLimits`, `PaymentTheorems`, `CommissionTheorems`, `Isolation` | the guarantees over whole runs |
| `StuckStates` | runs from the empty database into the states where a guarantee one might expect fails |
| `ReplayGuard`, `Radius` | the two smaller pieces |

A run is any sequence of calls. Each call carries the settings in force and the clock it reads, and
everything a provider, a mailbox or the network contributes is an arbitrary input of the call. A
service method that raises leaves the database as it was, by a real snapshot and restore
(`Backend.Api.Handle`), while calls already made to the provider stay made (`Gateway.calls`). The
chain is: a service method equals its rule; the rule is characterised by its effects, without its own helpers; a call of `Api.Handle` is one step of `Platform.StepDb`;
`Platform.Next` adds to that step which failure markers are due, and ignores one that is not; and the
theorems quantify over `Platform.Run`, the runs of `Next`.

## What was found

- The wallet model documents a balance as ledger credits minus debits (`apps/api/app/models/finance.py:141-148`).
  Settling, reserving, releasing and half of completing and reversing write no ledger entry, so that
  equation fails at the first settlement (`LedgerAloneFails`). It holds exactly when the other sources
  cancel (`LedgerAloneIff`); the equations the code does keep are `BalancesReconstructed`.
- SUCCESS is listed as terminal (`apps/api/app/core/enums.py:245-254`) but a reversal takes it to REVERSED.
  Every other listed status is final (`EndedStaysEnded`).
- When the account lookup cannot be reached, a withdrawal is left in APPROVED, and no call ever moves it
  again (`LeftApprovedIff`, `ApprovedNeverMoves`, `HeldMovesIffNotApproved`). A credit, a request and a
  confirmation lead there (`ApprovedCanStick`).
- A manual debit of the reserved bucket can make a hold impossible to release or complete (`HoldMovesIff`
  says exactly when); a credit, a request and a debit of one cent lead there (`HoldCanStick`). A provider's
  decisive reply is then lost, because the call that hears it raises and rolls back (`ReportLostIff`).
- In the same state the wrong guess that should cancel a withdrawal raises instead, and its rollback takes
  back the counted attempt (`GuessLostIff`). Such lost guesses are the only exception to the bound on wrong
  codes (`OtpGuessBound`), and they have no bound: a run of the empty database compares any number of wrong
  codes with one attempt and one send allowed (`GuessesAreUnbounded`).
- A code compared against another address than the one it was sent to is refused without counting an attempt
  (`apps/api/app/services/two_factor.py:96-97`); no comparison is made, so it is not a guess.
- A request is stored on the day its database transaction started (`apps/api/app/models/mixins.py:24-29`) and
  checked against the day it reads the clock (`apps/api/app/services/payouts.py:349-352`). One that crosses
  midnight is checked against the new day and counted on the old one, so requests made one at a time can
  exceed a daily limit (`DailyLimitsCanFail`). What crossed midnight is all that a day can exceed its limits
  by (`DayTotalBounded`); without such a request they hold (`DailyLimitsHold`).
- Activation is documented to only ever grant access (`apps/api/app/services/captive_activation.py:19-24`,
  `apps/api/app/tasks/captive_activation.py:14-18`). The failure marker is written in a second transaction
  that does not look at the status again, so an ACTIVE payment can be marked FAILED (`ActiveCanBeUndone`).
  ACTIVE lasts exactly when no failed attempt still has its marker to write (`ActiveLastsIff`).
- A repeated payment request on one session is documented to get its original attempt back
  (`apps/api/app/services/captive_portal.py:286-290`). Opening the attempt spends the session, so a request
  that comes after it is refused as expired (`RepeatedRequestRaises`) and never gets that far
  (`DuplicateIsNeverReached`).
- The Network Agent's configuration calls a nonce lifetime of twice the allowed skew enough
  (`apps/network-agent/app/core/config.py:36-38`). An entry is dropped when its expiry is reached, and the
  nonce is looked at only after the body has been awaited, so the lifetime has to be strictly greater than
  twice the skew and that delay together (`ReplaySafeIff`, `ReplaySafeInSeconds`). The agent's defaults are
  not safe for any delay, the backend's are for delays under two minutes (`Defaults`).
- Nothing in the service keeps a reviewer from approving their own request
  (`apps/api/app/services/payouts.py:694-720`), so no such property is stated.

## Reading the model

- Money is an integer number of cents and a rate an integer number of hundredths of a percent, so fee
  arithmetic is exact. An amount reported by a provider that is not a whole number of cents equals no
  stored amount (`FractionOfCent`). Time is an integer number of microseconds.
- One service call is one atomic step under its row lock, and a locked read returns the current row. A
  call reads the clock once, except that a confirmation reads it again after comparing the code, and that a
  request's transaction has been open for some time when it does (`waited`).
- A row's id is its position in its table; the database starts empty. A tenant without a wallet row has the
  empty one that would be created for it.
- Keyed hashes of codes, and formatted RADIUS values, are injective functions of what goes into them.
- `record_failure` runs only after an activation attempt that failed, possibly long after: between the two
  transactions any other calls may run, and `World.unmarked` holds the markers still to be written.
- What an activation attempt finds when it looks up the customer and the package, and whether provisioning
  works, are inputs of the attempt (`Attempted`).
- A request's clock is read twice by the replay guard, for its window and for its nonce (`Arrival`).

## Model

| member | source | states |
|---|---|---|
| `WalletTheorems.BalancesReconstructed` | apps/api/app/services/wallet.py:84-401 | In every reachable state all five balances are non-negative and each is exactly what the ledger, the settlement logs and the withdrawals' statuses together say |
| `WalletTheorems.MoneyConservedAlways` | apps/api/app/services/wallet.py:98-401 | Over every run the five buckets together hold the shares and adjustments that came in less the refunds and reversals that went out; settling, holding, paying out and reversing create nothing |
| `WalletTheorems.LedgerAloneIff` | apps/api/app/models/finance.py:141-148 | The documented ledger equation holds for a bucket exactly when settlements and withdrawal statuses cancel out for it |
| `WalletTheorems.LedgerAloneFails` | apps/api/app/services/wallet.py:216-246 | From any state that satisfies the documented equation, one credit and its settlement break it by the settled amount in both buckets |
| `WalletTheorems.LedgerAloneFailsFrom` | apps/api/app/services/wallet.py:175-246 | The two calls that break the documented equation always go through |
| `WalletTheorems.HoldMovesIff` | apps/api/app/services/wallet.py:261-305 | Releasing or completing a held withdrawal succeeds if and only if adjustments of reserved have left enough for it |
| `WalletTheorems.HoldsNeverStick` | apps/api/app/services/wallet.py:261-305 | With adjustments of reserved not net negative, no release or completion of a hold ever raises |
| `WalletTheorems.ReversalMovesIff` | apps/api/app/services/wallet.py:307-337 | Reversing a success succeeds if and only if adjustments of total_disbursed have left enough for it |
| `WalletTheorems.ReversalsNeverStick` | apps/api/app/services/wallet.py:307-337 | With adjustments of total_disbursed not net negative, every success can be reversed |
| `WalletTheorems.DisbursedExactlyOnce` | apps/api/app/services/wallet.py:275-337 | Over every run a withdrawal has one DISBURSEMENT entry of its principal iff it succeeded, followed by one reversal entry iff it was reversed, and otherwise none |
| `WalletTheorems.LedgerOnlyGrows` | apps/api/app/services/wallet.py:129-161 | Later states extend the ledger and the settlement logs of earlier ones: no entry is rewritten or removed |
| `Books.HoldEquations` | apps/api/app/services/wallet.py:248-337 | Reserved is the sum of the holds and total_disbursed the sum of the successes that stand, each off by exactly its manual adjustments |
| `Books.ShiftKeepsBooks` | apps/api/app/services/payouts.py:273-303 | A status change with its wallet move leaves every bucket of every tenant still explained by the four sources |
| `Isolation.StepIsLocal` | apps/api/app/services/wallet.py:77-96 | A call changes the wallet, new entries and logs, withdrawals and their events, payments, subscriptions and terms of one tenant at most: the one it names or whose row it names |
| `Isolation.OthersLeaveATenantAlone` | apps/api/app/services/wallet.py:77-96 | Over every run without a call about a tenant, its balances, entries, logs, rows and events are exactly as they were |
| `Platform.NextKeeps` | apps/api/app/services/wallet.py:84-96 | Every call, failure markers that are due included, from any state with the invariants, leaves a state that has them, with tables that only grew and rows that only moved on |
| `Platform.RunKeeps` | apps/api/app/services/captive_activation.py:180-256 | So does every run, including failure markers written after arbitrary other calls |
| `Backend.Api.Handle` | apps/api/app/services/captive_activation.py:233-256 | A committed call leaves the specified state, a raising one the state before it, and the provider's call log keeps what was sent either way |
| `Money.QuantizeRounds` | apps/api/app/core/money.py:27-31 | The result is the nearest cent, and of two equally near the one further from zero |
| `Money.QuantizeUnique` | apps/api/app/core/money.py:27-31 | No other integer is a correct rounding, so the meaning of ROUND_HALF_UP determines the value |
| `Money.FeeSplit` | apps/api/app/services/wallet.py:119-122 | For every positive gross and rate from 0 to 100 percent, the fee lies between nothing and the gross and within half a cent of the exact commission |
| `Money.FeeMonotone` | apps/api/app/services/wallet.py:119-122 | A larger payment or a higher rate never pays a smaller fee |
| `Money.FeesDrift` | apps/api/app/services/wallet.py:119-122 | Over any n collections at any rates the fees are within n/2 cents of the exact commission |
| `CommissionTheorems.FeesOverRuns` | apps/api/app/services/wallet.py:119-161 | Over every run the PLATFORM_FEE entries of the ledger add up to the fees of one sale per completed payment, at one of its tenant's rates, within half a cent a payment of the exact commission |
| `WalletServices.WalletService.LockedWallet` | apps/api/app/services/wallet.py:64-82 | The tenant has a wallet row afterwards, with its own balances or empty, and nobody else's changed |
| `WalletServices.WalletService.MoveBucket` | apps/api/app/services/wallet.py:84-96 | Exactly one bucket moves by exactly the delta, or the call raises and nothing moves because that bucket would go negative |
| `WalletServices.WalletService.ProcessCollection` | apps/api/app/services/wallet.py:98-173 | Done step by step, crediting reaches the specified state: three entries and the share in pending, or the specified error |
| `WalletServices.WalletService.CreateAdjustment` | apps/api/app/services/wallet.py:175-214 | Adjusting reaches the specified state, or the specified error for a non-positive amount, a blank reason or a bucket that would go negative |
| `WalletServices.WalletService.SettlePending` | apps/api/app/services/wallet.py:216-246 | Settling moves the given or the whole pending amount to available with one settlement log and no ledger entry, or raises as specified |
| `WalletServices.WalletService.ReserveForWithdrawal` | apps/api/app/services/wallet.py:248-259 | Two single-bucket moves come to one specified hold, or raise |
| `WalletServices.WalletService.ReleaseReservation` | apps/api/app/services/wallet.py:261-273 | Two single-bucket moves come to one specified release, or raise |
| `WalletServices.WalletService.CompleteDisbursement` | apps/api/app/services/wallet.py:275-305 | The hold leaves reserved for total_disbursed with one entry that carries the new balance, or raises as specified |
| `WalletServices.WalletService.ReverseDisbursement` | apps/api/app/services/wallet.py:307-337 | The principal leaves total_disbursed for available with one entry that carries the new balance, or raises as specified |
| `WalletServices.WalletService.RecordRefund` | apps/api/app/services/wallet.py:339-369 | A refund leaves available with one entry, or raises as specified |
| `WalletServices.WalletService.RecordReversal` | apps/api/app/services/wallet.py:371-401 | A reversal leaves pending with one entry, or raises as specified |
| `WalletEffects.CollectionEffect` | apps/api/app/services/wallet.py:98-173 | A credit goes through exactly for a positive gross and a configured rate, and writes exactly the gross, the fee and the share with its new balance, of which only the share moves pending |
| `WalletEffects.AdjustmentEffect` | apps/api/app/services/wallet.py:175-214 | An adjustment goes through exactly for a positive amount, a reason that is not blank and a balance that stays non-negative, and moves that one bucket |
| `WalletEffects.SettlementEffect` | apps/api/app/services/wallet.py:216-246 | The given amount, or all of pending, moves to available exactly when it is positive and covered |
| `WalletEffects.ReserveEffect` | apps/api/app/services/wallet.py:248-259 | A hold is taken exactly for a positive amount that available covers |
| `WalletEffects.ReleaseEffect` | apps/api/app/services/wallet.py:261-273 | A hold is released exactly for a positive amount that reserved covers |
| `WalletEffects.DisbursementEffect` | apps/api/app/services/wallet.py:275-305 | A hold is paid out exactly when reserved covers it, with one entry of that amount and the new total |
| `WalletEffects.DisbursementReversalEffect` | apps/api/app/services/wallet.py:307-337 | A disbursement is returned exactly when total_disbursed covers it, with one entry of that amount and the new balance |
| `WalletEffects.RefundEffect` | apps/api/app/services/wallet.py:339-369 | A refund debits available by its amount, exactly when covered, with one entry of that amount and the new balance |
| `WalletEffects.ReversalEffect` | apps/api/app/services/wallet.py:371-401 | A reversal debits pending by its amount, exactly when covered, with one entry of that amount and the new balance |
| `WalletServices.CommercialTermsService.SetCommissionRate` | apps/api/app/services/commercial_terms.py:35-76 | The active row found by the scan is the one switched off, and the new row is appended, or an impossible rate raises |
| `WalletRules.SetCommissionRateEffect` | apps/api/app/services/commercial_terms.py:35-76 | The new rate is in force, other tenants keep theirs, recorded rates are unchanged and one row per tenant stays active |
| `WalletRules.ActiveRateFinds` | apps/api/app/services/commercial_terms.py:23-33 | The rate in force exists exactly when the tenant has an active row, and is that row's |
| `PaymentTheorems.RateInForceIsLastSet` | apps/api/app/services/commercial_terms.py:35-76 | Over every run a tenant has at most one active row and the rate in force is the last acceptable one set |
| `PaymentTheorems.RatesAreHistory` | apps/api/app/services/commercial_terms.py:35-76 | No run rewrites a recorded rate |
| `PayoutResults.FirstDecisiveResultWins` | apps/api/app/services/payouts.py:995-1140 | Over every run from the start, counting what the submission itself hears and every later report: the first refusal or fully matching success decides for good; without one a transferred withdrawal is AMBIGUOUS iff some report was unknown or did not match, and else PROCESSING; one never transferred is neither in flight nor disbursed |
| `PayoutResults.SuccessWasExplained` | apps/api/app/services/payouts.py:1021-1110 | No withdrawal is ever disbursed, at submission or later, unless a provider reply reported success with its own transId and currency, or none, and an explained amount, or none |
| `PayoutResults.ReportedSuccessDecides` | apps/api/app/services/payouts.py:1021-1110 | A success reported of a withdrawal in flight, by its submission or later, ends it in SUCCESS and disburses the principal if its transId and currency are its own or absent and its amount is absent, the principal, or the principal with the stored charge; any other leaves it AMBIGUOUS and moves no money |
| `PayoutEffects.ReplyEffect` | apps/api/app/services/payouts.py:995-1140 | Each of the four outcomes, field by field: the status, the event, the entry and the balances it changes, and when it raises |
| `PayoutResults.InFlightStep` | apps/api/app/services/payouts.py:995-1019 | In flight only a report moves a row, and nothing of it but its status |
| `PayoutResults.TransferStep` | apps/api/app/services/payouts.py:950-993 | A committed transfer leaves PROCESSING moved by what the submission heard: the transfer's answer, or the query's when the transfer got none |
| `PayoutResults.TransferIff` | apps/api/app/services/payouts.py:850-948 | The transfer is asked for, with the withdrawal's key and amount, if and only if the call goes on to submit, both gates are open, the destination is complete and the lookup found a named account |
| `PayoutResults.TransferIs` | apps/api/app/services/payouts.py:928-993 | What the submission stores before it asks: PROCESSING, the verified name, the charge, the reviewer or the confirmation, two events and no money; what follows is what the transfer answers |
| `PayoutResults.NotTransferredOutcome` | apps/api/app/services/payouts.py:850-926 | Without a transfer an unreachable lookup leaves APPROVED, an unexpected fault raises, and any other reason fails the withdrawal and releases its hold |
| `PayoutResults.ReportLostIff` | apps/api/app/services/payouts.py:995-1140 | The call that hears a report raises, and the report is lost, exactly when it would end a withdrawal whose hold reserved no longer covers |
| `PayoutResults.EveryReportCounts` | apps/api/app/services/payouts.py:995-1140 | While reserved covers the hold no report is lost, so the verdict is that of everything reported |
| `PayoutResults.CoveredUnlessAdjusted` | apps/api/app/services/wallet.py:248-305 | Reserved covers every hold while its manual adjustments are not net negative |
| `PayoutTheorems.PayoutSubmittedOnce` | apps/api/app/services/payouts.py:850-993 | Among committed steps the transfer is called at most once per withdrawal; all calls, rolled back or not, carry that withdrawal's own transId and amount, and no two withdrawals share a transId |
| `PayoutTheorems.CallEffect` | apps/api/app/services/payouts.py:850-993 | A step calls the transfer at most once, for a row not yet submitted, and that row is submitted if the step commits |
| `OneTimeCodes.OtpGuessBound` | apps/api/app/services/payouts.py:451-495 | Over a withdrawal's whole life, of all codes compared, whether or not their calls committed, at most max_sends * (max_attempts - 1) + 1 plus the lost guesses are wrong; a DRAFT at rest always has an attempt left |
| `OneTimeCodes.OtpGuessBoundWhenCovered` | apps/api/app/services/two_factor.py:72-106 | While reserved covers the hold at every last guess, at most max_sends * (max_attempts - 1) + 1 compared codes are wrong |
| `OneTimeCodes.GuessLostIff` | apps/api/app/services/payouts.py:646-690 | A wrong guess raises, and goes uncounted, exactly when it is the last one and reserved no longer covers the hold |
| `OneTimeCodes.LostGuessRepeats` | apps/api/app/services/payouts.py:646-690 | A lost guess leaves everything as it was, so it can be repeated any number of times |
| `StuckStates.GuessesAreUnbounded` | apps/api/app/services/payouts.py:646-690 | For every n, a run from the empty database with one attempt and one send allowed compares n wrong codes for one withdrawal |
| `OneTimeCodes.ExhaustionCancels` | apps/api/app/services/payouts.py:606-690 | Whenever the requester's code is not accepted, compared or not: if the attempts are then used up or the code has expired, the withdrawal is cancelled and its hold is back in available, unless reserved no longer covers it, which raises; otherwise the DRAFT and its hold stay and only a wrong guess is counted |
| `OneTimeCodes.OnlyLastCodeConfirms` | apps/api/app/services/two_factor.py:84-106 | Over every run only the requester, with the last code sent, to the address it went to, within its lifetime and attempts, gets a withdrawal past DRAFT; where review follows, that always works |
| `PayoutResults.ConfirmedForReview` | apps/api/app/services/payouts.py:606-641 | The right code where review follows dates the confirmation, moves the row to PENDING_APPROVAL with one event by the requester, and changes nothing else |
| `PayoutEffects.RequestEffect` | apps/api/app/services/payouts.py:499-602 | A request goes through exactly when everything is in place, its amount is allowed, its day has room, available covers it and its key is new; the stored row, its challenge, its event and the hold are given field by field |
| `PayoutEffects.ResendEffect` | apps/api/app/services/payouts.py:451-495 | Only the requester is sent another code, for a DRAFT, after the cooldown and within the number of sends; the whole new challenge is given |
| `PayoutEffects.CancelEffect` | apps/api/app/services/payouts.py:752-775 | Only the requester cancels, exactly from DRAFT and PENDING_APPROVAL while reserved covers the hold |
| `PayoutEffects.RejectEffect` | apps/api/app/services/payouts.py:722-750 | A rejection needs a reason, records the one who gave it, and releases the hold |
| `PayoutEffects.ReverseEffect` | apps/api/app/services/payouts.py:777-807 | A reversal needs a reason and a success that total_disbursed covers, and returns the principal |
| `OneTimeCodes.ResendsAreSpaced` | apps/api/app/services/payouts.py:451-495 | Two codes for one withdrawal are never sent within the cooldown |
| `DailyLimits.DailyLimitsHold` | apps/api/app/services/payouts.py:320-363 | With the limits fixed and no committed request across midnight, for every tenant and UTC day, the day's withdrawals that were not voided stay within both limits in every later state too |
| `DailyLimits.DayTotalBounded` | apps/api/app/repositories/finance.py:218-242 | Over every run, with one of the limits fixed, a day's withdrawals that were not voided stay within it but for what was requested across midnight and stored on that day |
| `DailyLimits.FullDayRefuses` | apps/api/app/services/payouts.py:346-363 | A request is refused when what its tenant has stored since the start of the day it reads the clock on, and not voided, leaves no room under the sum or the count |
| `DailyLimits.WithinLimitsIff` | apps/api/app/services/payouts.py:320-363 | A request is within the limits if and only if it is between the smallest and the largest amount and that day, counted in microseconds, has room for it |
| `StuckStates.DailyLimitsCanFail` | apps/api/app/models/mixins.py:24-29 | From the empty database, a credit and two requests one after the other, the second across midnight, put two withdrawals and twice the limit on a day that allows one |
| `PayoutTheorems.RequestsFit` | apps/api/app/services/payouts.py:499-602 | With the settings fixed, every withdrawal ever stored is within the amount limits and needs review exactly when over the threshold |
| `PayoutTheorems.HistoryReplays` | apps/api/app/services/payouts.py:273-303 | Every event log replays to the current status along allowed edges; past DRAFT the code was confirmed; review was visited exactly when required, and then has a reviewer |
| `PayoutTheorems.EndedStaysEnded` | apps/api/app/core/enums.py:245-254 | An ended withdrawal never changes again, whatever runs, except that a success may become REVERSED and nothing else |
| `PayoutTheorems.ApprovedNeverMoves` | apps/api/app/services/payouts.py:918-924 | Once at rest in APPROVED a withdrawal is never changed by any run |
| `PayoutTheorems.LeftApprovedIff` | apps/api/app/services/payouts.py:850-993 | A call leaves a withdrawal at rest in APPROVED if and only if it is the right confirmation without review, or an approval, whose gates are open and whose lookup cannot be reached; it commits and moves no money |
| `StuckStates.ApprovedCanStick` | apps/api/app/services/payouts.py:918-924 | A credit, a request and its confirmation lead from the empty database to a withdrawal that stays APPROVED over every further run |
| `StuckStates.HoldCanStick` | apps/api/app/services/payouts.py:752-775 | A credit, a request and a debit of one cent of reserved lead from the empty database to a DRAFT whose cancellation raises |
| `PayoutTheorems.HeldMovesIffNotApproved` | apps/api/app/services/payouts.py:752-775 | While reserved covers it, some call moves a held withdrawal if and only if it is not APPROVED |
| `PayoutServices.PayoutService.MatchProviderAmount` | apps/api/app/services/payouts.py:119-154 | An amount matches only as the principal, which is preferred, or as principal plus a stored non-negative charge |
| `PayoutServices.PayoutService.Transition` | apps/api/app/services/payouts.py:273-303 | The row takes the status, one event records where it came from, and nothing else changes |
| `PayoutServices.PayoutService.FailWithdrawal` | apps/api/app/services/payouts.py:305-316 | Releasing, then moving to FAILED, is one specified change of status |
| `PayoutServices.PayoutService.EnforceWithdrawalLimits` | apps/api/app/services/payouts.py:320-363 | Raises exactly when the request breaks one of the four limits |
| `PayoutServices.PayoutService.DailyTotals` | apps/api/app/repositories/finance.py:218-242 | One scan gives both sums over the tenant's rows since the start of the day that are not CANCELLED, REJECTED or FAILED |
| `PayoutServices.PayoutService.RequestWithdrawal` | apps/api/app/services/payouts.py:499-602 | Checks, hold, row, event and challenge come to the specified state, or the specified error, even those raised after the hold was taken |
| `PayoutServices.PayoutService.ResendOtp` | apps/api/app/services/payouts.py:451-495 | Reaches the specified new challenge, or the specified refusal |
| `PayoutServices.PayoutService.ConfirmTwoFactor` | apps/api/app/services/payouts.py:606-690 | Right code, wrong code and exhaustion each reach the specified state, with exactly the specified calls to the provider |
| `PayoutServices.PayoutService.ApproveWithdrawal` | apps/api/app/services/payouts.py:694-720 | Records the reviewer and submits, as specified, with exactly the specified calls |
| `PayoutServices.PayoutService.RejectWithdrawal` | apps/api/app/services/payouts.py:722-750 | Releases, records the reviewer and rejects as one specified change, or raises |
| `PayoutServices.PayoutService.CancelWithdrawal` | apps/api/app/services/payouts.py:752-775 | Cancels with release from the two cancellable statuses, or raises as specified |
| `PayoutServices.PayoutService.ReverseWithdrawal` | apps/api/app/services/payouts.py:777-807 | Reverses a success with its wallet move, or raises as specified |
| `PayoutServices.PayoutService.SubmitToSelcom` | apps/api/app/services/payouts.py:850-993 | Every gate, lookup and transfer answer reaches the specified state, with a transfer call exactly when all gates passed |
| `PayoutServices.PayoutService.ApplyProviderResult` | apps/api/app/services/payouts.py:995-1140 | Success, in progress, unknown and refusal each reach the specified state, and only in flight |
| `PayoutServices.PayoutService.ApplySuccess` | apps/api/app/services/payouts.py:1021-1110 | Three successive checks come to one: everything reported explains the withdrawal, or it becomes AMBIGUOUS |
| `PayoutServices.PayoutService.ReconcileLocked` | apps/api/app/services/payouts.py:1142-1178 | No answer changes nothing, an unexpected fault raises, an answer is applied |
| `PayoutServices.PayoutService.ReconcileWithdrawal` | apps/api/app/services/payouts.py:1180-1189 | Reaches the state the answer specifies, for a row that exists |
| `PayoutServices.PayoutService.ReconcileIfPending` | apps/api/app/services/payouts.py:1191-1210 | Reports whether it asked the provider, which it does exactly for rows in flight |
| `PayoutServices.PayoutService.ApplyDisbursementResult` | apps/api/app/services/payouts.py:1325-1366 | Settles a PROCESSING withdrawal without checking an amount, as specified, and no other |
| `PayoutServices.TwoFactorService.IssueChallenge` | apps/api/app/services/two_factor.py:53-70 | A new code replaces the old challenge entirely, with a fresh lifetime and no attempts used |
| `PayoutServices.TwoFactorService.Verify` | apps/api/app/services/two_factor.py:84-106 | True exactly for the right code in time, to the right address, with attempts left; an attempt is counted exactly when a wrong code was compared |
| `PaymentTheorems.FirstDecisiveEvidenceWins` | apps/api/app/services/selcom_payment_provider.py:336-502 | Over any run an open payment ends as its first fully matching COMPLETED or explicitly mapped terminal reply says, and stays open without one: AMBIGUOUS and REQUIRES_REVIEW never block it |
| `PaymentTheorems.CompletedIff` | apps/api/app/services/selcom_payment_provider.py:367-444 | A committed reply completes an open payment if and only if it says COMPLETED of its amount, and of its order and currency or of none; a COMPLETED of anything else leaves it AMBIGUOUS and changes nothing else |
| `PaymentEffects.CompletedReplyEffect` | apps/api/app/services/selcom_payment_provider.py:367-444 | What a COMPLETED reply credits, entry by entry, and when crediting raises |
| `PaymentEffects.OtherReplyEffect` | apps/api/app/services/selcom_payment_provider.py:446-502 | The status each of the nine mapped words leads to, the review of one that waits too long, and AMBIGUOUS for any other word; nothing else changes |
| `PaymentEffects.EndedHearsNothing` | apps/api/app/services/selcom_payment_provider.py:365-366 | No order status changes a payment that has ended in one of the seven terminal statuses |
| `PaymentTheorems.EveryReplyCounts` | apps/api/app/services/selcom_payment_provider.py:336-502 | Once the tenant has a rate, no reply about a payment of a positive amount is lost to a rollback, so the verdict is that of all replies |
| `PaymentTheorems.ReplyRaisesIff` | apps/api/app/services/selcom_payment_provider.py:336-502 | Applying a reply raises if and only if it should credit an open payment whose tenant has no rate, or of no positive amount |
| `PaymentTheorems.StaleNeverReturns` | apps/api/app/services/selcom_payment_provider.py:324-334 | Once stale, no later reply returns a payment to PENDING or INPROGRESS |
| `PaymentTheorems.CreditedExactlyOnce` | apps/api/app/services/selcom_payment_provider.py:367-444 | In every reachable state a payment has exactly one COLLECTION, one PLATFORM_FEE and one TENANT_SHARE entry, adding up to its amount, iff it is COMPLETED, and none otherwise |
| `PaymentTheorems.CompletionCredits` | apps/api/app/services/wallet.py:98-173 | Whatever step completes a payment credits it at the rate then in force, to its own tenant's pending bucket and to nobody else |
| `PaymentTheorems.CreditedAsAsked` | apps/api/app/services/captive_portal.py:251-253 | Over every run the COLLECTION entry of a completed payment is the price of the package its opening call named, or the amount of the collection, and is that call's tenant's |
| `PaymentEffects.DirectFinalizeEffect` | apps/api/app/services/captive_portal.py:582-645 | Finalizing directly does nothing for a COMPLETED payment and credits exactly an open captive one of a positive amount whose tenant has a rate |
| `PaymentTheorems.DuplicateChangesNothing` | apps/api/app/services/selcom_payment_provider.py:336-366 | Reconciling a finished payment again, through either service, changes nothing; finalizing an ended unpaid one raises |
| `PaymentTheorems.EveryOpenPaymentIsSwept` | apps/api/app/services/selcom_payment_provider.py:545-625 | In every reachable state reconciling through either service comes to the same, no row raises the mismatch error, and the reconciliation list holds exactly the open rows |
| `PaymentTheorems.OnePaymentPerSession` | apps/api/app/services/captive_session.py:113-150 | Over every run a session is spent exactly when a payment was opened with it, and no two payments, open or ended, share a session |
| `PaymentTheorems.DuplicateIsNeverReached` | apps/api/app/services/captive_portal.py:280-290 | A session that still resolves has no open attempt, so calls that follow one another never reach the duplicate answer |
| `PaymentEffects.CaptiveStarts` | apps/api/app/services/captive_portal.py:191-414 | A captive payment is stored exactly when gates, session, package, phone, limiter and open attempts allow it; its amount is the package's price, its access one pending subscription for that package, and its session is spent |
| `PaymentEffects.CollectionStarts` | apps/api/app/services/collections.py:81-169 | A collection is stored exactly when the gates are open and the request is sound, with exactly what was asked for |
| `PaymentTheorems.RepeatedRequestRaises` | apps/api/app/services/captive_session.py:133-136 | Over every run, with the gates open, a request on a session that has opened a payment raises, whatever became of that payment |
| `PaymentTheorems.FailedIsFinal` | apps/api/app/services/captive_portal.py:459-580 | Once the portal has answered "failed" for an attempt it always will, and no later step credits anyone for it |
| `PaymentTheorems.NotFailedCanSettle` | apps/api/app/services/captive_portal.py:459-580 | Any attempt not shown as failed is credited already or by the next matching reply |
| `PaymentTheorems.PortalIsHonest` | apps/api/app/services/captive_portal.py:459-580 | "Completed" is shown exactly when the tenant was credited, under-review payments are still being reconciled, failed access is still being retried, and credentials appear exactly for paid, active attempts with a live subscription |
| `PaymentEffects.PortalTable` | apps/api/app/services/captive_portal.py:459-580 | What is shown for each of the thirteen statuses, and for a paid one each activation status |
| `PaymentTheorems.ActivationTouchesNoMoney` | apps/api/app/services/captive_activation.py:71-256 | No activation step changes a wallet, the ledger, a withdrawal or any payment column but the activation ones |
| `PaymentTheorems.PaidMeansAccessOwed` | apps/api/app/services/captive_activation.py:71-230 | In every reachable state a captive payment is COMPLETED iff its access is pending, failed or granted; ACTIVATING never rests; paid but not active means on the retry list |
| `PaymentEffects.AttemptEffect` | apps/api/app/services/captive_activation.py:71-178 | An attempt succeeds exactly for a COMPLETED payment whose rows are found and whose provisioning works, fails as a provisioning failure exactly when only that does not, and dates a pending subscription in minutes |
| `PaymentEffects.StaffActivationEffect` | apps/api/app/services/subscriptions.py:141-185 | A subscription is activated exactly if it is pending and the tenant's, with a package of the tenant's own |
| `PaymentTheorems.SweepActivates` | apps/api/app/tasks/captive_activation.py:42-66 | A sweep makes every listed payment whose lookups and provisioning work ACTIVE, counts them all when all work, and changes nothing of any payment but its activation |
| `PaymentTheorems.PaidTimeSetOnce` | apps/api/app/services/captive_activation.py:121-178 | However attempts fail, retry and interleave, a subscription's dates are set once, by the first success, as its own clock reading plus the duration |
| `PaymentTheorems.ActiveLastsIff` | apps/api/app/services/captive_activation.py:180-195 | An ACTIVE payment stays ACTIVE over every run if and only if no failed attempt at it still has its marker to write |
| `PaymentTheorems.ActiveCanBeUndone` | apps/api/app/services/captive_activation.py:233-256 | For every retryable payment, a failing attempt, a working one and the marker of the first leave it FAILED and on the retry list again |
| `PaymentServices.SelcomPaymentProvider.CreateOrderAndSendStk` | apps/api/app/services/selcom_payment_provider.py:228-320 | A refused order or push ends FAILED, an accepted push is STK_SENT from that moment, and any other exception is raised to the caller |
| `PaymentServices.SelcomPaymentProvider.IsStalePending` | apps/api/app/services/selcom_payment_provider.py:324-334 | Stale means reviewing is on, a push was sent, and at least the configured minutes have passed |
| `PaymentServices.SelcomPaymentProvider.ApplyOrderStatus` | apps/api/app/services/selcom_payment_provider.py:336-502 | The branches in the order the code takes them reach the specified state or error |
| `PaymentServices.SelcomPaymentProvider.ApplyPaid` | apps/api/app/services/selcom_payment_provider.py:367-444 | Order id, amount and currency checked in turn come to one match; a match is finalized, anything else becomes AMBIGUOUS without a credit |
| `PaymentServices.SelcomPaymentProvider.ProviderFor` | apps/api/app/services/selcom_payment_provider.py:545-575 | The provider returned owns the row's flow and works on the same session |
| `PaymentServices.SelcomPaymentProvider.Reconcile` | apps/api/app/services/selcom_payment_provider.py:577-594 | Reconciling through either service reaches the specified state |
| `PaymentServices.CollectionService.InitiateCollection` | apps/api/app/services/collections.py:81-169 | Reaches the specified new row, sent or failed, or the specified refusal or provider fault without one |
| `PaymentServices.CaptivePortalService.InitiatePayment` | apps/api/app/services/captive_portal.py:191-414 | Answers "pending" and "failed" exactly with a new row that is STK_SENT or FAILED and a session that is spent; a refusal, a duplicate or an unavailable service writes no row and spends nothing |
| `PaymentServices.CaptivePortalService.FinalizePayment` | apps/api/app/services/captive_portal.py:582-645 | Writing the row before crediting comes to the specified finalization, and to nothing for a COMPLETED one |
| `PaymentServices.SubscriptionService.CreateAwaitingPayment` | apps/api/app/services/subscriptions.py:73-107 | A foreign customer, a foreign package and an inactive one are refused and leave nothing; otherwise one pending subscription without dates is added, and the others are untouched |
| `PaymentServices.SubscriptionService.Activate` | apps/api/app/services/subscriptions.py:141-185 | Only a pending subscription of the tenant, whose package is still the tenant's, is activated, as specified; anything else raises and changes nothing |
| `PaymentServices.CaptivePortalActivationService.Activate` | apps/api/app/services/captive_activation.py:71-178 | Through the uncommitted ACTIVATING the attempt reaches the specified state, or raises as specified, a missing customer or package included |
| `PaymentServices.CaptivePortalActivationService.RunActivation` | apps/api/app/services/captive_activation.py:233-256 | ACTIVE exactly when the attempt succeeds; a provisioning failure leaves only the marker, on the state before the attempt; anything else raised leaves no trace |
| `PaymentServices.CaptivePortalActivationService.ListRetryable` | apps/api/app/services/captive_activation.py:214-230 | Only retryable payments, no more than the limit, and all of them when they fit |
| `PaymentServices.CaptivePortalActivationService.RetryPendingActivations` | apps/api/app/tasks/captive_activation.py:42-66 | The loop is the sweep over the listed payments, activated counts its successes, and the two counters add up to the list |
| `ReplayGuard.ReplaySafeIff` | apps/network-agent/app/core/security.py:63-118 | No timestamp and nonce are accepted twice, over any arrivals and at any clock resolution, if and only if nonces outlive the window by as long as a body may be awaited between its check and the nonce's |
| `ReplayGuard.ReplaySafeInSeconds` | apps/network-agent/app/core/nonce_cache.py:20-37 | In whole seconds: if and only if the lifetime is more than twice the skew and the delay together |
| `ReplayGuard.NoReplay` | apps/network-agent/app/core/nonce_cache.py:20-37 | With such a lifetime, over any arrivals with nonces checked in order, purging included, no pair is accepted twice |
| `ReplayGuard.AcceptedIffDeserved` | apps/network-agent/app/core/security.py:63-118 | Over every series a request is accepted if and only if it is signed, within the skew, and no earlier accepted request with its nonce is within its lifetime; an unsigned one never is |
| `ReplayGuard.BoundaryFails` | apps/network-agent/app/core/config.py:34-38 | With any shorter lifetime the same request is accepted at both ends of its window |
| `ReplayGuard.Defaults` | apps/api/app/core/internal_auth.py:31-36 | The backend's default lifetime and skew are safe exactly for delays under two minutes, the agent's for none |
| `ReplayGuard.PurgingNeverShows` | apps/api/app/core/internal_auth.py:120-123 | The agent's purge and the key store's expiry answer every request alike |
| `ReplayGuard.NonceCache.SeenBefore` | apps/network-agent/app/core/nonce_cache.py:20-32 | A replay exactly if the nonce is live, and otherwise the nonce is recorded for its lifetime |
| `ReplayGuard.NonceCache.PurgeExpired` | apps/network-agent/app/core/nonce_cache.py:34-37 | Exactly the entries whose expiry has been reached are gone |
| `ReplayGuard.NonceCache.VerifyAgentSignature` | apps/network-agent/app/core/security.py:63-118 | Accepts exactly a signed request whose timestamp is within the skew and whose nonce has no unexpired entry; stores an accepted nonce until its expiry, adds none for a refused request, and drops none that is unexpired |
| `ReplayGuard.KeyStore.Claim` | apps/api/app/core/internal_auth.py:120-123 | Claims a key exactly when it is not live, for its lifetime |
| `ReplayGuard.KeyStore.VerifyInternalRequest` | apps/api/app/core/internal_auth.py:83-123 | Accepts exactly a signed request whose timestamp is within the skew and whose nonce has no unexpired key; claims an accepted nonce until its expiry, and none for a refused request |
| `Radius.TablesAreLastWrites` | apps/network-agent/app/services/radius_provisioning.py:64-148 | After any calls on empty tables each user has the one password row and one group row of the last provisioning, or none after a revocation, and each group exactly its last sync's attributes, Session-Timeout included |
| `Radius.TablesGrant` | apps/network-agent/app/services/radius_provisioning.py:64-148 | After any calls a group's reply rows are exactly the attributes of its last sync's plan, its check row allows that plan's sessions, and a user's password row is that of the last provisioning |
| `Radius.AttributesGranted` | apps/network-agent/app/services/radius_provisioning.py:64-86 | A plan grants a rate limit exactly when both speeds are limited, and Session-Timeout in seconds exactly when it is limited, each once, and nothing else |
| `Radius.RepeatChangesNothing` | apps/network-agent/app/services/radius_provisioning.py:64-148 | Repeating any call at once changes nothing, row order included |
| `Radius.GroupsAreDistinct` | apps/network-agent/app/services/radius_provisioning.py:56-61 | Different packages never share a group |
| `Radius.NetworkAgent.SyncPackageGroup` | apps/network-agent/app/services/radius_provisioning.py:64-106 | Delete, then insert row by row, replaces exactly the group's rows; a failure leaves no trace |
| `Radius.NetworkAgent.ProvisionUser` | apps/network-agent/app/services/radius_provisioning.py:109-135 | Replaces exactly the user's password and group rows; a failure leaves no trace |
| `Radius.NetworkAgent.RevokeUser` | apps/network-agent/app/services/radius_provisioning.py:138-148 | Removes exactly the user's rows; a failure leaves no trace |
| `Radius.RadiusSync.SyncPackageRadiusGroup` | apps/api/app/services/radius_sync.py:61-109 | Reaches the same tables as the agent's sync |
| `Radius.RadiusSync.ProvisionCustomerRadiusAccess` | apps/api/app/services/radius_sync.py:112-146 | Reaches the same tables as the agent's provisioning |
| `Radius.RadiusSync.RevokeCustomerRadiusAccess` | apps/api/app/services/radius_sync.py:149-162 | Reaches the same tables as the agent's revocation |

## Left out

- PayoutResults.SuccessWasExplained: excludes runs in which `apply_disbursement_result` names the withdrawal, because that method settles it without checking an amount; FirstDecisiveResultWins and every wallet theorem include it.
- OneTimeCodes.OnlyLastCodeConfirms: without review the right code may still fail to confirm, because the submission that follows in the same transaction may raise and roll it back.
- DailyLimits.DailyLimitsHold: requests are steps of one run; two requests that read the totals before either commits are not modelled.
- PayoutTheorems.PayoutSubmittedOnce: a rolled-back step may have called the transfer, so only the same transId and amount are promised for those; agreement between wallet and provider after a crash is not.
- PaymentServices.CaptivePortalActivationService.ListRetryable: takes the first rows of the table when the limit cuts the list; the query itself leaves the order open.
- PaymentServices.CaptivePortalActivationService.RetryPendingActivations: what each attempt meets is a function of the payment; calls made by others between two attempts are covered by Platform.Run, not by this loop.
- PaymentTheorems.OnePaymentPerSession: initiating a payment takes no row lock, so two requests on one session that overlap could both pass its checks; only requests that follow one another are modelled, as for DuplicateIsNeverReached.
- PaymentTheorems.StaleNeverReturns: fixes the review minutes and a clock that does not go back, as the code's own comparison presumes.
- Interleavings inside one call: a call is atomic under its row lock, except for activation and its failure marker, which are two steps.
- The refresh behaviour of the object mapper when a row that was read before is locked: the model reads the current row.
- Rows older than the classification columns: the database starts empty, so no row lacks a flow or a provider; a row that did would raise the mismatch error.
- Provider traffic: HTTP, request signing, result-code tables, JSON and webhook bodies. Their outcomes are arbitrary inputs, and a webhook is the reconciliation it triggers.
- Stripping and upper-casing a payment status before it is looked up; blank reasons are made of ASCII white space only.
- HMAC, Fernet and key rotation: a request is signed or not, a code hash is injective; missing headers and timestamps that are not integers are refused before the modelled rule.
- RADIUS password derivation: a password is given, and attribute text is an injective function of its values.
- Audit log, notifications, emails (a failed send included), masking and columns that only report, such as provider messages, references, reasons and completion times.
- `preview_lookup`, stale-withdrawal alerts and the summary counters of the two provider sweeps: they move no money and change no status.
- Withdrawal destinations, phone normalisation, rate limiters, and the expiry and forgery checks of captive sessions: checks at the door, given as inputs of the call.
- Vouchers, staff-created subscriptions, onboarding, routers, WireGuard, dashboards, reports, and all of `apps/web`.
- Who may call what: roles, tenant status and row-level security.
