/** Runs from the empty database into the states where a hold gets stuck, a code can be
    guessed without end, or a daily limit is exceeded. */
module StuckStates {
  import opened Basics
  import opened Records
  import opened WalletRules
  import opened PayoutRules
  import opened Invariants
  import opened Platform
  import opened PayoutTheorems
  import opened PayoutResults
  import opened OneTimeCodes
  import opened DailyLimits
  import WalletServices

  /** Settings that let a request for `amount` through, without limits or review. */
  predicate Permissive(cfg: Settings, amount: int) {
    && cfg.disbursementEnabled && !cfg.production && cfg.otpSecret && cfg.otpTtl >= 0 && cfg.otpMaxAttempts > 0
    && cfg.minAmount.None? && cfg.maxAmount.None? && cfg.dailyLimit.None? && cfg.dailyCount.None?
    && amount <= cfg.approvalThreshold
  }

  function Credits(cfg: Settings, now: Time, t: TenantId, amount: int): Call {
    Call(cfg, now, Adjust(t, Available, Credit, amount, "opening balance", NoReference))
  }

  function RequestingAs(cfg: Settings, now: Time, t: TenantId, amount: int, code: string,
                        key: string, waited: nat): Call
  {
    Call(cfg, now, Payout(Request(t, 0, 0, amount, true, true, true, Some("a@b.c"), key, code, waited)))
  }

  function Requesting(cfg: Settings, now: Time, t: TenantId, amount: int, code: string): Call {
    RequestingAs(cfg, now, t, amount, code, "key", 0)
  }

  function Debits(cfg: Settings, now: Time, t: TenantId, amount: int): Call {
    Call(cfg, now, Adjust(t, Reserved, Debit, amount, "correction", NoReference))
  }

  function Confirming(cfg: Settings, now: Time, t: TenantId, code: string, sub: Submission): Call {
    Call(cfg, now, Payout(Confirm(t, 0, 0, code, None, now, sub)))
  }

  lemma NotBlank()
    ensures !Blank("opening balance") && !Blank("correction")
  {
    assert "opening balance"[0] == 'o' && "correction"[0] == 'c';
  }

  /** One bucket adjusted by a call that does not take it below zero. */
  lemma Adjusting(db: Db, call: Call, t: TenantId, b: Bucket, x: int, entry: LedgerEntry)
    requires Inv(db) && call.op.Adjust? && call.op.tenant == t && call.op.bucket == b
    requires call.op.amount > 0 && !Blank(call.op.reason)
    requires x == if call.op.direction.Credit? then call.op.amount else -call.op.amount
    requires WalletOf(db, t).Get(b) + x >= 0
    requires entry == LedgerEntry(t, Adjustment, call.op.direction, Some(b), call.op.amount,
                                  Some(WalletOf(db, t).Get(b) + x), call.op.reference)
    ensures StepDb(db, call)
            == Ok(db.(wallets := db.wallets[t := WalletOf(db, t).Set(b, WalletOf(db, t).Get(b) + x)],
                      ledger := db.ledger + [entry]))
  {
    WalletServices.SingleBucket(db, t, b, x, [entry]);
  }

  lemma AfterCredit(w: World, cfg: Settings, now: Time, t: TenantId, amount: int)
    requires Inv(w.db) && amount > 0
    ensures var before, w' := WalletOf(w.db, t), Next(w, Credits(cfg, now, t, amount));
            && WalletOf(w'.db, t) == before.(available := before.available + amount)
            && w'.db.withdrawals == w.db.withdrawals
  {
    NotBlank();
    assert WalletOf(w.db, t).NonNegative();
    Adjusting(w.db, Credits(cfg, now, t, amount), t, Available, amount,
              LedgerEntry(t, Adjustment, Credit, Some(Available), amount,
                          Some(WalletOf(w.db, t).Get(Available) + amount), NoReference));
  }

  lemma AfterDebit(w: World, cfg: Settings, now: Time, t: TenantId, amount: int)
    requires Inv(w.db) && 0 < amount <= WalletOf(w.db, t).reserved
    ensures var before, w' := WalletOf(w.db, t), Next(w, Debits(cfg, now, t, amount));
            && WalletOf(w'.db, t) == before.(reserved := before.reserved - amount)
            && w'.db.withdrawals == w.db.withdrawals
  {
    NotBlank();
    Adjusting(w.db, Debits(cfg, now, t, amount), t, Reserved, -amount,
              LedgerEntry(t, Adjustment, Debit, Some(Reserved), amount,
                          Some(WalletOf(w.db, t).Get(Reserved) - amount), NoReference));
  }

  lemma AfterRequest(w: World, cfg: Settings, now: Time, t: TenantId, amount: int, code: string,
                     key: string, waited: nat)
    requires Inv(w.db) && cfg.disbursementEnabled && cfg.otpSecret && WithinLimits(w.db, cfg, t, amount, now)
    requires 0 < amount <= WalletOf(w.db, t).available && !KeyTaken(w.db, key)
    ensures var call, before := RequestingAs(cfg, now, t, amount, code, key, waited), WalletOf(w.db, t);
            var row, w' := NewRow(cfg, now, call.op.payout), Next(w, call);
            && WalletOf(w'.db, t)
               == before.(available := before.available - amount, reserved := before.reserved + amount)
            && w'.db.withdrawals
               == w.db.withdrawals + [row.(otp := IssuedOtp(row.otp, |w.db.withdrawals|, cfg, now, "a@b.c", code))]
  {
    assert WalletOf(w.db, t).NonNegative();
  }

  /** What a credit and a request leave: one DRAFT, held in full, with its code just sent. */
  predicate Opened(w: World, cfg: Settings, now: Time, t: TenantId, amount: int, code: string) {
    && |w.db.withdrawals| == 1
    && var row := w.db.withdrawals[0];
       && row.tenant == t && row.requestedBy == 0 && row.amount == amount && row.status.Draft? && !row.approvalRequired
       && row.otp.codeHash == Some(CodeHash(0, code)) && row.otp.expiresAt == Some(now + cfg.otpTtl)
       && row.otp.attempts == 0
  }

  function OpeningRun(cfg: Settings, now: Time, t: TenantId, amount: int, code: string): seq<Call> {
    [Credits(cfg, now, t, amount), Requesting(cfg, now, t, amount, code)]
  }

  lemma Opening(cfg: Settings, now: Time, t: TenantId, amount: int, code: string)
    requires amount > 0 && Permissive(cfg, amount)
    ensures var w := Run(START, OpeningRun(cfg, now, t, amount, code));
            WorldInv(w) && Opened(w, cfg, now, t, amount, code) && WalletOf(w.db, t).reserved == amount
  {
    EmptyInv();
    OpeningFrom(START, cfg, now, t, amount, code);
  }

  lemma OpeningFrom(w: World, cfg: Settings, now: Time, t: TenantId, amount: int, code: string)
    requires WorldInv(w) && w.db.withdrawals == [] && WalletOf(w.db, t) == EMPTY_WALLET
    requires amount > 0 && Permissive(cfg, amount)
    ensures var w' := Run(w, OpeningRun(cfg, now, t, amount, code));
            WorldInv(w') && Opened(w', cfg, now, t, amount, code) && WalletOf(w'.db, t).reserved == amount
  {
    var credit, request := Credits(cfg, now, t, amount), Requesting(cfg, now, t, amount, code);
    RunTwo(w, credit, request);
    NextKeeps(w, credit);
    NextKeeps(Next(w, credit), request);
    AfterCredit(w, cfg, now, t, amount);
    AfterRequest(Next(w, credit), cfg, now, t, amount, code, "key", 0);
  }

  /** Opened, and no longer covered by what is left in reserved. */
  ghost predicate Stuck(w: World, cfg: Settings, now: Time, t: TenantId, amount: int, code: string) {
    WorldInv(w) && Opened(w, cfg, now, t, amount, code) && !Covered(w.db, 0)
  }

  function DebitedRun(cfg: Settings, now: Time, t: TenantId, amount: int, code: string): seq<Call> {
    OpeningRun(cfg, now, t, amount, code) + [Debits(cfg, now, t, 1)]
  }

  lemma DebitSticks(cfg: Settings, now: Time, t: TenantId, amount: int, code: string)
    requires amount > 0 && Permissive(cfg, amount)
    ensures Stuck(Run(START, DebitedRun(cfg, now, t, amount, code)), cfg, now, t, amount, code)
  {
    var opening := OpeningRun(cfg, now, t, amount, code);
    Opening(cfg, now, t, amount, code);
    Reachable(DebitedRun(cfg, now, t, amount, code));
    RunThenOne(START, opening, Debits(cfg, now, t, 1));
    DebitUncovers(Run(START, opening), cfg, now, t, amount, code);
  }

  lemma DebitUncovers(w: World, cfg: Settings, now: Time, t: TenantId, amount: int, code: string)
    requires WorldInv(w) && Opened(w, cfg, now, t, amount, code) && WalletOf(w.db, t).reserved == amount > 0
    ensures var w' := Next(w, Debits(cfg, now, t, 1)); Opened(w', cfg, now, t, amount, code) && !Covered(w'.db, 0)
  {
    AfterDebit(w, cfg, now, t, 1);
  }

  /** A credit, a request and a debit of one cent of reserved: the hold is stuck. It can
      neither be cancelled by its requester nor covered by what is left. */
  lemma HoldCanStick(cfg: Settings, now: Time, t: TenantId, amount: int, code: string)
    requires amount > 0 && Permissive(cfg, amount)
    ensures var w := Run(START, DebitedRun(cfg, now, t, amount, code));
            && Stuck(w, cfg, now, t, amount, code)
            && StepDb(w.db, Call(cfg, now, Payout(Cancel(t, 0, 0)))).Raised?
  {
    DebitSticks(cfg, now, t, amount, code);
    CancelRaises(Run(START, DebitedRun(cfg, now, t, amount, code)), cfg, now, t, amount, code);
  }

  lemma CancelRaises(w: World, cfg: Settings, now: Time, t: TenantId, amount: int, code: string)
    requires Stuck(w, cfg, now, t, amount, code)
    ensures StepDb(w.db, Call(cfg, now, Payout(Cancel(t, 0, 0)))).Raised?
  {
  }

  lemma {:induction false} GuessesConcat(xs: seq<Call>, ys: seq<Call>, id: nat)
    ensures WrongGuesses(START, xs + ys, id) == WrongGuesses(START, xs, id) + WrongGuesses(Run(START, xs), ys, id)
  {
    if |ys| == 0 {
      assert xs + ys == xs;
    } else {
      var n := |ys| - 1;
      assert (xs + ys)[..|xs + ys| - 1] == xs + ys[..n];
      GuessesConcat(xs, ys[..n], id);
      RunConcat(START, xs, ys[..n]);
    }
  }

  function Guessing(cfg: Settings, now: Time, t: TenantId, guess: string): Call {
    Confirming(cfg, now, t, guess, Submission(true, LookupUnreachable, ProcessUnreachable, NoAnswer))
  }

  lemma GuessIsLost(w: World, cfg: Settings, now: Time, t: TenantId, amount: int, code: string, guess: string)
    requires Opened(w, cfg, now, t, amount, code) && !Covered(w.db, 0) && guess != code
    requires Permissive(cfg, amount) && cfg.otpMaxAttempts == 1
    ensures LostGuess(w.db, Guessing(cfg, now, t, guess), 0)
  {
  }

  /** With one attempt and one send allowed, a run from the empty database can compare any
      number of wrong codes for one withdrawal. */
  lemma GuessesAreUnbounded(cfg: Settings, now: Time, t: TenantId, amount: int, code: string, guess: string, n: nat)
    requires amount > 0 && Permissive(cfg, amount) && guess != code
    requires cfg.otpMaxAttempts == 1 && cfg.otpMaxSends == 1
    ensures var calls := DebitedRun(cfg, now, t, amount, code) + Repeated(Guessing(cfg, now, t, guess), n);
            && (forall k :: 0 <= k < |calls| ==> OtpLimits(calls[k].cfg, 1, 1))
            && WrongGuesses(START, calls, 0) >= n
  {
    LimitsThroughout(cfg, now, t, amount, code, guess, n);
    DebitSticks(cfg, now, t, amount, code);
    UnboundedFrom(DebitedRun(cfg, now, t, amount, code), cfg, now, t, amount, code, guess, n);
  }

  lemma LimitsThroughout(cfg: Settings, now: Time, t: TenantId, amount: int, code: string, guess: string, n: nat)
    requires cfg.otpMaxAttempts == 1 && cfg.otpMaxSends == 1
    ensures var calls := DebitedRun(cfg, now, t, amount, code) + Repeated(Guessing(cfg, now, t, guess), n);
            forall k :: 0 <= k < |calls| ==> OtpLimits(calls[k].cfg, 1, 1)
  {
    RepeatedIs(Guessing(cfg, now, t, guess), n);
  }

  lemma {:induction false} UnboundedFrom(opening: seq<Call>, cfg: Settings, now: Time, t: TenantId, amount: int,
                                         code: string, guess: string, n: nat)
    requires Stuck(Run(START, opening), cfg, now, t, amount, code)
    requires Permissive(cfg, amount) && cfg.otpMaxAttempts == 1 && guess != code
    ensures WrongGuesses(START, opening + Repeated(Guessing(cfg, now, t, guess), n), 0) >= n
  {
    var call := Guessing(cfg, now, t, guess);
    GuessIsLost(Run(START, opening), cfg, now, t, amount, code, guess);
    LostGuessRepeats(Run(START, opening), call, 0, n);
    GuessesConcat(opening, Repeated(call, n), 0);
  }

  /** A credit, a request and its confirmation with the right code, while the account
      lookup cannot be reached: the withdrawal is APPROVED for good, and its hold stays. */
  lemma {:induction false} ApprovedCanStick(cfg: Settings, now: Time, t: TenantId, amount: int, code: string,
                                            sub: Submission, later: seq<Call>)
    requires amount > 0 && Permissive(cfg, amount) && LookupUnreached(cfg, sub)
    ensures var calls := OpeningRun(cfg, now, t, amount, code) + [Confirming(cfg, now, t, code, sub)];
            ApprovedAt(Run(START, calls + later), 0)
  {
    var opening, confirm := OpeningRun(cfg, now, t, amount, code), Confirming(cfg, now, t, code, sub);
    Opening(cfg, now, t, amount, code);
    RunThenOne(START, opening, confirm);
    ConfirmationSticks(Run(START, opening), cfg, now, t, amount, code, sub);
    RunConcat(START, opening + [confirm], later);
    ApprovedNeverMoves(Run(START, opening + [confirm]), later, 0);
  }

  predicate ApprovedAt(w: World, id: nat) {
    id < |w.db.withdrawals| && w.db.withdrawals[id].status.Approved?
  }

  lemma ConfirmationSticks(w: World, cfg: Settings, now: Time, t: TenantId, amount: int, code: string, sub: Submission)
    requires Opened(w, cfg, now, t, amount, code) && Permissive(cfg, amount) && LookupUnreached(cfg, sub)
    ensures ApprovedAt(Next(w, Confirming(cfg, now, t, code, sub)), 0)
  {
    LeftApprovedIff(w.db, Confirming(cfg, now, t, code, sub), 0);
  }

  // --------------------------------------------------------- daily limits

  /** Settings that allow one withdrawal of `amount` a day. */
  predicate OneADay(cfg: Settings, amount: int) {
    && cfg.disbursementEnabled && cfg.otpSecret && cfg.minAmount.None? && cfg.maxAmount.None?
    && cfg.dailyLimit == Some(amount) && cfg.dailyCount == Some(1)
  }

  function EveningRun(cfg: Settings, before: Time, t: TenantId, amount: int, code: string): seq<Call> {
    [Credits(cfg, before, t, 2 * amount), RequestingAs(cfg, before, t, amount, code, "first", 0)]
  }

  /** A credit for two, a request before midnight, and one whose transaction starts at the
      same moment but which reads the clock on a later day. */
  function MidnightRun(cfg: Settings, before: Time, after: Time, t: TenantId, amount: int, code: string): seq<Call>
    requires before <= after
  {
    EveningRun(cfg, before, t, amount, code) + [RequestingAs(cfg, after, t, amount, code, "second", after - before)]
  }

  /** A day's withdrawals that were not voided are two, of `amount` each. */
  predicate HoldsTwo(ws: seq<Withdrawal>, t: TenantId, day: int, amount: int) {
    Total(DayWeight(t, day, true), ws) == 2 && Total(DayWeight(t, day, false), ws) == 2 * amount
  }

  /** After the first request, with as much left for the second. */
  ghost predicate FirstStored(w: World, before: Time, t: TenantId, amount: int) {
    && WorldInv(w) && |w.db.withdrawals| == 1 && WalletOf(w.db, t).available == amount
    && var row := w.db.withdrawals[0];
       row.tenant == t && row.amount == amount && row.status.Draft? && row.key == "first" && row.createdAt == before
  }

  lemma FirstRequest(cfg: Settings, before: Time, t: TenantId, amount: int, code: string)
    requires amount > 0 && OneADay(cfg, amount)
    ensures FirstStored(Run(START, EveningRun(cfg, before, t, amount, code)), before, t, amount)
  {
    EmptyInv();
    FirstRequestFrom(START, cfg, before, t, amount, code);
  }

  lemma FirstRequestFrom(w: World, cfg: Settings, before: Time, t: TenantId, amount: int, code: string)
    requires WorldInv(w) && w.db.withdrawals == [] && WalletOf(w.db, t) == EMPTY_WALLET
    requires amount > 0 && OneADay(cfg, amount)
    ensures FirstStored(Run(w, EveningRun(cfg, before, t, amount, code)), before, t, amount)
  {
    var credit, request := Credits(cfg, before, t, 2 * amount), RequestingAs(cfg, before, t, amount, code, "first", 0);
    RunTwo(w, credit, request);
    NextKeeps(w, credit);
    AfterCredit(w, cfg, before, t, 2 * amount);
    FirstRequestNext(Next(w, credit), cfg, before, t, amount, code);
  }

  lemma FirstRequestNext(w: World, cfg: Settings, before: Time, t: TenantId, amount: int, code: string)
    requires WorldInv(w) && w.db.withdrawals == [] && WalletOf(w.db, t).available == 2 * amount
    requires amount > 0 && OneADay(cfg, amount)
    ensures FirstStored(Next(w, RequestingAs(cfg, before, t, amount, code, "first", 0)), before, t, amount)
  {
    NextKeeps(w, RequestingAs(cfg, before, t, amount, code, "first", 0));
    AfterRequest(w, cfg, before, t, amount, code, "first", 0);
  }

  lemma NothingCounted(db: Db, cfg: Settings, t: TenantId, amount: int, now: Time)
    requires OneADay(cfg, amount) && |db.withdrawals| == 1 && DayNumber(db.withdrawals[0].createdAt) < DayNumber(now)
    ensures WithinLimits(db, cfg, t, amount, now)
  {
    assert db.withdrawals == [db.withdrawals[0]];
    TotalOne(SinceWeight(t, DayNumber(now), false), db.withdrawals[0]);
    TotalOne(SinceWeight(t, DayNumber(now), true), db.withdrawals[0]);
    WithinLimitsIff(db, cfg, t, amount, now, DayNumber(now));
  }

  lemma SecondRequest(w: World, cfg: Settings, before: Time, after: Time, t: TenantId, amount: int, code: string)
    requires FirstStored(w, before, t, amount) && amount > 0 && OneADay(cfg, amount)
    requires before <= after && DayNumber(before) < DayNumber(after)
    ensures HoldsTwo(Next(w, RequestingAs(cfg, after, t, amount, code, "second", after - before)).db.withdrawals,
                     t, DayNumber(before), amount)
  {
    var first := w.db.withdrawals[0];
    assert w.db.withdrawals == [first];
    NothingCounted(w.db, cfg, t, amount, after);
    assert "first"[0] != "second"[0];
    AfterRequest(w, cfg, after, t, amount, code, "second", after - before);
    var ws' := Next(w, RequestingAs(cfg, after, t, amount, code, "second", after - before)).db.withdrawals;
    assert ws' == [first, ws'[1]];
    BothOnDay(first, ws'[1], t, DayNumber(before), amount);
  }

  /** One request after the other, each within its limits, and the day of both holds two
      withdrawals and twice the limit. */
  lemma DailyLimitsCanFail(cfg: Settings, before: Time, after: Time, t: TenantId, amount: int, code: string)
    requires amount > 0 && OneADay(cfg, amount) && before <= after && DayNumber(before) < DayNumber(after)
    ensures HoldsTwo(Run(START, MidnightRun(cfg, before, after, t, amount, code)).db.withdrawals,
                     t, DayNumber(before), amount)
  {
    FirstRequest(cfg, before, t, amount, code);
    ThenSecond(EveningRun(cfg, before, t, amount, code), cfg, before, after, t, amount, code);
  }

  lemma {:induction false} ThenSecond(evening: seq<Call>, cfg: Settings, before: Time, after: Time, t: TenantId,
                                      amount: int, code: string)
    requires FirstStored(Run(START, evening), before, t, amount) && amount > 0 && OneADay(cfg, amount)
    requires before <= after && DayNumber(before) < DayNumber(after)
    ensures var second := RequestingAs(cfg, after, t, amount, code, "second", after - before);
            HoldsTwo(Run(START, evening + [second]).db.withdrawals, t, DayNumber(before), amount)
  {
    RunThenOne(START, evening, RequestingAs(cfg, after, t, amount, code, "second", after - before));
    SecondRequest(Run(START, evening), cfg, before, after, t, amount, code);
  }

  lemma BothOnDay(first: Withdrawal, second: Withdrawal, t: TenantId, day: int, amount: int)
    requires first.tenant == second.tenant == t && first.amount == second.amount == amount
    requires OnDay(first.createdAt, day) && OnDay(second.createdAt, day)
    requires first.status.Draft? && second.status.Draft?
    ensures HoldsTwo([first, second], t, day, amount)
  {
    assert [first, second] == [first] + [second];
    TotalConcat(DayWeight(t, day, true), [first], [second]);
    TotalConcat(DayWeight(t, day, false), [first], [second]);
    TotalOne(DayWeight(t, day, true), first);
    TotalOne(DayWeight(t, day, true), second);
    TotalOne(DayWeight(t, day, false), first);
    TotalOne(DayWeight(t, day, false), second);
  }
}
