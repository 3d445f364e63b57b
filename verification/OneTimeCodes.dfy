/** Whole-run guarantees of the one-time codes that confirm withdrawals. */
module OneTimeCodes {
  import opened Basics
  import opened Records
  import opened WalletRules
  import opened PayoutRules
  import opened Books
  import opened Lifecycle
  import opened Invariants
  import opened Platform
  import opened PayoutTheorems
  import opened PayoutResults

  // --------------------------------------------------------- wrong guesses

  /** A confirmation that compares its code with a DRAFT's and finds it wrong, whatever
      becomes of the call. */
  predicate WrongGuess(db: Db, call: Call, id: nat) {
    && call.op.Payout? && call.op.payout.Confirm? && call.op.payout.id == id && id < |db.withdrawals|
    && var op, w := call.op.payout, db.withdrawals[id];
       && w.tenant == op.tenant && w.requestedBy == op.actor && w.status.Draft? && call.cfg.otpSecret
       && WrongCode(w.otp, id, op.code, call.cfg, call.now, op.currentEmail)
  }

  /** One whose attempt was counted, because its call committed. */
  predicate CountedGuess(db: Db, call: Call, id: nat) {
    WrongGuess(db, call, id) && StepDb(db, call).Ok?
  }

  /** One that leaves nothing to guess with, so that the withdrawal is to be cancelled. */
  predicate LastGuess(db: Db, call: Call, id: nat) {
    && WrongGuess(db, call, id)
    && var otp := db.withdrawals[id].otp;
       Exhausted(otp.(attempts := otp.attempts + 1), call.cfg, call.op.payout.recheckedAt)
  }

  /** One whose cancellation cannot release the hold. */
  predicate LostGuess(db: Db, call: Call, id: nat) {
    LastGuess(db, call, id) && !Covered(db, id)
  }

  function WrongGuesses(w: World, calls: seq<Call>, id: nat): nat {
    if |calls| == 0 then 0 else
    var n := |calls| - 1;
    WrongGuesses(w, calls[..n], id) + if WrongGuess(Run(w, calls[..n]).db, calls[n], id) then 1 else 0
  }

  function CountedGuesses(w: World, calls: seq<Call>, id: nat): nat {
    if |calls| == 0 then 0 else
    var n := |calls| - 1;
    CountedGuesses(w, calls[..n], id) + if CountedGuess(Run(w, calls[..n]).db, calls[n], id) then 1 else 0
  }

  function LostGuesses(w: World, calls: seq<Call>, id: nat): nat {
    if |calls| == 0 then 0 else
    var n := |calls| - 1;
    LostGuesses(w, calls[..n], id) + if LostGuess(Run(w, calls[..n]).db, calls[n], id) then 1 else 0
  }

  /** A wrong guess goes uncounted exactly when it is the last one and reserved no
      longer covers the hold. */
  lemma GuessLostIff(db: Db, call: Call, id: nat)
    requires Inv(db) && WrongGuess(db, call, id)
    ensures StepDb(db, call).Raised? <==> LostGuess(db, call, id)
  {
    RowIsOk(db, id);
    assert WalletOf(db, db.withdrawals[id].tenant).NonNegative();
  }

  lemma {:induction false} GuessesSplit(calls: seq<Call>, id: nat)
    ensures WrongGuesses(START, calls, id) == CountedGuesses(START, calls, id) + LostGuesses(START, calls, id)
  {
    if |calls| > 0 {
      var n := |calls| - 1;
      GuessesSplit(calls[..n], id);
      Reachable(calls[..n]);
      if WrongGuess(Run(START, calls[..n]).db, calls[n], id) {
        GuessLostIff(Run(START, calls[..n]).db, calls[n], id);
      }
    }
  }

  predicate OtpLimits(cfg: Settings, maxAttempts: int, maxSends: int) {
    cfg.otpMaxAttempts == maxAttempts && cfg.otpMaxSends == maxSends
  }

  /** How many wrong guesses a row's counters leave room for. */
  predicate GuessesWithin(w: Withdrawal, wrong: nat, maxAttempts: nat, maxSends: nat)
    requires maxAttempts > 0
  {
    if w.status.Draft? then
      && w.otp.attempts < maxAttempts && 1 <= w.otp.sends <= maxSends
      && wrong <= (w.otp.sends - 1) * (maxAttempts - 1) + w.otp.attempts
    else wrong <= maxSends * (maxAttempts - 1) + 1
  }

  /** A wrong guess counts up and stops short of the limit, a resend resets, and
      anything else leaves the counters alone, or DRAFT is over. */
  predicate CountersMove(w: Withdrawal, w': Withdrawal, isWrong: bool, maxAttempts: int, maxSends: int) {
    || !w'.status.Draft?
    || (!isWrong && w'.otp.attempts == w.otp.attempts && w'.otp.sends == w.otp.sends)
    || (isWrong && w'.otp.attempts == w.otp.attempts + 1 < maxAttempts && w'.otp.sends == w.otp.sends)
    || (!isWrong && w'.otp.attempts == 0 && w'.otp.sends == w.otp.sends + 1 <= maxSends)
  }

  /** What a step can do to a DRAFT row's counters. */
  lemma DraftStep(db: Db, call: Call, id: nat)
    requires id < |db.withdrawals| && db.withdrawals[id].status.Draft?
    ensures id < |After(db, call).withdrawals|
    ensures CountersMove(db.withdrawals[id], After(db, call).withdrawals[id], CountedGuess(db, call, id),
                         call.cfg.otpMaxAttempts, call.cfg.otpMaxSends)
  {
    if !Requests(db, call) {
      StepElsewhere(db, call);
    }
    if TargetOf(call.op) == Some(id) && StepDb(db, call).Ok? {
      if call.op.payout.Confirm? {
        ConfirmDraft(db, call.cfg, call.now, call.op.payout);
      } else if !call.op.payout.Resend? {
        DraftOtherwise(db, call, id);
      }
    }
  }

  /** Neither confirmed nor sent another code, a DRAFT is left alone or left behind. */
  lemma DraftOtherwise(db: Db, call: Call, id: nat)
    requires id < |db.withdrawals| && db.withdrawals[id].status.Draft?
    requires TargetOf(call.op) == Some(id) && StepDb(db, call).Ok?
    requires !call.op.payout.Confirm? && !call.op.payout.Resend?
    ensures id < |After(db, call).withdrawals|
    ensures var w' := After(db, call).withdrawals[id]; w' == db.withdrawals[id] || !w'.status.Draft?
  {
  }

  lemma ConfirmDraft(db: Db, cfg: Settings, now: Time, op: PayoutOp)
    requires op.Confirm? && ConfirmTwoFactor(db, cfg, now, op).Ok?
    ensures var w, ws' := db.withdrawals[op.id], ConfirmTwoFactor(db, cfg, now, op).value.withdrawals;
            && op.id < |ws'|
            && CountersMove(w, ws'[op.id], WrongCode(w.otp, op.id, op.code, cfg, now, op.currentEmail),
                            cfg.otpMaxAttempts, cfg.otpMaxSends)
  {
    var w := db.withdrawals[op.id];
    if RightCode(w.otp, op.id, op.code, cfg, now, op.currentEmail) && !w.approvalRequired {
      LeavesDraft(Shift(db, op.id, ConfirmedRow(w, now), Some(op.actor)).value, cfg, op.id, op.submission,
                  Some(op.actor));
    }
  }

  lemma LeavesDraft(db: Db, cfg: Settings, id: nat, sub: Submission, actor: Option<ActorId>)
    requires id < |db.withdrawals| && db.withdrawals[id].status.Approved?
    ensures var r := Submit(db, cfg, id, sub, actor);
            r.Ok? ==> id < |r.value.withdrawals| && !r.value.withdrawals[id].status.Draft?
  {
  }

  lemma Budget(sends: nat, attempts: nat, wrong: nat, maxAttempts: nat, maxSends: nat)
    requires maxAttempts > 0 && attempts < maxAttempts && 1 <= sends <= maxSends
    requires wrong <= (sends - 1) * (maxAttempts - 1) + attempts
    ensures wrong <= sends * (maxAttempts - 1)
    ensures wrong + 1 <= maxSends * (maxAttempts - 1) + 1
  {
    var m := maxAttempts - 1;
    assert (sends - 1) * m + m == sends * m;
    assert (maxSends - sends) * m >= 0;
    assert sends * m + (maxSends - sends) * m == maxSends * m;
  }

  lemma GuessArithmetic(w: Withdrawal, w': Withdrawal, isWrong: bool, wrong: nat, maxAttempts: nat, maxSends: nat)
    requires maxAttempts > 0 && RowLater(w, w')
    requires GuessesWithin(w, wrong, maxAttempts, maxSends)
    requires isWrong ==> w.status.Draft?
    requires w.status.Draft? ==> CountersMove(w, w', isWrong, maxAttempts, maxSends)
    ensures GuessesWithin(w', wrong + if isWrong then 1 else 0, maxAttempts, maxSends)
  {
    if w.status.Draft? {
      Budget(w.otp.sends, w.otp.attempts, wrong, maxAttempts, maxSends);
    }
  }

  /** The bound, for a row that exists and for one that does not yet. */
  predicate GuessesOk(db: Db, id: nat, wrong: nat, maxAttempts: nat, maxSends: nat)
    requires maxAttempts > 0
  {
    if id < |db.withdrawals| then GuessesWithin(db.withdrawals[id], wrong, maxAttempts, maxSends) else wrong == 0
  }

  lemma GuessesStep(w: World, call: Call, id: nat, wrong: nat, maxAttempts: nat, maxSends: nat)
    requires PayoutsLater(w.db, Next(w, call).db) && maxAttempts > 0 && maxSends > 0
    requires OtpLimits(call.cfg, maxAttempts, maxSends)
    requires GuessesOk(w.db, id, wrong, maxAttempts, maxSends)
    ensures GuessesOk(Next(w, call).db, id, wrong + if CountedGuess(w.db, call, id) then 1 else 0, maxAttempts,
                      maxSends)
  {
    var ws, ws' := w.db.withdrawals, Next(w, call).db.withdrawals;
    NextIsStep(w, call);
    if id < |ws| {
      assert RowLater(ws[id], ws'[id]);
      if !MarksFailure(call.op) && ws[id].status.Draft? {
        DraftStep(w.db, call, id);
      }
      GuessArithmetic(ws[id], ws'[id], CountedGuess(w.db, call, id), wrong, maxAttempts, maxSends);
    } else if id < |ws'| {
      NewRowGuesses(w.db, call, id, maxAttempts, maxSends);
    }
  }

  lemma NewRowGuesses(db: Db, call: Call, id: nat, maxAttempts: nat, maxSends: nat)
    requires |db.withdrawals| <= id < |After(db, call).withdrawals|
    requires maxAttempts > 0 && maxSends > 0
    ensures !CountedGuess(db, call, id)
    ensures GuessesWithin(After(db, call).withdrawals[id], 0, maxAttempts, maxSends)
  {
    if !Requests(db, call) {
      StepElsewhere(db, call);
    }
  }

  lemma {:induction false} GuessesCounted(calls: seq<Call>, id: nat, maxAttempts: nat, maxSends: nat)
    requires maxAttempts > 0 && maxSends > 0
    requires forall k :: 0 <= k < |calls| ==> OtpLimits(calls[k].cfg, maxAttempts, maxSends)
    ensures GuessesOk(Run(START, calls).db, id, CountedGuesses(START, calls, id), maxAttempts, maxSends)
  {
    if |calls| > 0 {
      var n := |calls| - 1;
      GuessesCounted(calls[..n], id, maxAttempts, maxSends);
      assert OtpLimits(calls[n].cfg, maxAttempts, maxSends);
      GuessesNext(calls, id, maxAttempts, maxSends);
    }
  }

  lemma {:induction false} GuessesNext(calls: seq<Call>, id: nat, maxAttempts: nat, maxSends: nat)
    requires maxAttempts > 0 && maxSends > 0 && |calls| > 0
    requires OtpLimits(calls[|calls| - 1].cfg, maxAttempts, maxSends)
    requires var before := calls[..|calls| - 1];
             GuessesOk(Run(START, before).db, id, CountedGuesses(START, before, id), maxAttempts, maxSends)
    ensures GuessesOk(Run(START, calls).db, id, CountedGuesses(START, calls, id), maxAttempts, maxSends)
  {
    var n := |calls| - 1;
    LastStepLater(calls);
    GuessesStep(Run(START, calls[..n]), calls[n], id, CountedGuesses(START, calls[..n], id), maxAttempts, maxSends);
  }

  /** Over a withdrawal's whole life the number of wrong codes compared is bounded, but
      for lost guesses, whatever is resent in between; and a DRAFT at rest always has an
      attempt left. */
  lemma {:induction false} OtpGuessBound(calls: seq<Call>, id: nat, maxAttempts: nat, maxSends: nat)
    requires maxAttempts > 0 && maxSends > 0
    requires forall k :: 0 <= k < |calls| ==> OtpLimits(calls[k].cfg, maxAttempts, maxSends)
    ensures WrongGuesses(START, calls, id) <= maxSends * (maxAttempts - 1) + 1 + LostGuesses(START, calls, id)
    ensures var ws := Run(START, calls).db.withdrawals;
            id < |ws| && ws[id].status.Draft? ==> ws[id].otp.attempts < maxAttempts
  {
    GuessesSplit(calls, id);
    GuessesCounted(calls, id, maxAttempts, maxSends);
    GuessesOkBound(Run(START, calls).db, id, CountedGuesses(START, calls, id), maxAttempts, maxSends);
  }

  lemma {:induction false} NoneLostWhenCovered(calls: seq<Call>, id: nat)
    requires forall k :: 0 <= k < |calls| && LastGuess(Run(START, calls[..k]).db, calls[k], id) ==>
               Covered(Run(START, calls[..k]).db, id)
    ensures LostGuesses(START, calls, id) == 0
  {
    if |calls| > 0 {
      var n := |calls| - 1;
      forall k | 0 <= k < n
        ensures calls[..n][..k] == calls[..k] && calls[..n][k] == calls[k]
      {
      }
      NoneLostWhenCovered(calls[..n], id);
    }
  }

  /** While reserved covers the hold at every last guess, the documented bound holds. */
  lemma {:induction false} OtpGuessBoundWhenCovered(calls: seq<Call>, id: nat, maxAttempts: nat, maxSends: nat)
    requires maxAttempts > 0 && maxSends > 0
    requires forall k :: 0 <= k < |calls| ==> OtpLimits(calls[k].cfg, maxAttempts, maxSends)
    requires forall k :: 0 <= k < |calls| && LastGuess(Run(START, calls[..k]).db, calls[k], id) ==>
               Covered(Run(START, calls[..k]).db, id)
    ensures WrongGuesses(START, calls, id) <= maxSends * (maxAttempts - 1) + 1
  {
    OtpGuessBound(calls, id, maxAttempts, maxSends);
    NoneLostWhenCovered(calls, id);
  }

  function Repeated(call: Call, n: nat): seq<Call> {
    if n == 0 then [] else Repeated(call, n - 1) + [call]
  }

  lemma LostGuessChangesNothing(w: World, call: Call, id: nat)
    requires WorldInv(w) && LostGuess(w.db, call, id)
    ensures Next(w, call) == w
  {
    GuessLostIff(w.db, call, id);
  }

  /** A run that ends where it began can make the guess once more. */
  lemma {:induction false} OneMoreGuess(w: World, before: seq<Call>, call: Call, id: nat)
    requires Run(w, before) == w && Next(w, call) == w && WrongGuess(w.db, call, id)
    ensures Run(w, before + [call]) == w
    ensures WrongGuesses(w, before + [call], id) == WrongGuesses(w, before, id) + 1
  {
    assert (before + [call])[..|before + [call]| - 1] == before;
  }

  lemma {:induction false} GuessRepeats(w: World, calls: seq<Call>, call: Call, id: nat)
    requires LostGuess(w.db, call, id) && WorldInv(w)
    requires forall k :: 0 <= k < |calls| ==> calls[k] == call
    ensures Run(w, calls) == w && WrongGuesses(w, calls, id) == |calls|
  {
    if |calls| > 0 {
      var before := calls[..|calls| - 1];
      GuessRepeats(w, before, call, id);
      LostGuessChangesNothing(w, call, id);
      OneMoreGuess(w, before, call, id);
      assert calls == before + [call];
    }
  }

  /** Otherwise there is no bound: a lost guess leaves everything as it was, and can be
      made any number of times. */
  lemma {:induction false} LostGuessRepeats(w: World, call: Call, id: nat, n: nat)
    requires WorldInv(w) && LostGuess(w.db, call, id)
    ensures Run(w, Repeated(call, n)) == w && WrongGuesses(w, Repeated(call, n), id) == n
  {
    RepeatedIs(call, n);
    GuessRepeats(w, Repeated(call, n), call, id);
  }

  lemma {:induction false} RepeatedIs(call: Call, n: nat)
    ensures |Repeated(call, n)| == n && forall k :: 0 <= k < n ==> Repeated(call, n)[k] == call
  {
    if n > 0 {
      RepeatedIs(call, n - 1);
    }
  }

  lemma GuessesOkBound(db: Db, id: nat, wrong: nat, maxAttempts: nat, maxSends: nat)
    requires maxAttempts > 0 && maxSends > 0 && GuessesOk(db, id, wrong, maxAttempts, maxSends)
    ensures wrong <= maxSends * (maxAttempts - 1) + 1
  {
    if id >= |db.withdrawals| {
      assert maxSends * (maxAttempts - 1) >= 0;
    } else if db.withdrawals[id].status.Draft? {
      Budget(db.withdrawals[id].otp.sends, db.withdrawals[id].otp.attempts, wrong, maxAttempts, maxSends);
    }
  }

  /** A confirmation by the requester of a DRAFT whose code is not accepted: wrong, expired,
      used up, sent to another address, or never sent. */
  predicate RefusedCode(db: Db, call: Call, id: nat) {
    && call.op.Payout? && call.op.payout.Confirm? && call.op.payout.id == id && id < |db.withdrawals|
    && var op, w := call.op.payout, db.withdrawals[id];
       && w.tenant == op.tenant && w.requestedBy == op.actor && w.status.Draft?
       && !RightCode(w.otp, id, op.code, call.cfg, call.now, op.currentEmail)
       && (Compares(w.otp, call.cfg, call.now, op.currentEmail) ==> call.cfg.otpSecret)
  }

  /** The challenge afterwards: only a wrong guess is counted. */
  function RefusedOtp(db: Db, call: Call, id: nat): Otp
    requires id < |db.withdrawals|
  {
    var otp := db.withdrawals[id].otp;
    if WrongGuess(db, call, id) then otp.(attempts := otp.attempts + 1) else otp
  }

  /** Exhaustion, whether the attempts are used up or the code has expired, and whether or
      not a code was compared, always cancels the withdrawal and releases the hold; it
      raises instead exactly when reserved no longer covers the hold. A refusal that
      exhausts nothing leaves the DRAFT, its hold, and the counted attempt. */
  lemma ExhaustionCancels(db: Db, call: Call, id: nat)
    requires Inv(db) && RefusedCode(db, call, id)
    ensures var w, r := db.withdrawals[id], StepDb(db, call);
            var exhausted := Exhausted(RefusedOtp(db, call, id), call.cfg, call.op.payout.recheckedAt);
            && (r.Raised? <==> exhausted && WalletOf(db, w.tenant).reserved < w.amount)
            && (r.Ok? && exhausted ==>
                  && r.value.withdrawals[id].status.Cancelled?
                  && WalletOf(r.value, w.tenant).reserved == WalletOf(db, w.tenant).reserved - w.amount
                  && WalletOf(r.value, w.tenant).available == WalletOf(db, w.tenant).available + w.amount)
            && (!exhausted ==> r == Ok(Write(db, id, w.(otp := RefusedOtp(db, call, id)))))
  {
    RowIsOk(db, id);
    assert WalletOf(db, db.withdrawals[id].tenant).NonNegative();
  }

  // ------------------------------------------------------ which code counts

  /** A committed step that sends a withdrawal a code. */
  function IssuedBy(db: Db, call: Call, id: nat): Option<Call> {
    match call.op
    case Payout(Request(_, _, _, _, _, _, _, _, _, _, _)) =>
      if StepDb(db, call).Ok? && id == |db.withdrawals| then Some(call) else None
    case Payout(Resend(_, k, _, _, _)) => if StepDb(db, call).Ok? && k == id then Some(call) else None
    case _ => None
  }

  function LastIssue(w: World, calls: seq<Call>, id: nat): Option<Call> {
    if |calls| == 0 then None else
    var n := |calls| - 1;
    Latest(LastIssue(w, calls[..n], id), IssuedBy(Run(w, calls[..n]).db, calls[n], id))
  }

  function Latest(earlier: Option<Call>, now: Option<Call>): Option<Call> {
    if now.Some? then now else earlier
  }

  predicate Sends(op: Op) {
    op.Payout? && (op.payout.Request? || op.payout.Resend?)
  }

  /** A DRAFT's challenge is the one its last issue set up. */
  predicate ChallengeIs(w: Withdrawal, id: nat, issue: Option<Call>) {
    w.status.Draft? ==>
      && issue.Some? && Sends(issue.value.op)
      && w.otp.codeHash == Some(CodeHash(id, issue.value.op.payout.code))
      && w.otp.expiresAt == Some(issue.value.now + issue.value.cfg.otpTtl)
      && w.otp.sentTo == issue.value.op.payout.email
      && w.otp.lastSentAt == Some(issue.value.now)
  }

  lemma ChallengeStep(db: Db, call: Call, id: nat, issue: Option<Call>)
    requires id < |db.withdrawals| && db.withdrawals[id].status.Draft?
    requires ChallengeIs(db.withdrawals[id], id, issue)
    ensures id < |After(db, call).withdrawals|
    ensures ChallengeIs(After(db, call).withdrawals[id], id, Latest(issue, IssuedBy(db, call, id)))
  {
    if !Requests(db, call) {
      StepElsewhere(db, call);
    }
    if TargetOf(call.op) == Some(id) && StepDb(db, call).Ok? {
      if call.op.payout.Confirm? {
        ConfirmKeepsChallenge(db, call.cfg, call.now, call.op.payout);
      } else if call.op.payout.Resend? {
        ResendSetsChallenge(db, call, id);
      } else {
        DraftOtherwise(db, call, id);
      }
    }
  }

  lemma ResendSetsChallenge(db: Db, call: Call, id: nat)
    requires id < |db.withdrawals| && StepDb(db, call).Ok?
    requires call.op.Payout? && call.op.payout.Resend? && call.op.payout.id == id
    ensures id < |After(db, call).withdrawals| && IssuedBy(db, call, id) == Some(call)
    ensures ChallengeIs(After(db, call).withdrawals[id], id, Some(call))
  {
  }

  lemma ConfirmKeepsChallenge(db: Db, cfg: Settings, now: Time, op: PayoutOp)
    requires op.Confirm? && ConfirmTwoFactor(db, cfg, now, op).Ok?
    ensures var w, ws' := db.withdrawals[op.id], ConfirmTwoFactor(db, cfg, now, op).value.withdrawals;
            && op.id < |ws'|
            && (ws'[op.id].status.Draft? ==> ws'[op.id].otp.(attempts := w.otp.attempts) == w.otp)
  {
    var w := db.withdrawals[op.id];
    if RightCode(w.otp, op.id, op.code, cfg, now, op.currentEmail) && !w.approvalRequired {
      LeavesDraft(Shift(db, op.id, ConfirmedRow(w, now), Some(op.actor)).value, cfg, op.id, op.submission,
                  Some(op.actor));
    }
  }

  lemma ChallengeNext(w: World, call: Call, id: nat, issue: Option<Call>)
    requires PayoutsLater(w.db, Next(w, call).db)
    requires id < |w.db.withdrawals| ==> ChallengeIs(w.db.withdrawals[id], id, issue)
    ensures id < |Next(w, call).db.withdrawals| ==>
              ChallengeIs(Next(w, call).db.withdrawals[id], id, Latest(issue, IssuedBy(w.db, call, id)))
  {
    var ws, ws' := w.db.withdrawals, Next(w, call).db.withdrawals;
    NextIsStep(w, call);
    if id < |ws| {
      assert RowLater(ws[id], ws'[id]);
      if ws[id].status.Draft? {
        ChallengeStep(w.db, call, id, issue);
      }
    } else if id < |ws'| && !Requests(w.db, call) {
      StepElsewhere(w.db, call);
    }
  }

  lemma {:induction false} ChallengeIsLastIssued(calls: seq<Call>, id: nat)
    ensures var ws := Run(START, calls).db.withdrawals;
            id < |ws| ==> ChallengeIs(ws[id], id, LastIssue(START, calls, id))
  {
    if |calls| > 0 {
      var n := |calls| - 1;
      ChallengeIsLastIssued(calls[..n], id);
      LastStepLater(calls);
      ChallengeNext(Run(START, calls[..n]), calls[n], id, LastIssue(START, calls[..n], id));
    }
  }

  /** The requester's confirmation with the code of a given issue, to the address it went
      to, before it expires and while guesses are left. */
  predicate ConfirmsIssue(w: Withdrawal, id: nat, call: Call, issue: Call)
    requires Sends(issue.op)
  {
    && call.op.Payout? && call.op.payout.Confirm?
    && var op := call.op.payout;
       && op.id == id && op.tenant == w.tenant && op.actor == w.requestedBy
       && op.code == issue.op.payout.code && call.now <= issue.now + issue.cfg.otpTtl
       && (op.currentEmail.Some? ==> op.currentEmail == issue.op.payout.email)
       && w.otp.attempts < call.cfg.otpMaxAttempts && call.cfg.otpSecret
  }

  predicate Confirms(db: Db, call: Call, id: nat) {
    && id < |After(db, call).withdrawals|
    && var s := After(db, call).withdrawals[id].status; !s.Draft? && !s.Cancelled?
  }

  /** Whatever the run, only the code sent last gets a withdrawal past DRAFT, within its
      lifetime; and where review follows, that code always does. */
  lemma {:induction false} OnlyLastCodeConfirms(calls: seq<Call>, call: Call, id: nat)
    requires id < |Run(START, calls).db.withdrawals| && Run(START, calls).db.withdrawals[id].status.Draft?
    ensures var db, issue := Run(START, calls).db, LastIssue(START, calls, id);
            var w := db.withdrawals[id];
            && issue.Some? && Sends(issue.value.op)
            && (Confirms(db, call, id) ==> ConfirmsIssue(w, id, call, issue.value))
            && (w.approvalRequired && ConfirmsIssue(w, id, call, issue.value) ==> Confirms(db, call, id))
  {
    ChallengeIsLastIssued(calls, id);
    ConfirmsExactly(Run(START, calls).db, call, id, LastIssue(START, calls, id));
  }

  lemma ConfirmsExactly(db: Db, call: Call, id: nat, issue: Option<Call>)
    requires id < |db.withdrawals| && db.withdrawals[id].status.Draft?
    requires ChallengeIs(db.withdrawals[id], id, issue)
    ensures Confirms(db, call, id) ==> ConfirmsIssue(db.withdrawals[id], id, call, issue.value)
    ensures db.withdrawals[id].approvalRequired && ConfirmsIssue(db.withdrawals[id], id, call, issue.value) ==>
              Confirms(db, call, id)
  {
    if !Requests(db, call) {
      StepElsewhere(db, call);
    }
  }

  /** Two codes for one withdrawal are never sent within the cooldown of the later one. */
  lemma {:induction false} ResendsAreSpaced(calls: seq<Call>, call: Call, id: nat)
    requires call.op.Payout? && call.op.payout.Resend? && call.op.payout.id == id
    requires StepDb(Run(START, calls).db, call).Ok?
    ensures var issue := LastIssue(START, calls, id);
            issue.Some? && call.now >= issue.value.now + call.cfg.otpCooldown
  {
    ChallengeIsLastIssued(calls, id);
  }
}
