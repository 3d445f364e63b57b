/** Whole-run guarantees of the withdrawal lifecycle. */
module PayoutTheorems {
  import opened Basics
  import opened Records
  import opened WalletRules
  import opened PayoutRules
  import opened Books
  import opened Lifecycle
  import opened Invariants
  import opened Platform

  // --------------------------------------- what one step does to one row

  /** The withdrawal an operation names. */
  function TargetOf(op: Op): Option<nat> {
    if op.Payout? && !op.payout.Request? then Some(op.payout.id) else None
  }

  predicate Requests(db: Db, call: Call) {
    call.op.Payout? && call.op.payout.Request? && StepDb(db, call).Ok?
  }

  function After(db: Db, call: Call): Db {
    StepDb(db, call).Or(db)
  }

  lemma SubmitElsewhere(db: Db, cfg: Settings, id: nat, sub: Submission, actor: Option<ActorId>)
    requires id < |db.withdrawals|
    ensures OnlyRow(db.withdrawals, Submit(db, cfg, id, sub, actor).Or(db).withdrawals, id)
  {
  }

  predicate OnlyRow(ws: seq<Withdrawal>, ws': seq<Withdrawal>, id: nat) {
    |ws'| == |ws| && forall k :: 0 <= k < |ws| && k != id ==> ws'[k] == ws[k]
  }

  lemma ConfirmElsewhere(db: Db, cfg: Settings, now: Time, op: PayoutOp)
    requires op.Confirm? && ConfirmTwoFactor(db, cfg, now, op).Ok?
    ensures OnlyRow(db.withdrawals, ConfirmTwoFactor(db, cfg, now, op).value.withdrawals, op.id)
  {
    var w := db.withdrawals[op.id];
    if RightCode(w.otp, op.id, op.code, cfg, now, op.currentEmail) && !w.approvalRequired {
      SubmitElsewhere(Shift(db, op.id, ConfirmedRow(w, now), Some(op.actor)).value, cfg, op.id, op.submission,
                      Some(op.actor));
    }
  }

  lemma ApproveElsewhere(db: Db, cfg: Settings, op: PayoutOp)
    requires op.Approve? && ApproveWithdrawal(db, cfg, op).Ok?
    ensures OnlyRow(db.withdrawals, ApproveWithdrawal(db, cfg, op).value.withdrawals, op.id)
  {
    var row := db.withdrawals[op.id].(reviewedBy := Some(op.actor), status := Approved);
    SubmitElsewhere(Shift(db, op.id, row, Some(op.actor)).value, cfg, op.id, op.submission, Some(op.actor));
  }

  lemma PayoutElsewhere(db: Db, cfg: Settings, now: Time, op: PayoutOp)
    requires !op.Request? && PayoutStep(db, cfg, now, op).Ok?
    ensures OnlyRow(db.withdrawals, PayoutStep(db, cfg, now, op).value.withdrawals, op.id)
  {
    match op
    case Confirm(_, _, _, _, _, _, _) => ConfirmElsewhere(db, cfg, now, op);
    case Approve(_, _, _) => ApproveElsewhere(db, cfg, op);
    case _ =>
  }

  lemma StepElsewhere(db: Db, call: Call)
    requires !Requests(db, call)
    ensures var ws := After(db, call).withdrawals;
            && |ws| == |db.withdrawals|
            && forall k :: 0 <= k < |ws| && TargetOf(call.op) != Some(k) ==> ws[k] == db.withdrawals[k]
  {
    if call.op.Payout? && StepDb(db, call).Ok? {
      PayoutElsewhere(db, call.cfg, call.now, call.op.payout);
    }
  }

  // -------------------------------------------- calls to transaction_process

  /** A call of transaction_process, and whether the step that made it committed. */
  datatype LoggedCall = LoggedCall(call: PayoutCall, committed: bool)

  function CallsMade(db: Db, call: Call): seq<PayoutCall> {
    if call.op.Payout? then PayoutCalls(db, call.cfg, call.now, call.op.payout) else []
  }

  /** Every call made over a run; a rollback does not unmake it. */
  function CallLog(w: World, calls: seq<Call>): seq<LoggedCall> {
    if |calls| == 0 then [] else
    var n := |calls| - 1;
    var db := Run(w, calls[..n]).db;
    var made := CallsMade(db, calls[n]);
    CallLog(w, calls[..n]) + if |made| == 1 then [LoggedCall(made[0], StepDb(db, calls[n]).Ok?)] else []
  }

  function CommittedFor(id: nat): LoggedCall -> bool {
    (c: LoggedCall) => c.call.withdrawal == id && c.committed
  }

  lemma SubmittedStage(db: Db, cfg: Settings, id: nat, sub: Submission, actor: Option<ActorId>)
    requires id < |db.withdrawals| && Submits(db, cfg, id, sub)
    ensures var r := Submit(db, cfg, id, sub, actor);
            r.Ok? ==> id < |r.value.withdrawals| && Stage(r.value.withdrawals[id].status) >= 3
  {
  }

  predicate CallOk(db: Db, call: PayoutCall) {
    && call.withdrawal < |db.withdrawals|
    && call == PayoutCall(call.withdrawal, db.withdrawals[call.withdrawal].key, db.withdrawals[call.withdrawal].amount)
    && Stage(db.withdrawals[call.withdrawal].status) < 3
  }

  /** At most one call per step, for a row not yet submitted, with that row's own
      key and amount; if the step commits, the row has been submitted. */
  lemma CallEffect(db: Db, call: Call)
    ensures |CallsMade(db, call)| <= 1
    ensures |CallsMade(db, call)| == 1 ==> CallOk(db, CallsMade(db, call)[0])
    ensures |CallsMade(db, call)| == 1 && StepDb(db, call).Ok? ==>
              var ws, id := StepDb(db, call).value.withdrawals, CallsMade(db, call)[0].withdrawal;
              id < |ws| && Stage(ws[id].status) >= 3
  {
    if |CallsMade(db, call)| > 0 {
      match call.op.payout
      case Confirm(_, id, actor, _, _, _, sub) =>
        var confirmed := Shift(db, id, ConfirmedRow(db.withdrawals[id], call.now), Some(actor)).value;
        SubmittedStage(confirmed, call.cfg, id, sub, Some(actor));
      case Approve(id, actor, sub) =>
        var row := db.withdrawals[id].(reviewedBy := Some(actor), status := Approved);
        SubmittedStage(Shift(db, id, row, Some(actor)).value, call.cfg, id, sub, Some(actor));
      case _ =>
    }
  }

  /** A logged call carries the key and the amount of the withdrawal it was made for. */
  predicate LoggedOk(db: Db, logged: LoggedCall) {
    var c := logged.call;
    && c.withdrawal < |db.withdrawals|
    && c.transId == db.withdrawals[c.withdrawal].key && c.amount == db.withdrawals[c.withdrawal].amount
  }

  ghost predicate CallsOk(db: Db, log: seq<LoggedCall>) {
    && (forall k :: 0 <= k < |log| ==> LoggedOk(db, log[k]))
    && (forall id :: 0 <= id < |db.withdrawals| ==>
          |Filter(CommittedFor(id), log)| <= if Stage(db.withdrawals[id].status) >= 3 then 1 else 0)
  }

  lemma {:induction false} CallLogOk(calls: seq<Call>)
    ensures CallsOk(Run(START, calls).db, CallLog(START, calls))
  {
    if |calls| > 0 {
      CallLogOk(calls[..|calls| - 1]);
      CallLogNext(calls);
    }
  }

  lemma {:induction false} CallLogNext(calls: seq<Call>)
    requires |calls| > 0
    requires CallsOk(Run(START, calls[..|calls| - 1]).db, CallLog(START, calls[..|calls| - 1]))
    ensures CallsOk(Run(START, calls).db, CallLog(START, calls))
  {
    var n := |calls| - 1;
    var w, call := Run(START, calls[..n]), calls[n];
    LastStepLater(calls);
    CallEffect(w.db, call);
    NextIsStep(w, call);
    CallLogStep(w.db, Next(w, call).db, StepDb(w.db, call).Ok?, CallLog(START, calls[..n]), CallsMade(w.db, call));
  }

  lemma {:induction false} CallLogStep(db: Db, db': Db, committed: bool, log: seq<LoggedCall>, made: seq<PayoutCall>)
    requires CallsOk(db, log) && PayoutsLater(db, db')
    requires |made| == 1 ==> CallOk(db, made[0])
    requires |made| == 1 && committed ==> Stage(db'.withdrawals[made[0].withdrawal].status) >= 3
    ensures CallsOk(db', log + if |made| == 1 then [LoggedCall(made[0], committed)] else [])
  {
    var added := if |made| == 1 then [LoggedCall(made[0], committed)] else [];
    var ws, ws' := db.withdrawals, db'.withdrawals;
    forall id | 0 <= id < |ws'|
      ensures |Filter(CommittedFor(id), log + added)| <= if Stage(ws'[id].status) >= 3 then 1 else 0
    {
      FilterConcat(CommittedFor(id), log, added);
      FilterLength(CommittedFor(id), added);
      if id < |ws| {
        assert RowLater(ws[id], ws'[id]);
        if |made| == 0 || made[0].withdrawal != id || !committed {
          FilterNone(CommittedFor(id), added);
        }
      } else {
        FilterNone(CommittedFor(id), log);
        FilterNone(CommittedFor(id), added);
      }
    }
    forall k | 0 <= k < |log + added|
      ensures LoggedOk(db', (log + added)[k])
    {
      var c := (log + added)[k].call;
      assert LoggedOk(db, (log + added)[k]);
      assert RowLater(ws[c.withdrawal], ws'[c.withdrawal]);
    }
  }

  lemma {:induction false} FilterLength<T>(p: T -> bool, xs: seq<T>)
    ensures |Filter(p, xs)| <= |xs|
  {
    if |xs| > 0 {
      FilterLength(p, xs[..|xs| - 1]);
    }
  }

  /** No payout is submitted twice: among steps that committed, transaction_process
      is called at most once per withdrawal; and all calls, rolled back or not, carry
      the withdrawal's own transId and amount, which no other withdrawal shares. */
  lemma {:induction false} PayoutSubmittedOnce(calls: seq<Call>, id: nat)
    ensures |Filter(CommittedFor(id), CallLog(START, calls))| <= 1
    ensures var log := CallLog(START, calls);
            forall j, k :: 0 <= j < |log| && 0 <= k < |log| ==>
              (log[j].call.withdrawal == log[k].call.withdrawal <==> log[j].call.transId == log[k].call.transId)
              && (log[j].call.transId == log[k].call.transId ==> log[j].call.amount == log[k].call.amount)
  {
    CallLogOk(calls);
    Reachable(calls);
    CallsApart(Run(START, calls).db, CallLog(START, calls), id);
  }

  lemma {:induction false} CallsApart(db: Db, log: seq<LoggedCall>, id: nat)
    requires LifecycleOk(db) && CallsOk(db, log)
    ensures |Filter(CommittedFor(id), log)| <= 1
    ensures forall j, k :: 0 <= j < |log| && 0 <= k < |log| ==>
              (log[j].call.withdrawal == log[k].call.withdrawal <==> log[j].call.transId == log[k].call.transId)
              && (log[j].call.transId == log[k].call.transId ==> log[j].call.amount == log[k].call.amount)
  {
    if id >= |db.withdrawals| {
      FilterNone(CommittedFor(id), log);
    }
    forall j, k | 0 <= j < |log| && 0 <= k < |log|
      ensures log[j].call.withdrawal == log[k].call.withdrawal <==> log[j].call.transId == log[k].call.transId
      ensures log[j].call.transId == log[k].call.transId ==> log[j].call.amount == log[k].call.amount
    {
      CallsAgree(db, log[j], log[k]);
    }
  }

  lemma CallsAgree(db: Db, a: LoggedCall, b: LoggedCall)
    requires LifecycleOk(db) && LoggedOk(db, a) && LoggedOk(db, b)
    ensures a.call.withdrawal == b.call.withdrawal <==> a.call.transId == b.call.transId
    ensures a.call.transId == b.call.transId ==> a.call.amount == b.call.amount
  {
    var i, j := a.call.withdrawal, b.call.withdrawal;
    assert i < j ==> db.withdrawals[i].key != db.withdrawals[j].key;
    assert j < i ==> db.withdrawals[j].key != db.withdrawals[i].key;
  }

  // ------------------------------------------------------ settings obeyed

  /** What the settings say about one request. */
  predicate RequestFits(w: Withdrawal, lo: int, hi: int, threshold: int) {
    lo <= w.amount <= hi && w.currency == TZS && (w.approvalRequired <==> w.amount > threshold)
  }

  /** With the limits and the threshold fixed, every withdrawal of every reachable state is
      within the limits, and needs review exactly when it is over the threshold. */
  lemma {:induction false} RequestsFit(calls: seq<Call>, id: nat, lo: int, hi: int, threshold: int)
    requires forall k :: 0 <= k < |calls| ==>
               && calls[k].cfg.minAmount == Some(lo) && calls[k].cfg.maxAmount == Some(hi)
               && calls[k].cfg.approvalThreshold == threshold
    requires id < |Run(START, calls).db.withdrawals|
    ensures RequestFits(Run(START, calls).db.withdrawals[id], lo, hi, threshold)
  {
    if |calls| > 0 {
      var n := |calls| - 1;
      var before := Run(START, calls[..n]);
      LastStepLater(calls);
      NextIsStep(before, calls[n]);
      assert calls[n].cfg.minAmount == Some(lo);
      if id < |before.db.withdrawals| {
        RequestsFit(calls[..n], id, lo, hi, threshold);
        assert RowLater(before.db.withdrawals[id], Run(START, calls).db.withdrawals[id]);
      } else {
        NewRowFits(before.db, calls[n], id);
      }
    }
  }

  lemma NewRowFits(db: Db, call: Call, id: nat)
    requires |db.withdrawals| <= id < |After(db, call).withdrawals|
    requires call.cfg.minAmount.Some? && call.cfg.maxAmount.Some?
    ensures RequestFits(After(db, call).withdrawals[id], call.cfg.minAmount.value, call.cfg.maxAmount.value,
                        call.cfg.approvalThreshold)
  {
    if !Requests(db, call) {
      StepElsewhere(db, call);
    }
  }

  // ------------------------------------------------------ event histories

  /** Where a log says the withdrawal is, read from its first event to its last. */
  function Replay(es: seq<Event>, at: Option<WithdrawalStatus>): Result<Option<WithdrawalStatus>> {
    if |es| == 0 then Ok(at)
    else if es[0].from != at then Raised(Integrity)
    else Replay(es[1..], Some(es[0].to))
  }

  lemma {:induction false} ReplayLast(es: seq<Event>, at: Option<WithdrawalStatus>)
    requires |es| > 0
    ensures var before := Replay(es[..|es| - 1], at);
            Replay(es, at)
            == if before.Raised? then before
               else if es[|es| - 1].from != before.value then Raised(Integrity)
               else Ok(Some(es[|es| - 1].to))
  {
    if |es| > 1 && es[0].from == at {
      ReplayLast(es[1..], Some(es[0].to));
      assert es[1..][..|es| - 2] == es[..|es| - 1][1..];
    } else if |es| == 1 {
      assert es[1..] == [] && es[..0] == [];
    }
  }

  lemma {:induction false} TrailReplays(es: seq<Event>, approvalRequired: bool, status: WithdrawalStatus)
    requires Trail(es, approvalRequired, status)
    ensures Replay(es, None) == Ok(Some(status))
    decreases |es|
  {
    ReplayLast(es, None);
    if es[|es| - 1].from.Some? {
      TrailReplays(es[..|es| - 1], approvalRequired, es[|es| - 1].from.value);
    } else {
      assert es[..0] == [];
    }
  }

  predicate Visits(es: seq<Event>, s: WithdrawalStatus) {
    exists k :: 0 <= k < |es| && es[k].to == s
  }

  /** A trail passes review exactly when approval was required, once it is past DRAFT
      other than by cancellation. */
  lemma {:induction false} TrailReview(es: seq<Event>, approvalRequired: bool, status: WithdrawalStatus)
    requires Trail(es, approvalRequired, status)
    ensures Visits(es, PendingApproval) ==> approvalRequired
    ensures approvalRequired && !status.Draft? && !status.Cancelled? ==> Visits(es, PendingApproval)
    decreases |es|
  {
    var n := |es| - 1;
    var es' := es[..n];
    if es[n].from.Some? {
      TrailReview(es', approvalRequired, es[n].from.value);
      if Visits(es', PendingApproval) {
        var k :| 0 <= k < |es'| && es'[k].to == PendingApproval;
        assert es[k].to == PendingApproval;
      }
      if Visits(es, PendingApproval) && !status.PendingApproval? {
        var k :| 0 <= k < |es| && es[k].to == PendingApproval;
        assert es'[k].to == PendingApproval;
      }
      if status.PendingApproval? {
        assert es[n].to == PendingApproval;
      }
    }
  }

  /** In every reachable state each withdrawal's event log replays to its status along
      allowed edges; past DRAFT, other than by cancellation, its code was confirmed; it
      went through review exactly when that was required, and then has a reviewer. */
  lemma {:induction false} HistoryReplays(calls: seq<Call>, id: nat)
    requires id < |Run(START, calls).db.withdrawals|
    ensures var db := Run(START, calls).db;
            var w, es := db.withdrawals[id], EventsOf(db, id);
            && Replay(es, None) == Ok(Some(w.status))
            && (forall k :: 0 < k < |es| ==> es[k].from.Some? && Edge(es[k].from.value, es[k].to))
            && (!w.status.Draft? && !w.status.Cancelled? ==>
                  && w.otp.confirmedAt.Some?
                  && (Visits(es, PendingApproval) <==> w.approvalRequired)
                  && (w.approvalRequired && !w.status.PendingApproval? ==> w.reviewedBy.Some?))
            && (Visits(es, PendingApproval) ==> w.approvalRequired)
  {
    Reachable(calls);
    var db := Run(START, calls).db;
    assert WithdrawalOk(db, id);
    TrailReplays(EventsOf(db, id), db.withdrawals[id].approvalRequired, db.withdrawals[id].status);
    TrailReview(EventsOf(db, id), db.withdrawals[id].approvalRequired, db.withdrawals[id].status);
    TrailEdges(EventsOf(db, id), db.withdrawals[id].approvalRequired, db.withdrawals[id].status);
  }

  lemma {:induction false} TrailEdges(es: seq<Event>, approvalRequired: bool, status: WithdrawalStatus)
    requires Trail(es, approvalRequired, status)
    ensures forall k :: 0 < k < |es| ==> es[k].from.Some? && Edge(es[k].from.value, es[k].to)
    decreases |es|
  {
    var n := |es| - 1;
    if es[n].from.Some? {
      TrailEdges(es[..n], approvalRequired, es[n].from.value);
      forall k | 0 < k < |es|
        ensures es[k].from.Some? && Edge(es[k].from.value, es[k].to)
      {
        if k < n {
          assert es[..n][k] == es[k];
        }
      }
    }
  }

  /** Ended withdrawals stay ended, whatever runs later; only a success can still be
      reversed, and that changes nothing else on the row. */
  lemma {:induction false} EndedStaysEnded(w: World, calls: seq<Call>, id: nat)
    requires WorldInv(w) && id < |w.db.withdrawals|
    requires Stage(w.db.withdrawals[id].status) >= 4
    ensures id < |Run(w, calls).db.withdrawals|
    ensures var row, row' := w.db.withdrawals[id], Run(w, calls).db.withdrawals[id];
            row' == row || (row.status.Success? && row' == row.(status := Reversed))
  {
    RunKeeps(w, calls);
    assert RowLater(w.db.withdrawals[id], Run(w, calls).db.withdrawals[id]);
  }

  /** Not every held withdrawal can still be reconciled or cancelled: once a step leaves
      one in APPROVED, no call of any kind ever moves it again, and its hold stays. */
  lemma {:induction false} ApprovedNeverMoves(w: World, calls: seq<Call>, id: nat)
    requires id < |w.db.withdrawals| && w.db.withdrawals[id].status.Approved?
    ensures id < |Run(w, calls).db.withdrawals| && Run(w, calls).db.withdrawals[id] == w.db.withdrawals[id]
  {
    if |calls| > 0 {
      var n := |calls| - 1;
      ApprovedNeverMoves(w, calls[..n], id);
      ApprovedStep(Run(w, calls[..n]), calls[n], id);
    }
  }

  lemma ApprovedStep(w: World, call: Call, id: nat)
    requires id < |w.db.withdrawals| && w.db.withdrawals[id].status.Approved?
    ensures id < |Next(w, call).db.withdrawals| && Next(w, call).db.withdrawals[id] == w.db.withdrawals[id]
  {
    if !Requests(w.db, call) {
      StepElsewhere(w.db, call);
    }
  }

  /** Any call that would move a held withdrawal on. */
  predicate Moves(db: Db, call: Call, id: nat)
    requires id < |db.withdrawals|
  {
    id < |After(db, call).withdrawals| && After(db, call).withdrawals[id].status != db.withdrawals[id].status
  }

  /** While its wallet's reserved bucket covers it, a held withdrawal can be moved by
      some call exactly when it is not APPROVED. */
  lemma HeldMovesIffNotApproved(db: Db, id: nat, cfg: Settings)
    requires Inv(db) && id < |db.withdrawals| && Held(db.withdrawals[id].status)
    requires db.withdrawals[id].amount <= WalletOf(db, db.withdrawals[id].tenant).reserved
    ensures (exists call :: Moves(db, call, id)) <==> !db.withdrawals[id].status.Approved?
  {
    if db.withdrawals[id].status.Approved? {
      forall call
        ensures !Moves(db, call, id)
      {
        if !Requests(db, call) {
          StepElsewhere(db, call);
        }
      }
    } else {
      HeldCanMove(db, id, cfg);
    }
  }

  lemma HeldCanMove(db: Db, id: nat, cfg: Settings)
    requires Inv(db) && id < |db.withdrawals|
    requires Held(db.withdrawals[id].status) && !db.withdrawals[id].status.Approved?
    requires db.withdrawals[id].amount <= WalletOf(db, db.withdrawals[id].tenant).reserved
    ensures exists call :: Moves(db, call, id)
  {
    var w := db.withdrawals[id];
    RowIsOk(db, id);
    if InFlight(w.status) {
      var refused := Reply(Refused, None, None, None);
      assert Moves(db, Call(cfg, 0, Payout(Reconcile(id, Answer(refused)))), id);
    } else {
      assert Moves(db, Call(cfg, 0, Payout(Cancel(w.tenant, id, w.requestedBy))), id);
    }
  }

  /** The gates are open and the account lookup cannot be reached. */
  predicate LookupUnreached(cfg: Settings, sub: Submission) {
    && cfg.disbursementEnabled && !(cfg.production && !cfg.productionPayouts)
    && sub.destinationComplete && sub.lookup.LookupUnreachable?
  }

  lemma SubmissionLeavesApprovedIff(db: Db, cfg: Settings, id: nat, sub: Submission, actor: Option<ActorId>)
    requires id < |db.withdrawals| && db.withdrawals[id].status.Approved?
    ensures var r := Submit(db, cfg, id, sub, actor);
            && (r.Ok? && r.value.withdrawals[id].status.Approved? <==> LookupUnreached(cfg, sub))
            && (LookupUnreached(cfg, sub) ==> r == Ok(db))
  {
  }

  /** The requester's confirmation with the right code where no review follows, or the
      approval of a withdrawal under review: the calls that go on to submit it. */
  predicate GoesOnToSubmit(db: Db, call: Call, id: nat)
    requires id < |db.withdrawals|
  {
    && call.op.Payout?
    && var w := db.withdrawals[id];
       match call.op.payout
       case Confirm(tenant, k, actor, code, email, _, _) =>
         && k == id && w.tenant == tenant && w.requestedBy == actor && w.status.Draft? && !w.approvalRequired
         && call.cfg.otpSecret && RightCode(w.otp, id, code, call.cfg, call.now, email)
       case Approve(k, _, _) => k == id && w.status.PendingApproval?
       case _ => false
  }

  /** A call leaves a withdrawal at rest in APPROVED exactly when it goes on to submit it
      and finds the account lookup unreachable; it then commits, and the hold stays. */
  lemma LeftApprovedIff(db: Db, call: Call, id: nat)
    requires id < |db.withdrawals| && !db.withdrawals[id].status.Approved?
    ensures id < |After(db, call).withdrawals|
    ensures After(db, call).withdrawals[id].status.Approved?
            <==> GoesOnToSubmit(db, call, id) && LookupUnreached(call.cfg, call.op.payout.submission)
    ensures After(db, call).withdrawals[id].status.Approved? ==>
              StepDb(db, call).Ok? && After(db, call).wallets == db.wallets
  {
    if !Requests(db, call) {
      StepElsewhere(db, call);
    }
    if TargetOf(call.op) == Some(id) {
      if call.op.payout.Confirm? {
        ConfirmLeavesApprovedIff(db, call, id);
      } else if call.op.payout.Approve? {
        ApproveLeavesApprovedIff(db, call, id);
      }
    }
  }

  lemma ConfirmLeavesApprovedIff(db: Db, call: Call, id: nat)
    requires id < |db.withdrawals| && !db.withdrawals[id].status.Approved?
    requires call.op.Payout? && call.op.payout.Confirm? && call.op.payout.id == id
    ensures var r := StepDb(db, call);
            && (r.Ok? && r.value.withdrawals[id].status.Approved?
                <==> GoesOnToSubmit(db, call, id) && LookupUnreached(call.cfg, call.op.payout.submission))
            && (r.Ok? && r.value.withdrawals[id].status.Approved? ==> r.value.wallets == db.wallets)
  {
    if GoesOnToSubmit(db, call, id) {
      var op := call.op.payout;
      var confirmed := Shift(db, id, ConfirmedRow(db.withdrawals[id], call.now), Some(op.actor)).value;
      SubmissionLeavesApprovedIff(confirmed, call.cfg, id, op.submission, Some(op.actor));
    }
  }

  lemma ApproveLeavesApprovedIff(db: Db, call: Call, id: nat)
    requires id < |db.withdrawals| && !db.withdrawals[id].status.Approved?
    requires call.op.Payout? && call.op.payout.Approve? && call.op.payout.id == id
    ensures var r := StepDb(db, call);
            && (r.Ok? && r.value.withdrawals[id].status.Approved?
                <==> GoesOnToSubmit(db, call, id) && LookupUnreached(call.cfg, call.op.payout.submission))
            && (r.Ok? && r.value.withdrawals[id].status.Approved? ==> r.value.wallets == db.wallets)
  {
    if GoesOnToSubmit(db, call, id) {
      var op := call.op.payout;
      var row := db.withdrawals[id].(reviewedBy := Some(op.actor), status := Approved);
      SubmissionLeavesApprovedIff(Shift(db, id, row, Some(op.actor)).value, call.cfg, id, op.submission,
                                  Some(op.actor));
    }
  }
}
