/** What becomes of a withdrawal once something is reported about its transfer. */
module PayoutResults {
  import opened Basics
  import opened Records
  import opened WalletRules
  import opened PayoutRules
  import opened Books
  import opened Lifecycle
  import opened Invariants
  import opened Platform
  import opened PayoutTheorems
  import opened PayoutEffects

  // ------------------------------------------------------------- reports

  /** What is reported about a transfer: a reply of the provider, which is checked, or
      the bare word of apply_disbursement_result, which is not. */
  datatype Report = Checked(reply: Reply) | Unchecked(succeeded: bool)

  /** What the submission itself hears back. */
  function SubmissionReport(sub: Submission): Option<Report> {
    match sub.process
    case Processed(reply) => Some(Checked(reply))
    case ProcessRefused => Some(Checked(Reply(Refused, None, None, None)))
    case ProcessUnreachable => if sub.query.Answer? then Some(Checked(sub.query.reply)) else None
    case ProcessFault => None
  }

  /** What a call hears about a withdrawal that has been submitted, or that the call
      submits; apply_disbursement_result listens in PROCESSING only. */
  function ReportOf(db: Db, call: Call, id: nat): Option<Report> {
    if id >= |db.withdrawals| then None else
    var status := db.withdrawals[id].status;
    match call.op
    case Payout(Reconcile(k, Answer(reply))) => if k == id && Stage(status) >= 3 then Some(Checked(reply)) else None
    case Payout(ReconcileIfPending(k, Answer(reply))) =>
      if k == id && Stage(status) >= 3 then Some(Checked(reply)) else None
    case Payout(ApplyDisbursement(k, succeeded)) =>
      if k == id && status.Processing? then Some(Unchecked(succeeded)) else None
    case Payout(op) =>
      if (op.Confirm? || op.Approve?) && op.id == id && |CallsMade(db, call)| == 1
      then SubmissionReport(op.submission) else None
    case _ => None
  }

  function HeardBy(db: Db, call: Call, id: nat): Option<Report> {
    if StepDb(db, call).Ok? then ReportOf(db, call, id) else None
  }

  function Adding(earlier: seq<Report>, report: Option<Report>): seq<Report> {
    if report.Some? then earlier + [report.value] else earlier
  }

  /** Everything reported about a withdrawal over a run, and what of it was heard by a
      call that committed. */
  function Reports(w: World, calls: seq<Call>, id: nat): seq<Report> {
    if |calls| == 0 then [] else
    var n := |calls| - 1;
    Adding(Reports(w, calls[..n], id), ReportOf(Run(w, calls[..n]).db, calls[n], id))
  }

  function Heard(w: World, calls: seq<Call>, id: nat): seq<Report> {
    if |calls| == 0 then [] else
    var n := |calls| - 1;
    Adding(Heard(w, calls[..n], id), HeardBy(Run(w, calls[..n]).db, calls[n], id))
  }

  /** A committed call of transaction_process for this withdrawal. */
  predicate Transfers(db: Db, call: Call, id: nat) {
    |CallsMade(db, call)| == 1 && CallsMade(db, call)[0].withdrawal == id && StepDb(db, call).Ok?
  }

  predicate Transferred(w: World, calls: seq<Call>, id: nat) {
    |calls| > 0 &&
    var n := |calls| - 1;
    Transferred(w, calls[..n], id) || Transfers(Run(w, calls[..n]).db, calls[n], id)
  }

  // ------------------------------------------------------------- verdicts

  /** What a report settles for good, if anything. */
  function Decisive(w: Withdrawal, report: Report): Option<WithdrawalStatus> {
    match report
    case Unchecked(succeeded) => Some(if succeeded then Success else Failed)
    case Checked(reply) =>
      match reply.outcome
      case Succeeded => if OfThisTransfer(w, reply) then Some(Success) else None
      case Refused => Some(Failed)
      case _ => None
  }

  /** A report that casts doubt: unknown, or a success that does not match. */
  predicate Doubtful(w: Withdrawal, report: Report) {
    && report.Checked?
    && (report.reply.outcome.Unknown? || (report.reply.outcome.Succeeded? && !OfThisTransfer(w, report.reply)))
  }

  function FirstDecisive(w: Withdrawal, reports: seq<Report>): Option<WithdrawalStatus> {
    if |reports| == 0 then None else
    var n := |reports| - 1;
    var earlier := FirstDecisive(w, reports[..n]);
    if earlier.Some? then earlier else Decisive(w, reports[n])
  }

  predicate AnyDoubtful(w: Withdrawal, reports: seq<Report>) {
    exists k :: 0 <= k < |reports| && Doubtful(w, reports[k])
  }

  /** SUCCESS and FAILED last, except that a success may be reversed. */
  predicate Stands(decided: WithdrawalStatus, now: WithdrawalStatus) {
    now == decided || (decided.Success? && now.Reversed?)
  }

  /** Once transferred, the first decisive report decides; with none, the hold is still
      there, AMBIGUOUS exactly when some report was unknown or did not match. Never
      transferred, a withdrawal is neither in flight nor disbursed. */
  predicate Verdict(w: Withdrawal, transferred: bool, reports: seq<Report>) {
    if transferred then
      match FirstDecisive(w, reports)
      case Some(decided) => Stands(decided, w.status)
      case None => w.status == if AnyDoubtful(w, reports) then Ambiguous else Processing
    else
      && !InFlight(w.status) && !WasDisbursed(w.status)
      && (Stage(w.status) < 3 ==> reports == [])
  }

  predicate VerdictAt(db: Db, id: nat, transferred: bool, reports: seq<Report>) {
    if id < |db.withdrawals| then Verdict(db.withdrawals[id], transferred, reports) else !transferred && reports == []
  }

  /** What a report does to a row in flight. */
  function Moved(w: Withdrawal, report: Option<Report>): Withdrawal {
    match report
    case None => w
    case Some(r) =>
      w.(status := if Decisive(w, r).Some? then Decisive(w, r).value
                   else if Doubtful(w, r) then Ambiguous else w.status)
  }

  // --------------------------------------------- what one call does to a row

  /** In flight, only a report moves a row, and it moves only the status. */
  lemma InFlightStep(db: Db, call: Call, id: nat)
    requires id < |db.withdrawals| && InFlight(db.withdrawals[id].status)
    ensures id < |After(db, call).withdrawals|
    ensures After(db, call).withdrawals[id] == Moved(db.withdrawals[id], HeardBy(db, call, id))
  {
    if !Requests(db, call) {
      StepElsewhere(db, call);
    }
    if TargetOf(call.op) == Some(id) && StepDb(db, call).Ok? {
      match call.op.payout
      case Reconcile(_, query) => QueryMoves(db, id, query);
      case ReconcileIfPending(_, query) => QueryMoves(db, id, query);
      case ApplyDisbursement(_, _) =>
      case _ => assert false;
    }
  }

  lemma ReplyMoves(db: Db, id: nat, reply: Reply, actor: Option<ActorId>)
    requires id < |db.withdrawals| && InFlight(db.withdrawals[id].status)
    requires ApplyProviderResult(db, id, reply, actor).Ok?
    ensures ApplyProviderResult(db, id, reply, actor).value.withdrawals
            == db.withdrawals[id := Moved(db.withdrawals[id], Some(Checked(reply)))]
  {
    OfThisTransferIff(db.withdrawals[id], reply);
  }

  lemma QueryMoves(db: Db, id: nat, query: Query)
    requires id < |db.withdrawals| && InFlight(db.withdrawals[id].status)
    requires ReconcileLocked(db, id, query, None).Ok?
    ensures ReconcileLocked(db, id, query, None).value.withdrawals
            == db.withdrawals[id := Moved(db.withdrawals[id],
                                          if query.Answer? then Some(Checked(query.reply)) else None)]
  {
    if query.Answer? {
      ReplyMoves(db, id, query.reply, None);
    }
  }

  lemma AnsweredMoves(db: Db, id: nat, sub: Submission, actor: Option<ActorId>)
    requires id < |db.withdrawals| && db.withdrawals[id].status.Processing? && Answered(db, id, sub, actor).Ok?
    ensures Answered(db, id, sub, actor).value.withdrawals
            == db.withdrawals[id := Moved(db.withdrawals[id], SubmissionReport(sub))]
  {
    match sub.process
    case Processed(reply) => ReplyMoves(db, id, reply, actor);
    case ProcessUnreachable =>
      if sub.query.Answer? {
        ReplyMoves(db, id, sub.query.reply, actor);
      }
    case _ =>
  }

  /** Before it is submitted, only a transfer takes a row in flight or further. */
  lemma UnsubmittedStep(db: Db, call: Call, id: nat)
    requires id < |db.withdrawals| && Stage(db.withdrawals[id].status) < 3
    requires !Transfers(db, call, id)
    ensures id < |After(db, call).withdrawals| && HeardBy(db, call, id).None?
    ensures var s := After(db, call).withdrawals[id].status; !InFlight(s) && !WasDisbursed(s)
  {
    if !Requests(db, call) {
      StepElsewhere(db, call);
    }
    if TargetOf(call.op) == Some(id) && StepDb(db, call).Ok? {
      if call.op.payout.Confirm? {
        UnsentConfirm(db, call.cfg, call.now, call.op.payout);
      } else if call.op.payout.Approve? {
        UnsentApproval(db, call.cfg, call.op.payout);
      } else {
        UnsubmittedOtherwise(db, call, id);
      }
    }
  }

  lemma UnsubmittedOtherwise(db: Db, call: Call, id: nat)
    requires id < |db.withdrawals| && Stage(db.withdrawals[id].status) < 3
    requires TargetOf(call.op) == Some(id) && StepDb(db, call).Ok?
    requires !call.op.payout.Confirm? && !call.op.payout.Approve?
    ensures id < |After(db, call).withdrawals|
    ensures var s := After(db, call).withdrawals[id].status; !InFlight(s) && !WasDisbursed(s)
  {
  }

  lemma UnsentApproval(db: Db, cfg: Settings, op: PayoutOp)
    requires op.Approve? && ApproveWithdrawal(db, cfg, op).Ok? && PayoutCalls(db, cfg, 0, op) == []
    ensures var ws' := ApproveWithdrawal(db, cfg, op).value.withdrawals;
            op.id < |ws'| && !InFlight(ws'[op.id].status) && !WasDisbursed(ws'[op.id].status)
  {
    var row := db.withdrawals[op.id].(reviewedBy := Some(op.actor), status := Approved);
    NotSent(Shift(db, op.id, row, Some(op.actor)).value, cfg, op.id, op.submission, Some(op.actor));
  }

  lemma UnsentConfirm(db: Db, cfg: Settings, now: Time, op: PayoutOp)
    requires op.Confirm? && ConfirmTwoFactor(db, cfg, now, op).Ok? && PayoutCalls(db, cfg, now, op) == []
    ensures var ws' := ConfirmTwoFactor(db, cfg, now, op).value.withdrawals;
            op.id < |ws'| && !InFlight(ws'[op.id].status) && !WasDisbursed(ws'[op.id].status)
  {
    var w := db.withdrawals[op.id];
    if RightCode(w.otp, op.id, op.code, cfg, now, op.currentEmail) && !w.approvalRequired {
      var confirmed := Shift(db, op.id, ConfirmedRow(w, now), Some(op.actor)).value;
      NotSent(confirmed, cfg, op.id, op.submission, Some(op.actor));
    }
  }

  lemma NotSent(db: Db, cfg: Settings, id: nat, sub: Submission, actor: Option<ActorId>)
    requires id < |db.withdrawals| && db.withdrawals[id].status.Approved?
    requires !Submits(db, cfg, id, sub) && Submit(db, cfg, id, sub, actor).Ok?
    ensures var s := Submit(db, cfg, id, sub, actor).value.withdrawals[id].status; s.Approved? || s.Failed?
  {
  }

  /** A committed transfer leaves PROCESSING moved by what the submission itself heard. */
  lemma TransferStep(db: Db, call: Call, id: nat)
    requires Transfers(db, call, id)
    ensures id < |db.withdrawals| && Stage(db.withdrawals[id].status) < 3
    ensures id < |After(db, call).withdrawals|
    ensures var row' := After(db, call).withdrawals[id];
            row' == Moved(row'.(status := Processing), HeardBy(db, call, id))
  {
    CallEffect(db, call);
    TransferIs(db, call, id);
    AnsweredMoves(Transferring(db, call, id), id, call.op.payout.submission, Some(call.op.payout.actor));
  }

  // ------------------------------------------------------------ whole runs

  /** What was decided depends on nothing a row changes once submitted. */
  lemma {:induction false} SameDecision(w: Withdrawal, w': Withdrawal, reports: seq<Report>)
    requires w' == w.(status := w'.status)
    ensures FirstDecisive(w, reports) == FirstDecisive(w', reports)
    ensures AnyDoubtful(w, reports) == AnyDoubtful(w', reports)
  {
    if |reports| > 0 {
      SameDecision(w, w', reports[..|reports| - 1]);
    }
    assert forall k :: 0 <= k < |reports| ==> Doubtful(w, reports[k]) == Doubtful(w', reports[k]);
  }

  /** A decision is SUCCESS or FAILED, and some report made it. */
  lemma {:induction false} DecisionsEnd(w: Withdrawal, reports: seq<Report>)
    ensures FirstDecisive(w, reports).Some? ==> FirstDecisive(w, reports).value in {Success, Failed}
    ensures FirstDecisive(w, reports).Some? ==>
              exists k :: 0 <= k < |reports| && Decisive(w, reports[k]) == FirstDecisive(w, reports)
  {
    if |reports| > 0 {
      var n := |reports| - 1;
      DecisionsEnd(w, reports[..n]);
      if FirstDecisive(w, reports[..n]).Some? {
        var k :| 0 <= k < n && Decisive(w, reports[..n][k]) == FirstDecisive(w, reports[..n]);
        assert Decisive(w, reports[k]) == FirstDecisive(w, reports);
      } else {
        assert Decisive(w, reports[n]) == FirstDecisive(w, reports);
      }
    }
  }

  lemma {:induction false} ReportsExtend(w: Withdrawal, earlier: seq<Report>, report: Report)
    ensures FirstDecisive(w, earlier + [report])
            == if FirstDecisive(w, earlier).Some? then FirstDecisive(w, earlier) else Decisive(w, report)
    ensures AnyDoubtful(w, earlier + [report]) <==> AnyDoubtful(w, earlier) || Doubtful(w, report)
  {
    var reports := earlier + [report];
    assert reports[..|earlier|] == earlier;
    if AnyDoubtful(w, earlier) {
      var k :| 0 <= k < |earlier| && Doubtful(w, earlier[k]);
      assert reports[k] == earlier[k];
    }
    if Doubtful(w, report) {
      assert Doubtful(w, reports[|earlier|]);
    }
  }

  lemma {:induction false} VerdictStep(w: Withdrawal, transferred: bool, reports: seq<Report>, w': Withdrawal,
                                       transfer: bool, report: Option<Report>)
    requires Verdict(w, transferred, reports) && RowLater(w, w')
    requires transfer ==> Stage(w.status) < 3 && w' == Moved(w'.(status := Processing), report)
    requires !transfer && Stage(w.status) < 3 ==> report.None? && !InFlight(w'.status) && !WasDisbursed(w'.status)
    requires InFlight(w.status) ==> w' == Moved(w, report)
    ensures Verdict(w', transferred || transfer, Adding(reports, report))
  {
    DecisionsEnd(w, reports);
    if report.Some? {
      ReportsExtend(w', reports, report.value);
    }
    if Stage(w.status) >= 3 {
      SameDecision(w, w', reports);
    }
  }

  lemma VerdictNext(w: World, call: Call, id: nat, transferred: bool, reports: seq<Report>)
    requires PayoutsLater(w.db, Next(w, call).db)
    requires VerdictAt(w.db, id, transferred, reports)
    ensures VerdictAt(Next(w, call).db, id, transferred || Transfers(w.db, call, id),
                      Adding(reports, HeardBy(w.db, call, id)))
  {
    var ws, ws' := w.db.withdrawals, Next(w, call).db.withdrawals;
    NextIsStep(w, call);
    CallEffect(w.db, call);
    if id < |ws| {
      assert RowLater(ws[id], ws'[id]);
      if Transfers(w.db, call, id) {
        TransferStep(w.db, call, id);
      } else if Stage(ws[id].status) < 3 {
        UnsubmittedStep(w.db, call, id);
      } else if InFlight(ws[id].status) {
        InFlightStep(w.db, call, id);
      }
      VerdictStep(ws[id], transferred, reports, ws'[id], Transfers(w.db, call, id), HeardBy(w.db, call, id));
    } else if id < |ws'| && !Requests(w.db, call) {
      StepElsewhere(w.db, call);
    }
  }

  lemma {:induction false} VerdictReached(calls: seq<Call>, id: nat)
    ensures VerdictAt(Run(START, calls).db, id, Transferred(START, calls, id), Heard(START, calls, id))
  {
    if |calls| > 0 {
      var n := |calls| - 1;
      VerdictReached(calls[..n], id);
      LastStepLater(calls);
      VerdictNext(Run(START, calls[..n]), calls[n], id, Transferred(START, calls[..n], id),
                  Heard(START, calls[..n], id));
    }
  }

  /** Over every run from the start, whatever a withdrawal's submission and every later
      call hear about it: the first decisive report decides for good. */
  lemma {:induction false} FirstDecisiveResultWins(calls: seq<Call>, id: nat)
    requires id < |Run(START, calls).db.withdrawals|
    ensures Verdict(Run(START, calls).db.withdrawals[id], Transferred(START, calls, id), Heard(START, calls, id))
  {
    VerdictReached(calls, id);
  }

  predicate AppliesUnchecked(call: Call, id: nat) {
    call.op.Payout? && call.op.payout.ApplyDisbursement? && call.op.payout.id == id
  }

  lemma {:induction false} OnlyChecked(w: World, calls: seq<Call>, id: nat)
    requires forall k :: 0 <= k < |calls| ==> !AppliesUnchecked(calls[k], id)
    ensures forall k :: 0 <= k < |Heard(w, calls, id)| ==> Heard(w, calls, id)[k].Checked?
  {
    if |calls| > 0 {
      OnlyChecked(w, calls[..|calls| - 1], id);
      assert !AppliesUnchecked(calls[|calls| - 1], id);
    }
  }

  predicate ExplainedSuccess(w: Withdrawal, report: Report) {
    && report.Checked? && report.reply.outcome.Succeeded?
    && (report.reply.transId == None || report.reply.transId == Some(w.key))
    && (report.reply.currency == None || report.reply.currency == Some(w.currency))
    && (|| report.reply.amount == None
        || report.reply.amount == Some(Cents(w.amount))
        || (w.providerCharge.Some? && w.providerCharge.value >= 0
            && report.reply.amount == Some(Cents(w.amount + w.providerCharge.value))))
  }

  predicate AnyExplains(w: Withdrawal, heard: seq<Report>) {
    exists k :: 0 <= k < |heard| && ExplainedSuccess(w, heard[k])
  }

  /** No withdrawal is ever disbursed unless some provider reply reported success with
      transId and currency absent or its own, and amount absent or explained. */
  lemma {:induction false} SuccessWasExplained(calls: seq<Call>, id: nat)
    requires id < |Run(START, calls).db.withdrawals| && WasDisbursed(Run(START, calls).db.withdrawals[id].status)
    requires forall k :: 0 <= k < |calls| ==> !AppliesUnchecked(calls[k], id)
    ensures AnyExplains(Run(START, calls).db.withdrawals[id], Heard(START, calls, id))
  {
    FirstDecisiveResultWins(calls, id);
    OnlyChecked(START, calls, id);
    SuccessIsExplained(Run(START, calls).db.withdrawals[id], Transferred(START, calls, id), Heard(START, calls, id));
  }

  lemma {:induction false} SuccessIsExplained(w: Withdrawal, transferred: bool, heard: seq<Report>)
    requires Verdict(w, transferred, heard) && WasDisbursed(w.status)
    requires forall k :: 0 <= k < |heard| ==> heard[k].Checked?
    ensures AnyExplains(w, heard)
  {
    DecisionsEnd(w, heard);
    assert FirstDecisive(w, heard) == Some(Success);
    var k :| 0 <= k < |heard| && Decisive(w, heard[k]) == FirstDecisive(w, heard);
    assert heard[k].Checked?;
    assert ExplainedSuccess(w, heard[k]);
  }

  // -------------------------------------------------- which reports count

  /** The row a report is compared with: a submission has just stored its charge. */
  function Compared(db: Db, call: Call, id: nat): Withdrawal
    requires id < |db.withdrawals|
  {
    var w := db.withdrawals[id];
    if Stage(w.status) < 3 && call.op.Payout? && (call.op.payout.Confirm? || call.op.payout.Approve?)
       && call.op.payout.submission.lookup.Account?
    then w.(providerCharge := call.op.payout.submission.lookup.charge) else w
  }

  /** A report is lost, because its call raises and rolls back, exactly when it would end
      a withdrawal whose hold its wallet's reserved bucket no longer covers. */
  lemma ReportLostIff(db: Db, call: Call, id: nat)
    requires Inv(db) && id < |db.withdrawals| && ReportOf(db, call, id).Some?
    ensures var w := db.withdrawals[id];
            StepDb(db, call).Raised? <==>
              && Stage(w.status) < 4 && Decisive(Compared(db, call, id), ReportOf(db, call, id).value).Some?
              && WalletOf(db, w.tenant).reserved < w.amount
  {
    RowIsOk(db, id);
    assert WalletOf(db, db.withdrawals[id].tenant).NonNegative();
    if call.op.payout.Confirm? || call.op.payout.Approve? {
      SubmissionLostIff(db, call, id);
    } else {
      ReplyLostIff(db, call, id);
    }
  }

  lemma SubmissionLostIff(db: Db, call: Call, id: nat)
    requires id < |db.withdrawals| && db.withdrawals[id].amount > 0 && ReportOf(db, call, id).Some?
    requires WalletOf(db, db.withdrawals[id].tenant).NonNegative()
    requires call.op.payout.Confirm? || call.op.payout.Approve?
    ensures var w := db.withdrawals[id];
            StepDb(db, call).Raised? <==>
              && Stage(w.status) < 4 && Decisive(Compared(db, call, id), ReportOf(db, call, id).value).Some?
              && WalletOf(db, w.tenant).reserved < w.amount
  {
    CallEffect(db, call);
    TransferIs(db, call, id);
    AnsweredLostIff(Transferring(db, call, id), id, call.op.payout.submission, Some(call.op.payout.actor));
    SameTermsDecide(Transferring(db, call, id).withdrawals[id], Compared(db, call, id), ReportOf(db, call, id).value);
  }

  lemma SameTermsDecide(w: Withdrawal, w': Withdrawal, report: Report)
    requires w.key == w'.key && w.currency == w'.currency && w.amount == w'.amount
    requires w.providerCharge == w'.providerCharge
    ensures Decisive(w, report) == Decisive(w', report)
  {
  }

  lemma AnsweredLostIff(db: Db, id: nat, sub: Submission, actor: Option<ActorId>)
    requires id < |db.withdrawals| && db.withdrawals[id].status.Processing? && db.withdrawals[id].amount > 0
    requires SubmissionReport(sub).Some?
    requires WalletOf(db, db.withdrawals[id].tenant).NonNegative()
    ensures var w := db.withdrawals[id];
            Answered(db, id, sub, actor).Raised? <==>
              Decisive(w, SubmissionReport(sub).value).Some? && WalletOf(db, w.tenant).reserved < w.amount
  {
    EndingRaisesIff(db, id, Success, actor);
    EndingRaisesIff(db, id, Failed, actor);
    if sub.process.Processed? {
      OfThisTransferIff(db.withdrawals[id], sub.process.reply);
    } else if sub.query.Answer? {
      OfThisTransferIff(db.withdrawals[id], sub.query.reply);
    }
  }

  lemma ReplyLostIff(db: Db, call: Call, id: nat)
    requires id < |db.withdrawals| && db.withdrawals[id].amount > 0 && ReportOf(db, call, id).Some?
    requires WalletOf(db, db.withdrawals[id].tenant).NonNegative()
    requires !call.op.payout.Confirm? && !call.op.payout.Approve?
    ensures var w := db.withdrawals[id];
            StepDb(db, call).Raised? <==>
              && Stage(w.status) < 4 && Decisive(w, ReportOf(db, call, id).value).Some?
              && WalletOf(db, w.tenant).reserved < w.amount
  {
    EndingRaisesIff(db, id, Success, None);
    EndingRaisesIff(db, id, Failed, None);
    if ReportOf(db, call, id).value.Checked? {
      OfThisTransferIff(db.withdrawals[id], ReportOf(db, call, id).value.reply);
    }
  }

  /** Ending a hold raises exactly when reserved does not cover it. */
  lemma EndingRaisesIff(db: Db, id: nat, to: WithdrawalStatus, actor: Option<ActorId>)
    requires id < |db.withdrawals| && db.withdrawals[id].amount > 0 && (to.Success? || to.Failed?)
    requires WalletOf(db, db.withdrawals[id].tenant).NonNegative()
    ensures var w := db.withdrawals[id];
            ShiftTo(db, id, to, actor).Raised? <==> WalletOf(db, w.tenant).reserved < w.amount
  {
    BookPosts(db, db.withdrawals[id].tenant, to, db.withdrawals[id].amount, id);
  }

  /** The wallet's reserved bucket covers a withdrawal for as long as it is held. */
  predicate Covered(db: Db, id: nat) {
    id < |db.withdrawals| && Held(db.withdrawals[id].status) ==>
      db.withdrawals[id].amount <= WalletOf(db, db.withdrawals[id].tenant).reserved
  }

  /** It does, unless manual adjustments have taken from the bucket. */
  lemma CoveredUnlessAdjusted(db: Db, id: nat)
    requires Inv(db)
    requires id < |db.withdrawals| ==> Adjusted(db, db.withdrawals[id].tenant, Reserved) >= 0
    ensures Covered(db, id)
  {
    if id < |db.withdrawals| {
      var t := db.withdrawals[id].tenant;
      HoldEquations(db, t);
      forall k | 0 <= k < |db.withdrawals|
        ensures 0 <= HeldAmount(t)(db.withdrawals[k])
      {
        RowIsOk(db, k);
      }
      TotalAtLeast(HeldAmount(t), db.withdrawals, id);
    }
  }

  lemma NoneLost(db: Db, call: Call, id: nat)
    requires Inv(db) && Covered(db, id)
    ensures HeardBy(db, call, id) == ReportOf(db, call, id)
  {
    if ReportOf(db, call, id).Some? {
      ReportLostIff(db, call, id);
    }
  }

  /** While reserved covers the hold every report counts, so the verdict is that of
      everything reported, committed or not. */
  lemma {:induction false} EveryReportCounts(calls: seq<Call>, id: nat)
    requires forall k :: 0 <= k < |calls| ==> Covered(Run(START, calls[..k]).db, id)
    ensures Heard(START, calls, id) == Reports(START, calls, id)
    ensures VerdictAt(Run(START, calls).db, id, Transferred(START, calls, id), Reports(START, calls, id))
  {
    VerdictReached(calls, id);
    if |calls| > 0 {
      var n := |calls| - 1;
      assert forall k :: 0 <= k < n ==> calls[..n][..k] == calls[..k];
      EveryReportCounts(calls[..n], id);
      Reachable(calls[..n]);
      NoneLost(Run(START, calls[..n]).db, calls[n], id);
    }
  }

  // --------------------------------------------- what one call comes to

  /** The state in which a submission asks for its transfer: confirmed or approved, and
      moved to PROCESSING with what the account lookup found. */
  function Transferring(db: Db, call: Call, id: nat): Db
    requires id < |db.withdrawals| && call.op.Payout? && (call.op.payout.Confirm? || call.op.payout.Approve?)
    requires call.op.payout.submission.lookup.Account?
  {
    var w, op := db.withdrawals[id], call.op.payout;
    var row := if op.Confirm? then ConfirmedRow(w, call.now) else w.(reviewedBy := Some(op.actor), status := Approved);
    var approved := Transition(db, id, row, Some(op.actor));
    Transition(approved, id, Submitted(row, op.submission.lookup), Some(op.actor))
  }

  /** The transfer is asked for exactly when a call goes on to submit, both gates are open,
      the destination is complete, and the lookup found a named account. */
  lemma TransferIff(db: Db, call: Call, id: nat)
    requires id < |db.withdrawals|
    ensures CallsMade(db, call) == [PayoutCall(id, db.withdrawals[id].key, db.withdrawals[id].amount)] <==>
              && GoesOnToSubmit(db, call, id) && call.cfg.disbursementEnabled
              && (call.cfg.production ==> call.cfg.productionPayouts)
              && var sub := call.op.payout.submission;
                 && sub.destinationComplete && sub.lookup.Account?
                 && sub.lookup.name.Some? && sub.lookup.name.value != ""
  {
  }

  /** What the transfer is asked for with, and that what follows is what it answers. */
  lemma TransferIs(db: Db, call: Call, id: nat)
    requires id < |db.withdrawals| && |CallsMade(db, call)| == 1 && CallsMade(db, call)[0].withdrawal == id
    ensures call.op.Payout? && (call.op.payout.Confirm? || call.op.payout.Approve?)
    ensures call.op.payout.submission.lookup.Account?
    ensures var op, w, mid := call.op.payout, db.withdrawals[id], Transferring(db, call, id);
            && StepDb(db, call) == Answered(mid, id, op.submission, Some(op.actor))
            && |mid.withdrawals| == |db.withdrawals| && mid.wallets == db.wallets && mid.ledger == db.ledger
            && mid.events == db.events + [Event(id, Some(w.status), Approved, Some(op.actor)),
                                          Event(id, Some(Approved), Processing, Some(op.actor))]
            && mid.withdrawals[id]
               == w.(status := Processing, verifiedName := op.submission.lookup.name,
                     providerCharge := op.submission.lookup.charge,
                     otp := mid.withdrawals[id].otp, reviewedBy := mid.withdrawals[id].reviewedBy)
            && (op.Confirm? ==> mid.withdrawals[id].otp == w.otp.(confirmedAt := Some(call.now))
                                && mid.withdrawals[id].reviewedBy == w.reviewedBy)
            && (op.Approve? ==> mid.withdrawals[id].otp == w.otp
                                && mid.withdrawals[id].reviewedBy == Some(op.actor))
  {
    if call.op.payout.Confirm? {
      ConfirmTransferIs(db, call, id);
    } else {
      ApproveTransferIs(db, call, id);
    }
  }

  lemma ConfirmTransferIs(db: Db, call: Call, id: nat)
    requires id < |db.withdrawals| && |CallsMade(db, call)| == 1 && CallsMade(db, call)[0].withdrawal == id
    requires call.op.Payout? && call.op.payout.Confirm?
    ensures call.op.payout.submission.lookup.Account? && call.op.payout.id == id
    ensures StepDb(db, call)
            == Answered(Transferring(db, call, id), id, call.op.payout.submission, Some(call.op.payout.actor))
  {
    var op := call.op.payout;
    var confirmed := Shift(db, id, ConfirmedRow(db.withdrawals[id], call.now), Some(op.actor)).value;
    SubmitIs(confirmed, call.cfg, id, op.submission, Some(op.actor));
  }

  lemma ApproveTransferIs(db: Db, call: Call, id: nat)
    requires id < |db.withdrawals| && |CallsMade(db, call)| == 1 && CallsMade(db, call)[0].withdrawal == id
    requires call.op.Payout? && call.op.payout.Approve?
    ensures call.op.payout.submission.lookup.Account? && call.op.payout.id == id
    ensures StepDb(db, call)
            == Answered(Transferring(db, call, id), id, call.op.payout.submission, Some(call.op.payout.actor))
  {
    var op := call.op.payout;
    var row := db.withdrawals[id].(reviewedBy := Some(op.actor), status := Approved);
    SubmitIs(Shift(db, id, row, Some(op.actor)).value, call.cfg, id, op.submission, Some(op.actor));
  }

  /** What a reported success comes to for a row w: if it is of this very transfer, SUCCESS,
      with the principal moved from reserved to total_disbursed, or an error when reserved
      does not cover it; if not, AMBIGUOUS, with no money moved. */
  ghost predicate DecidedAs(db: Db, r: Result<Db>, id: nat, w: Withdrawal, reply: Reply) {
    var wallet := WalletOf(db, w.tenant);
    if && (reply.transId == None || reply.transId == Some(w.key))
       && (reply.currency == None || reply.currency == Some(w.currency))
       && (|| reply.amount == None
           || reply.amount == Some(Cents(w.amount))
           || (w.providerCharge.Some? && w.providerCharge.value >= 0
               && reply.amount == Some(Cents(w.amount + w.providerCharge.value))))
    then
      && (r.Ok? <==> w.amount <= wallet.reserved)
      && (r.Ok? ==>
            && id < |r.value.withdrawals| && r.value.withdrawals[id].status == Success
            && WalletOf(r.value, w.tenant)
               == wallet.(reserved := wallet.reserved - w.amount,
                          totalDisbursed := wallet.totalDisbursed + w.amount))
    else
      && r.Ok? && id < |r.value.withdrawals| && r.value.withdrawals[id].status == Ambiguous
      && r.value.ledger == db.ledger && (forall u :: WalletOf(r.value, u) == WalletOf(db, u))
  }

  /** So it comes to for every withdrawal in flight, by whatever call it is reported, the
      one that submits it included. */
  lemma ReportedSuccessDecides(db: Db, call: Call, id: nat, reply: Reply)
    requires Inv(db) && id < |db.withdrawals| && Stage(db.withdrawals[id].status) < 4
    requires ReportOf(db, call, id) == Some(Checked(reply)) && reply.outcome.Succeeded?
    ensures DecidedAs(db, StepDb(db, call), id, Compared(db, call, id), reply)
  {
    RowIsOk(db, id);
    assert WalletOf(db, db.withdrawals[id].tenant).NonNegative();
    if call.op.payout.Confirm? || call.op.payout.Approve? {
      TransferReportsSuccess(db, call, id, reply);
      var mid := Transferring(db, call, id);
      AppliedDecides(db, mid, id, Compared(db, call, id), reply, Some(call.op.payout.actor));
    } else {
      ReconcileReportsSuccess(db, call, id, reply);
      AppliedDecides(db, db, id, db.withdrawals[id], reply, None);
    }
  }

  lemma AppliedDecides(db: Db, mid: Db, id: nat, w: Withdrawal, reply: Reply, actor: Option<ActorId>)
    requires id < |mid.withdrawals| && mid.withdrawals[id].status in {Processing, Ambiguous}
    requires var row := mid.withdrawals[id];
             && row.tenant == w.tenant && row.amount == w.amount && row.key == w.key && row.currency == w.currency
             && row.providerCharge == w.providerCharge
    requires mid.wallets == db.wallets && mid.ledger == db.ledger
    requires w.amount > 0 && WalletOf(db, w.tenant).NonNegative() && reply.outcome.Succeeded?
    ensures DecidedAs(db, ApplyProviderResult(mid, id, reply, actor), id, w, reply)
  {
    ReplyEffect(mid, id, reply, actor);
  }

  lemma ReconcileReportsSuccess(db: Db, call: Call, id: nat, reply: Reply)
    requires id < |db.withdrawals| && db.withdrawals[id].status in {Processing, Ambiguous}
    requires db.withdrawals[id].amount > 0 && WalletOf(db, db.withdrawals[id].tenant).NonNegative()
    requires ReportOf(db, call, id) == Some(Checked(reply))
    requires !call.op.payout.Confirm? && !call.op.payout.Approve?
    ensures StepDb(db, call) == ApplyProviderResult(db, id, reply, None)
    ensures Compared(db, call, id) == db.withdrawals[id]
  {
  }

  lemma TransferReportsSuccess(db: Db, call: Call, id: nat, reply: Reply)
    requires id < |db.withdrawals| && ReportOf(db, call, id) == Some(Checked(reply)) && reply.outcome.Succeeded?
    requires call.op.payout.Confirm? || call.op.payout.Approve?
    ensures call.op.payout.submission.lookup.Account?
    ensures var mid, w := Transferring(db, call, id), Compared(db, call, id);
            && StepDb(db, call) == ApplyProviderResult(mid, id, reply, Some(call.op.payout.actor))
            && id < |mid.withdrawals| && mid.wallets == db.wallets && mid.ledger == db.ledger
            && mid.withdrawals[id].status == Processing && mid.withdrawals[id].tenant == w.tenant
            && mid.withdrawals[id].amount == w.amount && mid.withdrawals[id].key == w.key
            && mid.withdrawals[id].currency == w.currency && mid.withdrawals[id].providerCharge == w.providerCharge
  {
    CallEffect(db, call);
    TransferIs(db, call, id);
  }

  /** What a submission that does not ask for the transfer comes to: an unreachable lookup
      leaves the withdrawal APPROVED, an unexpected fault raises, and everything else, a
      closed gate, an incomplete destination, a refused lookup or one without a name, fails
      it and releases its hold, unless reserved no longer covers it. */
  predicate NotTransferredAs(db: Db, r: Result<Db>, id: nat, w: Withdrawal, cfg: Settings, sub: Submission) {
    var wallet := WalletOf(db, w.tenant);
    var open := cfg.disbursementEnabled && (cfg.production ==> cfg.productionPayouts) && sub.destinationComplete;
    if open && sub.lookup.LookupFault? then r == Raised(ProviderFault)
    else if open && sub.lookup.LookupUnreachable? then
      r.Ok? && id < |r.value.withdrawals| && r.value.withdrawals[id].status == Approved
      && r.value.wallets == db.wallets
    else
      && (r.Ok? <==> w.amount <= wallet.reserved)
      && (r.Ok? ==>
            && id < |r.value.withdrawals| && r.value.withdrawals[id].status == Failed
            && r.value.ledger == db.ledger
            && WalletOf(r.value, w.tenant)
               == wallet.(available := wallet.available + w.amount, reserved := wallet.reserved - w.amount))
  }

  lemma NotTransferredOutcome(db: Db, call: Call, id: nat)
    requires Inv(db) && id < |db.withdrawals| && GoesOnToSubmit(db, call, id) && CallsMade(db, call) == []
    ensures NotTransferredAs(db, StepDb(db, call), id, db.withdrawals[id], call.cfg, call.op.payout.submission)
  {
    RowIsOk(db, id);
    assert WalletOf(db, db.withdrawals[id].tenant).NonNegative();
    var op := call.op.payout;
    var row := if op.Confirm? then ConfirmedRow(db.withdrawals[id], call.now)
               else db.withdrawals[id].(reviewedBy := Some(op.actor), status := Approved);
    GoesOnWith(db, call, id, row);
    NotSentComesTo(db, Shift(db, id, row, Some(op.actor)).value, db.withdrawals[id], call.cfg, id, op.submission,
                   Some(op.actor));
  }

  lemma NotSentComesTo(db: Db, mid: Db, w: Withdrawal, cfg: Settings, id: nat, sub: Submission, actor: Option<ActorId>)
    requires id < |mid.withdrawals| && mid.withdrawals[id].status.Approved? && !Submits(mid, cfg, id, sub)
    requires mid.wallets == db.wallets && mid.ledger == db.ledger
    requires mid.withdrawals[id].tenant == w.tenant && mid.withdrawals[id].amount == w.amount > 0
    requires WalletOf(db, w.tenant).NonNegative()
    ensures NotTransferredAs(db, Submit(mid, cfg, id, sub, actor), id, w, cfg, sub)
  {
    NotSentEffect(mid, cfg, id, sub, actor);
  }

  lemma GoesOnWith(db: Db, call: Call, id: nat, row: Withdrawal)
    requires id < |db.withdrawals| && GoesOnToSubmit(db, call, id) && CallsMade(db, call) == []
    requires row == if call.op.payout.Confirm? then ConfirmedRow(db.withdrawals[id], call.now)
                    else db.withdrawals[id].(reviewedBy := Some(call.op.payout.actor), status := Approved)
    ensures var op, r := call.op.payout, Shift(db, id, row, Some(call.op.payout.actor));
            && r.Ok? && r.value.wallets == db.wallets && r.value.ledger == db.ledger
            && r.value.withdrawals == db.withdrawals[id := row]
            && StepDb(db, call) == Submit(r.value, call.cfg, id, op.submission, Some(op.actor))
            && !Submits(r.value, call.cfg, id, op.submission)
  {
  }

  lemma NotSentEffect(db: Db, cfg: Settings, id: nat, sub: Submission, actor: Option<ActorId>)
    requires id < |db.withdrawals| && db.withdrawals[id].status.Approved? && !Submits(db, cfg, id, sub)
    requires db.withdrawals[id].amount > 0 && WalletOf(db, db.withdrawals[id].tenant).NonNegative()
    ensures var r, w := Submit(db, cfg, id, sub, actor), db.withdrawals[id];
            var wallet := WalletOf(db, w.tenant);
            var open := cfg.disbursementEnabled && (cfg.production ==> cfg.productionPayouts)
                        && sub.destinationComplete;
            if open && sub.lookup.LookupFault? then r == Raised(ProviderFault)
            else if open && sub.lookup.LookupUnreachable? then r == Ok(db)
            else
              && (r.Ok? <==> w.amount <= wallet.reserved)
              && (r.Ok? ==>
                    Changes(db, r.value, id, w.(status := Failed),
                            wallet.(available := wallet.available + w.amount, reserved := wallet.reserved - w.amount),
                            actor, []))
  {
    StatusEffect(db, id, Failed, actor);
  }

  /** The right code where review follows: the confirmation is dated, the withdrawal waits
      for review, and nothing else changes. */
  lemma ConfirmedForReview(db: Db, call: Call, id: nat)
    requires id < |db.withdrawals| && call.op.Payout? && call.op.payout.Confirm? && call.op.payout.id == id
    requires StepDb(db, call).Ok? && db.withdrawals[id].approvalRequired
    requires id < |StepDb(db, call).value.withdrawals|
    requires StepDb(db, call).value.withdrawals[id].status !in {Draft, Cancelled}
    ensures var w, db', actor := db.withdrawals[id], StepDb(db, call).value, call.op.payout.actor;
            db' == db.(withdrawals := db.withdrawals[id := w.(status := PendingApproval,
                                                              otp := w.otp.(confirmedAt := Some(call.now)))],
                       events := db.events + [Event(id, Some(Draft), PendingApproval, Some(actor))])
  {
  }
}
