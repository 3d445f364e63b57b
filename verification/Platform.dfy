/** The platform as a state machine: one service call is one atomic step under
    its row lock, and a call that raises leaves the database as it was. */
module Platform {
  import opened Basics
  import opened Records
  import opened WalletRules
  import opened PayoutRules
  import opened Books
  import opened Lifecycle
  import opened PaymentRules
  import opened Sales
  import opened Invariants

  datatype Op =
    | Payout(payout: PayoutOp)
    | Payment(payment: PaymentOp)
    | Adjust(tenant: TenantId, bucket: Bucket, direction: Direction, amount: int, reason: string, reference: Reference)
    | SettleOp(tenant: TenantId, settled: Option<int>)
    | RefundOp(tenant: TenantId, amount: int, reference: Reference)
    | ReversalOp(tenant: TenantId, amount: int, reference: Reference)

  /** A call, with the settings in force and the clock it reads. */
  datatype Call = Call(cfg: Settings, now: Time, op: Op)

  function StepDb(db: Db, call: Call): Result<Db> {
    match call.op
    case Payout(op) => PayoutStep(db, call.cfg, call.now, op)
    case Payment(op) => PaymentStep(db, call.cfg, call.now, op)
    case Adjust(t, b, dir, amount, reason, ref) => CreateAdjustment(db, t, b, dir, amount, reason, ref)
    case SettleOp(t, amount) => SettlePending(db, t, amount)
    case RefundOp(t, amount, ref) => RecordRefund(db, t, amount, ref)
    case ReversalOp(t, amount, ref) => RecordReversal(db, t, amount, ref)
  }

  /** The database, and the failed activation attempts not yet marked: run_activation
      marks a failure in a second transaction, and anything may happen in between. */
  datatype World = World(db: Db, unmarked: multiset<nat>)

  const START := World(EMPTY_DB, multiset{})

  function Next(w: World, call: Call): World {
    var r := StepDb(w.db, call);
    match call.op
    case Payment(RecordFailure(i)) =>
      if i in w.unmarked then World(r.Or(w.db), w.unmarked - multiset{i}) else w
    case Payment(AttemptActivation(i, _)) =>
      World(r.Or(w.db), if r == Raised(ProvisioningFailed) then w.unmarked + multiset{i} else w.unmarked)
    case _ => World(r.Or(w.db), w.unmarked)
  }

  function Run(w: World, calls: seq<Call>): World {
    if |calls| == 0 then w else Next(Run(w, calls[..|calls| - 1]), calls[|calls| - 1])
  }

  ghost predicate WorldInv(w: World) {
    && Inv(w.db)
    && forall i :: i in w.unmarked ==> PaidCaptive(w.db, i)
  }

  // ------------------------------------------- payouts keep the invariant

  /** The lock found a row, so the row satisfies the row law. */
  lemma RowIsOk(db: Db, id: nat)
    requires Inv(db) && id < |db.withdrawals|
    ensures RowOk(db.withdrawals[id])
  {
    assert WithdrawalOk(db, id);
  }

  lemma ShiftToKeeps(db: Db, id: nat, to: WithdrawalStatus, actor: Option<ActorId>)
    requires Inv(db) && id < |db.withdrawals|
    requires LegalShift(db.withdrawals[id], db.withdrawals[id].(status := to))
    ensures ShiftTo(db, id, to, actor).Ok? ==>
              Inv(ShiftTo(db, id, to, actor).value) && Later(db, ShiftTo(db, id, to, actor).value)
  {
    if ShiftTo(db, id, to, actor).Ok? {
      ShiftKeeps(db, id, db.withdrawals[id].(status := to), actor);
    }
  }

  lemma SameIsLater(db: Db)
    ensures Later(db, db)
  {
  }

  lemma ProviderResultKeeps(db: Db, id: nat, reply: Reply, actor: Option<ActorId>)
    requires Inv(db) && id < |db.withdrawals|
    ensures var r := ApplyProviderResult(db, id, reply, actor); r.Ok? ==> Inv(r.value) && Later(db, r.value)
  {
    RowIsOk(db, id);
    if !InFlight(db.withdrawals[id].status) || reply.outcome.StillInProgress? {
      SameIsLater(db);
    } else {
      var to := match reply.outcome
        case Succeeded => if Explains(db.withdrawals[id], reply) then Success else Ambiguous
        case Refused => Failed
        case _ => Ambiguous;
      ShiftToKeeps(db, id, to, actor);
    }
  }

  lemma QueryKeeps(db: Db, id: nat, query: Query, actor: Option<ActorId>)
    requires Inv(db) && id < |db.withdrawals|
    ensures var r := ReconcileLocked(db, id, query, actor); r.Ok? ==> Inv(r.value) && Later(db, r.value)
  {
    SameIsLater(db);
    if query.Answer? {
      ProviderResultKeeps(db, id, query.reply, actor);
    }
  }

  /** What follows the transfer call, whatever it answers. */
  function Answered(db: Db, id: nat, sub: Submission, actor: Option<ActorId>): Result<Db>
    requires id < |db.withdrawals|
  {
    match sub.process
    case ProcessUnreachable => ReconcileLocked(db, id, sub.query, actor)
    case ProcessRefused => ShiftTo(db, id, Failed, actor)
    case ProcessFault => Raised(ProviderFault)
    case Processed(reply) => ApplyProviderResult(db, id, reply, actor)
  }

  lemma AnsweredKeeps(db: Db, id: nat, sub: Submission, actor: Option<ActorId>)
    requires Inv(db) && id < |db.withdrawals| && db.withdrawals[id].status.Processing?
    ensures var r := Answered(db, id, sub, actor); r.Ok? ==> Inv(r.value) && Later(db, r.value)
  {
    match sub.process
    case ProcessUnreachable => QueryKeeps(db, id, sub.query, actor);
    case ProcessRefused =>
      RowIsOk(db, id);
      ShiftToKeeps(db, id, Failed, actor);
    case ProcessFault =>
    case Processed(reply) => ProviderResultKeeps(db, id, reply, actor);
  }

  lemma SubmitIs(db: Db, cfg: Settings, id: nat, sub: Submission, actor: Option<ActorId>)
    requires id < |db.withdrawals| && Submits(db, cfg, id, sub)
    requires Shift(db, id, Submitted(db.withdrawals[id], sub.lookup), actor).Ok?
    ensures Submit(db, cfg, id, sub, actor)
            == Answered(Shift(db, id, Submitted(db.withdrawals[id], sub.lookup), actor).value, id, sub, actor)
  {
  }

  lemma SubmitKeeps(db: Db, cfg: Settings, id: nat, sub: Submission, actor: Option<ActorId>)
    requires Inv(db) && id < |db.withdrawals|
    ensures var r := Submit(db, cfg, id, sub, actor); r.Ok? ==> Inv(r.value) && Later(db, r.value)
  {
    RowIsOk(db, id);
    if Submits(db, cfg, id, sub) {
      var row := Submitted(db.withdrawals[id], sub.lookup);
      assert LegalShift(db.withdrawals[id], row);
      SubmitIs(db, cfg, id, sub, actor);
      ShiftKeeps(db, id, row, actor);
      var processing := Shift(db, id, row, actor).value;
      AnsweredKeeps(processing, id, sub, actor);
      if Answered(processing, id, sub, actor).Ok? {
        LaterTransitive(db, processing, Answered(processing, id, sub, actor).value);
      }
    } else {
      SameIsLater(db);
      if db.withdrawals[id].status.Approved? {
        ShiftToKeeps(db, id, Failed, actor);
      }
    }
  }

  lemma RequestKeeps(db: Db, cfg: Settings, now: Time, op: PayoutOp)
    requires Inv(db) && op.Request?
    ensures var r := RequestWithdrawal(db, cfg, now, op); r.Ok? ==> Inv(r.value) && Later(db, r.value)
  {
    if RequestWithdrawal(db, cfg, now, op).Ok? {
      var row := NewRow(cfg, now, op);
      OpenKeeps(db, row.(otp := IssuedOtp(row.otp, |db.withdrawals|, cfg, now, op.email.value, op.code)),
                Some(op.actor));
    }
  }

  /** A status change that leads into a submission. */
  lemma ThenSubmitKeeps(db: Db, cfg: Settings, id: nat, row: Withdrawal, sub: Submission, actor: Option<ActorId>)
    requires Inv(db) && id < |db.withdrawals| && LegalShift(db.withdrawals[id], row)
    requires Shift(db, id, row, actor).Ok?
    ensures var r := Submit(Shift(db, id, row, actor).value, cfg, id, sub, actor);
            r.Ok? ==> Inv(r.value) && Later(db, r.value)
  {
    var mid := Shift(db, id, row, actor).value;
    ShiftKeeps(db, id, row, actor);
    SubmitKeeps(mid, cfg, id, sub, actor);
    if Submit(mid, cfg, id, sub, actor).Ok? {
      LaterTransitive(db, mid, Submit(mid, cfg, id, sub, actor).value);
    }
  }

  lemma ConfirmKeeps(db: Db, cfg: Settings, now: Time, op: PayoutOp)
    requires Inv(db) && op.Confirm?
    ensures var r := ConfirmTwoFactor(db, cfg, now, op); r.Ok? ==> Inv(r.value) && Later(db, r.value)
  {
    if ConfirmTwoFactor(db, cfg, now, op).Ok? {
      var id := op.id;
      var w := db.withdrawals[id];
      RowIsOk(db, id);
      if RightCode(w.otp, id, op.code, cfg, now, op.currentEmail) {
        if w.approvalRequired {
          ShiftKeeps(db, id, ConfirmedRow(w, now), Some(op.actor));
        } else {
          ThenSubmitKeeps(db, cfg, id, ConfirmedRow(w, now), op.submission, Some(op.actor));
        }
      } else {
        RefusedKeeps(db, cfg, now, op);
      }
    }
  }

  /** A code that is not accepted: counted or not, and cancelled if nothing is left. */
  lemma RefusedKeeps(db: Db, cfg: Settings, now: Time, op: PayoutOp)
    requires Inv(db) && op.Confirm? && ConfirmTwoFactor(db, cfg, now, op).Ok?
    requires !RightCode(db.withdrawals[op.id].otp, op.id, op.code, cfg, now, op.currentEmail)
    ensures var db' := ConfirmTwoFactor(db, cfg, now, op).value; Inv(db') && Later(db, db')
  {
    var otp := RefusedLeaves(db, cfg, now, op);
    RowIsOk(db, op.id);
    if Exhausted(otp, cfg, op.recheckedAt) {
      CancelKeeps(db, op.id, otp, Some(op.actor));
    } else {
      CountKeeps(db, op.id, otp);
    }
  }

  /** The challenge a refused code leaves, and what its call comes to. */
  lemma RefusedLeaves(db: Db, cfg: Settings, now: Time, op: PayoutOp) returns (otp: Otp)
    requires op.Confirm? && ConfirmTwoFactor(db, cfg, now, op).Ok?
    requires !RightCode(db.withdrawals[op.id].otp, op.id, op.code, cfg, now, op.currentEmail)
    ensures db.withdrawals[op.id].status.Draft?
    ensures otp.(attempts := db.withdrawals[op.id].otp.attempts) == db.withdrawals[op.id].otp
    ensures var w := db.withdrawals[op.id];
            ConfirmTwoFactor(db, cfg, now, op)
            == if Exhausted(otp, cfg, op.recheckedAt)
               then Shift(db, op.id, w.(otp := otp, status := Cancelled), Some(op.actor))
               else Ok(Write(db, op.id, w.(otp := otp)))
  {
    var w := db.withdrawals[op.id];
    otp := if WrongCode(w.otp, op.id, op.code, cfg, now, op.currentEmail)
           then w.otp.(attempts := w.otp.attempts + 1) else w.otp;
  }

  lemma CountKeeps(db: Db, id: nat, otp: Otp)
    requires Inv(db) && id < |db.withdrawals| && db.withdrawals[id].status.Draft?
    requires otp.confirmedAt.None?
    ensures var db' := Write(db, id, db.withdrawals[id].(otp := otp)); Inv(db') && Later(db, db')
  {
    RowIsOk(db, id);
    WriteKeeps(db, id, db.withdrawals[id].(otp := otp));
  }

  lemma CancelKeeps(db: Db, id: nat, otp: Otp, actor: Option<ActorId>)
    requires Inv(db) && id < |db.withdrawals| && db.withdrawals[id].status.Draft?
    requires otp.confirmedAt.None?
    ensures var r := Shift(db, id, db.withdrawals[id].(otp := otp, status := Cancelled), actor);
            r.Ok? ==> Inv(r.value) && Later(db, r.value)
  {
    var row := db.withdrawals[id].(otp := otp, status := Cancelled);
    RowIsOk(db, id);
    if Shift(db, id, row, actor).Ok? {
      ShiftKeeps(db, id, row, actor);
    }
  }

  lemma ApproveKeeps(db: Db, cfg: Settings, op: PayoutOp)
    requires Inv(db) && op.Approve?
    ensures var r := ApproveWithdrawal(db, cfg, op); r.Ok? ==> Inv(r.value) && Later(db, r.value)
  {
    if ApproveWithdrawal(db, cfg, op).Ok? {
      RowIsOk(db, op.id);
      var row := db.withdrawals[op.id].(reviewedBy := Some(op.actor), status := Approved);
      ThenSubmitKeeps(db, cfg, op.id, row, op.submission, Some(op.actor));
    }
  }

  lemma ReviewKeeps(db: Db, op: PayoutOp)
    requires Inv(db) && (op.Reject? || op.Cancel? || op.Reverse?)
    ensures var r := if op.Reject? then RejectWithdrawal(db, op)
                     else if op.Cancel? then CancelWithdrawal(db, op) else ReverseWithdrawal(db, op);
            r.Ok? ==> Inv(r.value) && Later(db, r.value)
  {
    match op
    case Reject(_, _, _) => RejectKeeps(db, op);
    case Cancel(_, id, actor) =>
      if CancelWithdrawal(db, op).Ok? {
        RowIsOk(db, id);
        ShiftToKeeps(db, id, Cancelled, Some(actor));
      }
    case Reverse(_, id, reviewer, _) =>
      if ReverseWithdrawal(db, op).Ok? {
        RowIsOk(db, id);
        ShiftToKeeps(db, id, Reversed, reviewer);
      }
  }

  lemma RejectKeeps(db: Db, op: PayoutOp)
    requires Inv(db) && op.Reject?
    ensures var r := RejectWithdrawal(db, op); r.Ok? ==> Inv(r.value) && Later(db, r.value)
  {
    if RejectWithdrawal(db, op).Ok? {
      RowIsOk(db, op.id);
      var row := db.withdrawals[op.id].(reviewedBy := Some(op.actor), status := Rejected);
      ShiftKeeps(db, op.id, row, Some(op.actor));
    }
  }

  lemma ResultKeeps(db: Db, op: PayoutOp)
    requires Inv(db) && (op.Reconcile? || op.ReconcileIfPending? || op.ApplyDisbursement?)
    ensures var r := if op.Reconcile? then ReconcileWithdrawal(db, op)
                     else if op.ReconcileIfPending? then ReconcilePending(db, op) else ApplyDisbursementResult(db, op);
            r.Ok? ==> Inv(r.value) && Later(db, r.value)
  {
    SameIsLater(db);
    if op.id < |db.withdrawals| {
      match op
      case Reconcile(id, query) => QueryKeeps(db, id, query, None);
      case ReconcileIfPending(id, query) => QueryKeeps(db, id, query, None);
      case ApplyDisbursement(id, succeeded) =>
        if db.withdrawals[id].status.Processing? {
          RowIsOk(db, id);
          ShiftToKeeps(db, id, Success, None);
          ShiftToKeeps(db, id, Failed, None);
        }
    }
  }

  lemma ResendKeeps(db: Db, cfg: Settings, now: Time, op: PayoutOp)
    requires Inv(db) && op.Resend?
    ensures var r := ResendOtp(db, cfg, now, op); r.Ok? ==> Inv(r.value) && Later(db, r.value)
  {
    if ResendOtp(db, cfg, now, op).Ok? {
      RowIsOk(db, op.id);
      var w := db.withdrawals[op.id];
      WriteKeeps(db, op.id, w.(otp := IssuedOtp(w.otp, op.id, cfg, now, op.email.value, op.code)));
    }
  }

  lemma PayoutKeeps(db: Db, cfg: Settings, now: Time, op: PayoutOp)
    requires Inv(db)
    ensures var r := PayoutStep(db, cfg, now, op); r.Ok? ==> Inv(r.value) && Later(db, r.value)
  {
    match op
    case Request(_, _, _, _, _, _, _, _, _, _, _) => RequestKeeps(db, cfg, now, op);
    case Resend(_, _, _, _, _) => ResendKeeps(db, cfg, now, op);
    case Confirm(_, _, _, _, _, _, _) => ConfirmKeeps(db, cfg, now, op);
    case Approve(_, _, _) => ApproveKeeps(db, cfg, op);
    case Reject(_, _, _) => ReviewKeeps(db, op);
    case Cancel(_, _, _) => ReviewKeeps(db, op);
    case Reverse(_, _, _, _) => ReviewKeeps(db, op);
    case Reconcile(_, _) => ResultKeeps(db, op);
    case ReconcileIfPending(_, _) => ResultKeeps(db, op);
    case ApplyDisbursement(_, _) => ResultKeeps(db, op);
  }

  // ------------------------------------------ payments keep the invariant

  lemma RowStepKeeps(db: Db, i: nat, tx: Transaction)
    requires Inv(db) && i < |db.transactions|
    requires TxLater(db.transactions[i], tx) && AccessOk(db, tx)
    requires tx.status.Completed? <==> db.transactions[i].status.Completed?
    ensures Inv(SetTransaction(db, i, tx)) && Later(db, SetTransaction(db, i, tx))
  {
    RowKeepsPayments(db, i, tx);
    PaymentWriteKeeps(db, SetTransaction(db, i, tx));
  }

  lemma OrderStatusKeeps(db: Db, cfg: Settings, now: Time, flow: TransactionType, i: nat, data: OrderStatus)
    requires Inv(db) && i < |db.transactions|
    ensures var r := ApplyOrderStatus(db, cfg, now, flow, i, data); r.Ok? ==> Inv(r.value) && Later(db, r.value)
  {
    SameIsLater(db);
    var r := ApplyOrderStatus(db, cfg, now, flow, i, data);
    if r.Ok? && r.value != db {
      if SaysPaid(data) && Matches(db.transactions[i], data) {
        FinalizeKeeps(db, flow, i, SelcomPaymentRef(i));
      } else {
        assert r.value == SetStatus(db, i, r.value.transactions[i].status);
        StatusKeeps(db, i, r.value.transactions[i].status);
      }
    }
  }

  lemma StatusKeeps(db: Db, i: nat, s: CollectionStatus)
    requires Inv(db) && i < |db.transactions| && !Terminal(db.transactions[i].status) && !s.Completed?
    ensures Inv(SetStatus(db, i, s)) && Later(db, SetStatus(db, i, s))
  {
    assert TxOk(db, i);
    RowStepKeeps(db, i, db.transactions[i].(status := s));
  }

  lemma ActivateKeeps(db: Db, now: Time, i: nat, meets: Attempted)
    requires Inv(db)
    ensures var r := Activate(db, now, i, meets); r.Ok? ==> Inv(r.value) && Later(db, r.value)
  {
    SameIsLater(db);
    var r := Activate(db, now, i, meets);
    if r.Ok? && db.transactions[i].activation != Some(Active) {
      var tx := db.transactions[i];
      assert TxOk(db, i);
      var j := tx.subscription.value;
      var started := db;
      if db.subscriptions[j].status.SubPending? {
        started := ActivateSubscription(db, now, tx.tenant, j, meets.package).value;
        ActivationKeepsPayments(db, now, tx.tenant, j, meets.package);
        PaymentWriteKeeps(db, started);
      }
      RowStepKeeps(started, i, tx.(activation := Some(Active), activatedAt := Some(now)));
      LaterTransitive(db, started, r.value);
    }
  }

  lemma MarkFailedKeeps(db: Db, i: nat)
    requires Inv(db) && i < |db.transactions|
    requires db.transactions[i].status.Completed? && db.transactions[i].flow == Some(CaptivePortalFlow)
    ensures Inv(MarkFailed(db, i).value) && Later(db, MarkFailed(db, i).value)
  {
    assert TxOk(db, i);
    RowStepKeeps(db, i, db.transactions[i].(activation := Some(ActivationFailed)));
  }

  lemma StartKeeps(db: Db, cfg: Settings, now: Time, op: PaymentOp)
    requires Inv(db) && (op.InitiateCollection? || op.InitiateCaptive?)
    ensures var r := PaymentStep(db, cfg, now, op); r.Ok? ==> Inv(r.value) && Later(db, r.value)
  {
    SameIsLater(db);
    var r := PaymentStep(db, cfg, now, op);
    if r.Ok? && |r.value.transactions| > |db.transactions| {
      var db' := r.value;
      var tx := db'.transactions[|db.transactions|];
      assert db'.subscriptions == db.subscriptions + db'.subscriptions[|db.subscriptions|..];
      StartKeepsPayments(db, tx, db'.subscriptions[|db.subscriptions|..], db');
      PaymentWriteKeeps(db, db');
    }
  }

  lemma SetRateKeeps(db: Db, t: TenantId, rate: int)
    requires Inv(db)
    ensures var r := SetCommissionRate(db, t, rate); r.Ok? ==> Inv(r.value) && Later(db, r.value)
  {
    if SetCommissionRate(db, t, rate).Ok? {
      TermsGrowthKeepsPayments(db, t, rate);
      PaymentWriteKeeps(db, SetCommissionRate(db, t, rate).value);
    }
  }

  lemma ReconcileKeeps(db: Db, cfg: Settings, now: Time, asked: TransactionType, i: nat, answer: Option<OrderStatus>)
    requires Inv(db)
    ensures var r := ReconcilePayment(db, cfg, now, asked, i, answer); r.Ok? ==> Inv(r.value) && Later(db, r.value)
  {
    SameIsLater(db);
    if ReconcilePayment(db, cfg, now, asked, i, answer).Ok? && answer.Some? {
      OrderStatusKeeps(db, cfg, now, ProviderFor(asked, db.transactions[i]).value, i, answer.value);
    }
  }

  lemma FinalizeCaptiveKeeps(db: Db, i: nat)
    requires Inv(db)
    ensures var r := FinalizePayment(db, i); r.Ok? ==> Inv(r.value) && Later(db, r.value)
  {
    SameIsLater(db);
    if FinalizePayment(db, i).Ok? && !db.transactions[i].status.Completed? {
      assert TxOk(db, i);
      FinalizeKeeps(db, CaptivePortalFlow, i, TransactionRef(i));
    }
  }

  lemma StaffActivationKeeps(db: Db, now: Time, t: TenantId, j: nat, found: PackageFound)
    requires Inv(db)
    ensures var r := ActivateSubscription(db, now, t, j, found); r.Ok? ==> Inv(r.value) && Later(db, r.value)
  {
    if ActivateSubscription(db, now, t, j, found).Ok? {
      ActivationKeepsPayments(db, now, t, j, found);
      PaymentWriteKeeps(db, ActivateSubscription(db, now, t, j, found).value);
    }
  }

  /** Every payment step but record_failure, whose legality depends on the run. */
  lemma PaymentKeeps(db: Db, cfg: Settings, now: Time, op: PaymentOp)
    requires Inv(db) && !op.RecordFailure?
    ensures var r := PaymentStep(db, cfg, now, op); r.Ok? ==> Inv(r.value) && Later(db, r.value)
  {
    match op
    case SetRate(t, rate) => SetRateKeeps(db, t, rate);
    case InitiateCollection(_, _, _, _, _, _, _, _) => StartKeeps(db, cfg, now, op);
    case InitiateCaptive(_, _, _, _, _, _, _) => StartKeeps(db, cfg, now, op);
    case ReconcileVia(asked, i, answer) => ReconcileKeeps(db, cfg, now, asked, i, answer);
    case FinalizeCaptive(i) => FinalizeCaptiveKeeps(db, i);
    case AttemptActivation(i, meets) => ActivateKeeps(db, now, i, meets);
    case ActivateByStaff(t, j, found) => StaffActivationKeeps(db, now, t, j, found);
  }

  // -------------------------------------------- every run keeps the invariant

  lemma AdjustKeeps(db: Db, t: TenantId, b: Bucket, dir: Direction, amount: int, reason: string, ref: Reference)
    requires Inv(db) && CreateAdjustment(db, t, b, dir, amount, reason, ref).Ok?
    ensures var db' := CreateAdjustment(db, t, b, dir, amount, reason, ref).value; Inv(db') && Later(db, db')
  {
    AdjustmentKeepsBooks(db, t, b, dir, amount, reason, ref);
    var delta := if dir.Credit? then amount else -amount;
    var e := LedgerEntry(t, Adjustment, dir, Some(b), amount, Some(WalletOf(db, t).Get(b) + delta), ref);
    assert CreateAdjustment(db, t, b, dir, amount, reason, ref) == Post(db, t, EMPTY_WALLET.Set(b, delta), [e], []);
    PostKeeps(db, t, EMPTY_WALLET.Set(b, delta), [e], []);
  }

  lemma SettleKeeps(db: Db, t: TenantId, amount: Option<int>)
    requires Inv(db) && SettlePending(db, t, amount).Ok?
    ensures var db' := SettlePending(db, t, amount).value; Inv(db') && Later(db, db')
  {
    SettlementKeepsBooks(db, t, amount);
    var x := if amount.Some? then amount.value else WalletOf(db, t).pending;
    PostKeeps(db, t, Buckets(x, -x, 0, 0, 0), [], [Settlement(t, x)]);
  }

  lemma RefundKeeps(db: Db, t: TenantId, amount: int, ref: Reference)
    requires Inv(db) && RecordRefund(db, t, amount, ref).Ok?
    ensures var db' := RecordRefund(db, t, amount, ref).value; Inv(db') && Later(db, db')
  {
    RefundKeepsBooks(db, t, amount, ref);
    PostKeeps(db, t, Buckets(-amount, 0, 0, 0, 0),
              [LedgerEntry(t, Refund, Debit, Some(Available), amount, Some(WalletOf(db, t).available - amount), ref)],
                  []);
  }

  lemma ReversalKeeps(db: Db, t: TenantId, amount: int, ref: Reference)
    requires Inv(db) && RecordReversal(db, t, amount, ref).Ok?
    ensures var db' := RecordReversal(db, t, amount, ref).value; Inv(db') && Later(db, db')
  {
    ReversalKeepsBooks(db, t, amount, ref);
    PostKeeps(db, t, Buckets(0, -amount, 0, 0, 0),
              [LedgerEntry(t, Reversal, Debit, Some(Pending), amount, Some(WalletOf(db, t).pending - amount), ref)],
                  []);
  }

  /** Every step but record_failure keeps the invariant, from any state that has it. */
  lemma StepKeeps(db: Db, call: Call)
    requires Inv(db) && !(call.op.Payment? && call.op.payment.RecordFailure?)
    ensures Inv(StepDb(db, call).Or(db)) && Later(db, StepDb(db, call).Or(db))
  {
    if StepDb(db, call).Raised? {
      SameIsLater(db);
    } else {
      match call.op
      case Payout(op) => PayoutKeeps(db, call.cfg, call.now, op);
      case Payment(op) => PaymentKeeps(db, call.cfg, call.now, op);
      case Adjust(t, b, dir, amount, reason, ref) => AdjustKeeps(db, t, b, dir, amount, reason, ref);
      case SettleOp(t, amount) => SettleKeeps(db, t, amount);
      case RefundOp(t, amount, ref) => RefundKeeps(db, t, amount, ref);
      case ReversalOp(t, amount, ref) => ReversalKeeps(db, t, amount, ref);
    }
  }

  predicate MarksFailure(op: Op) {
    op.Payment? && op.payment.RecordFailure?
  }

  lemma NextKeeps(w: World, call: Call)
    requires WorldInv(w)
    ensures WorldInv(Next(w, call)) && Later(w.db, Next(w, call).db)
  {
    if !MarksFailure(call.op) {
      StepKeeps(w.db, call);
    } else if call.op.payment.tx in w.unmarked {
      MarkFailedKeeps(w.db, call.op.payment.tx);
    } else {
      SameIsLater(w.db);
    }
    UnmarkedStayPaid(w, call);
  }

  predicate PaidCaptive(db: Db, i: nat) {
    i < |db.transactions| && db.transactions[i].status.Completed? && db.transactions[i].flow == Some(CaptivePortalFlow)
  }

  lemma PaidStaysPaid(db: Db, db': Db, i: nat)
    requires PaymentsLater(db, db') && PaidCaptive(db, i)
    ensures PaidCaptive(db', i)
  {
    assert TxLater(db.transactions[i], db'.transactions[i]);
  }

  lemma FailedAttemptIsPaid(db: Db, now: Time, i: nat, meets: Attempted)
    requires PaymentsOk(db) && Activate(db, now, i, meets) == Raised(ProvisioningFailed)
    ensures PaidCaptive(db, i)
  {
    assert TxOk(db, i);
  }

  lemma UnmarkedStayPaid(w: World, call: Call)
    requires WorldInv(w) && PaymentsLater(w.db, Next(w, call).db)
    ensures forall i :: i in Next(w, call).unmarked ==> PaidCaptive(Next(w, call).db, i)
  {
    forall i | i in Next(w, call).unmarked
      ensures PaidCaptive(Next(w, call).db, i)
    {
      if i !in w.unmarked {
        var p := call.op.payment;
        FailedAttemptIsPaid(w.db, call.now, i, p.meets);
      }
      PaidStaysPaid(w.db, Next(w, call).db, i);
    }
  }

  lemma {:induction false} RunKeeps(w: World, calls: seq<Call>)
    requires WorldInv(w)
    ensures WorldInv(Run(w, calls)) && Later(w.db, Run(w, calls).db)
  {
    if |calls| == 0 {
      SameIsLater(w.db);
    } else {
      var before := Run(w, calls[..|calls| - 1]);
      RunKeeps(w, calls[..|calls| - 1]);
      NextKeeps(before, calls[|calls| - 1]);
      LaterTransitive(w.db, before.db, Run(w, calls).db);
    }
  }

  lemma {:induction false} Reachable(calls: seq<Call>)
    ensures WorldInv(Run(START, calls))
  {
    EmptyInv();
    RunKeeps(START, calls);
  }

  lemma {:induction false} RunConcat(w: World, xs: seq<Call>, ys: seq<Call>)
    ensures Run(w, xs + ys) == Run(Run(w, xs), ys)
  {
    if |ys| == 0 {
      assert xs + ys == xs;
    } else {
      assert (xs + ys)[..|xs + ys| - 1] == xs + ys[..|ys| - 1];
      RunConcat(w, xs, ys[..|ys| - 1]);
    }
  }

  lemma {:induction false} RunThenOne(w: World, calls: seq<Call>, call: Call)
    ensures Run(w, calls + [call]) == Next(Run(w, calls), call)
  {
    assert (calls + [call])[..|calls + [call]| - 1] == calls;
  }

  lemma RunTwo(w: World, a: Call, b: Call)
    ensures Run(w, [a, b]) == Next(Next(w, a), b)
  {
    assert [a, b][..1] == [a] && [a][..0] == [];
    assert Run(w, [a]) == Next(Run(w, []), a);
  }

  /** The last step of a run from the start, seen through its two-state facts alone. */
  lemma {:induction false} LastStepLater(calls: seq<Call>)
    requires |calls| > 0
    ensures Later(Run(START, calls[..|calls| - 1]).db, Run(START, calls).db)
  {
    Reachable(calls[..|calls| - 1]);
    NextKeeps(Run(START, calls[..|calls| - 1]), calls[|calls| - 1]);
  }

  /** A step other than record_failure leaves what StepDb says; record_failure leaves
      everything but payments alone. */
  lemma NextIsStep(w: World, call: Call)
    ensures !MarksFailure(call.op) ==> Next(w, call).db == StepDb(w.db, call).Or(w.db)
    ensures MarksFailure(call.op) ==>
              Next(w, call).db == w.db.(transactions := Next(w, call).db.transactions)
  {
  }
}
