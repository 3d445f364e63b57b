/** No step for one tenant changes anything of another tenant's. */
module Isolation {
  import opened Basics
  import opened Records
  import opened WalletRules
  import opened PayoutRules
  import opened Books
  import opened PaymentRules
  import opened Sales
  import opened Lifecycle
  import opened Invariants
  import opened Platform

  /** The tenant a call is about: named in the call, or the owner of the row it names. */
  function TenantOf(db: Db, op: Op): Option<TenantId> {
    match op
    case Payout(Request(t, _, _, _, _, _, _, _, _, _, _)) => Some(t)
    case Payout(p) => if p.id < |db.withdrawals| then Some(db.withdrawals[p.id].tenant) else None
    case Payment(SetRate(t, _)) => Some(t)
    case Payment(InitiateCollection(t, _, _, _, _, _, _, _)) => Some(t)
    case Payment(InitiateCaptive(session, _, _, _, _, _, _)) =>
      if session.Some? then Some(session.value.tenant) else None
    case Payment(ActivateByStaff(t, _, _)) => Some(t)
    case Payment(p) => if p.tx < |db.transactions| then Some(db.transactions[p.tx].tenant) else None
    case _ => Some(op.tenant)
  }

  ghost predicate WalletsLocal(db: Db, db': Db, t: TenantId) {
    forall u :: u != t ==> WalletOf(db', u) == WalletOf(db, u)
  }

  ghost predicate LedgersLocal(db: Db, db': Db, t: TenantId) {
    && db.ledger <= db'.ledger && db.settlements <= db'.settlements
    && (forall k :: |db.ledger| <= k < |db'.ledger| ==> db'.ledger[k].tenant == t)
    && (forall k :: |db.settlements| <= k < |db'.settlements| ==> db'.settlements[k].tenant == t)
  }

  ghost predicate RowsLocal(db: Db, db': Db, t: TenantId) {
    && |db.withdrawals| <= |db'.withdrawals|
    && (forall k :: 0 <= k < |db'.withdrawals| && db'.withdrawals[k].tenant != t ==>
          k < |db.withdrawals| && db'.withdrawals[k] == db.withdrawals[k])
    && |db.transactions| <= |db'.transactions|
    && (forall k :: 0 <= k < |db'.transactions| && db'.transactions[k].tenant != t ==>
          k < |db.transactions| && db'.transactions[k] == db.transactions[k])
    && |db.subscriptions| <= |db'.subscriptions|
    && (forall k :: 0 <= k < |db'.subscriptions| && db'.subscriptions[k].tenant != t ==>
          k < |db.subscriptions| && db'.subscriptions[k] == db.subscriptions[k])
    && |db.terms| <= |db'.terms|
    && (forall k :: 0 <= k < |db'.terms| && db'.terms[k].tenant != t ==>
          k < |db.terms| && db'.terms[k] == db.terms[k])
  }

  /** New events are about the tenant's own withdrawals. */
  ghost predicate EventsLocal(db: Db, db': Db, t: TenantId) {
    && db.events <= db'.events
    && (forall k :: |db.events| <= k < |db'.events| ==>
          db'.events[k].withdrawal < |db'.withdrawals| && db'.withdrawals[db'.events[k].withdrawal].tenant == t)
  }

  ghost predicate LocalTo(db: Db, db': Db, t: TenantId) {
    WalletsLocal(db, db', t) && LedgersLocal(db, db', t) && RowsLocal(db, db', t) && EventsLocal(db, db', t)
  }

  lemma LocalTransitive(a: Db, b: Db, c: Db, t: TenantId)
    requires LocalTo(a, b, t) && LocalTo(b, c, t)
    ensures LocalTo(a, c, t)
  {
  }

  lemma {:induction false} PostLocal(db: Db, t: TenantId, d: Buckets, entries: seq<LedgerEntry>, logs: seq<Settlement>)
    requires forall k :: 0 <= k < |entries| ==> entries[k].tenant == t
    requires forall k :: 0 <= k < |logs| ==> logs[k].tenant == t
    ensures var r := Post(db, t, d, entries, logs); r.Ok? ==> LocalTo(db, r.value, t)
  {
  }

  lemma ShiftLocal(db: Db, id: nat, row: Withdrawal, actor: Option<ActorId>)
    requires id < |db.withdrawals| && row.tenant == db.withdrawals[id].tenant && row.amount > 0
    ensures var r := Shift(db, id, row, actor); r.Ok? ==> LocalTo(db, r.value, row.tenant)
  {
    BookPosts(db, row.tenant, row.status, row.amount, id);
    if Moves(row.status) {
      PostLocal(db, row.tenant, BookDelta(row.status, row.amount),
                BookEntries(db, row.tenant, row.status, row.amount, id), []);
    }
  }

  lemma ProviderResultLocal(db: Db, id: nat, reply: Reply, actor: Option<ActorId>)
    requires id < |db.withdrawals| && db.withdrawals[id].amount > 0
    ensures var r := ApplyProviderResult(db, id, reply, actor);
            r.Ok? ==> LocalTo(db, r.value, db.withdrawals[id].tenant)
  {
    var w := db.withdrawals[id];
    match reply.outcome
    case Succeeded => ShiftLocal(db, id, w.(status := if Explains(w, reply) then Success else Ambiguous), actor);
    case StillInProgress =>
    case Unknown => ShiftLocal(db, id, w.(status := Ambiguous), actor);
    case Refused => ShiftLocal(db, id, w.(status := Failed), actor);
  }

  lemma QueryLocal(db: Db, id: nat, query: Query, actor: Option<ActorId>)
    requires id < |db.withdrawals| && db.withdrawals[id].amount > 0
    ensures var r := ReconcileLocked(db, id, query, actor); r.Ok? ==> LocalTo(db, r.value, db.withdrawals[id].tenant)
  {
    if query.Answer? {
      ProviderResultLocal(db, id, query.reply, actor);
    }
  }

  lemma AnsweredLocal(db: Db, id: nat, sub: Submission, actor: Option<ActorId>)
    requires id < |db.withdrawals| && db.withdrawals[id].amount > 0
    ensures var r := Answered(db, id, sub, actor); r.Ok? ==> LocalTo(db, r.value, db.withdrawals[id].tenant)
  {
    match sub.process
    case ProcessUnreachable => QueryLocal(db, id, sub.query, actor);
    case ProcessRefused => ShiftLocal(db, id, db.withdrawals[id].(status := Failed), actor);
    case ProcessFault =>
    case Processed(reply) => ProviderResultLocal(db, id, reply, actor);
  }

  lemma SubmitLocal(db: Db, cfg: Settings, id: nat, sub: Submission, actor: Option<ActorId>)
    requires id < |db.withdrawals| && db.withdrawals[id].amount > 0
    ensures var r := Submit(db, cfg, id, sub, actor); r.Ok? ==> LocalTo(db, r.value, db.withdrawals[id].tenant)
  {
    var w := db.withdrawals[id];
    var r := Submit(db, cfg, id, sub, actor);
    if r.Ok? && Submits(db, cfg, id, sub) {
      var row := Submitted(w, sub.lookup);
      ShiftLocal(db, id, row, actor);
      SubmitIs(db, cfg, id, sub, actor);
      var processing := Shift(db, id, row, actor).value;
      AnsweredLocal(processing, id, sub, actor);
      LocalTransitive(db, processing, r.value, w.tenant);
    } else {
      ShiftLocal(db, id, w.(status := Failed), actor);
    }
  }

  lemma ThenSubmitLocal(db: Db, cfg: Settings, id: nat, row: Withdrawal, sub: Submission, actor: Option<ActorId>)
    requires id < |db.withdrawals| && row.tenant == db.withdrawals[id].tenant && row.amount > 0
    requires Shift(db, id, row, actor).Ok?
    ensures var r := Submit(Shift(db, id, row, actor).value, cfg, id, sub, actor);
            r.Ok? ==> LocalTo(db, r.value, row.tenant)
  {
    ShiftLocal(db, id, row, actor);
    var mid := Shift(db, id, row, actor).value;
    SubmitLocal(mid, cfg, id, sub, actor);
    if Submit(mid, cfg, id, sub, actor).Ok? {
      LocalTransitive(db, mid, Submit(mid, cfg, id, sub, actor).value, row.tenant);
    }
  }

  lemma ConfirmLocal(db: Db, cfg: Settings, now: Time, op: PayoutOp)
    requires Inv(db) && op.Confirm?
    ensures var r := ConfirmTwoFactor(db, cfg, now, op); r.Ok? ==> LocalTo(db, r.value, op.tenant)
  {
    if ConfirmTwoFactor(db, cfg, now, op).Ok? {
      var id, w := op.id, db.withdrawals[op.id];
      RowIsOk(db, id);
      if RightCode(w.otp, id, op.code, cfg, now, op.currentEmail) {
        ShiftLocal(db, id, ConfirmedRow(w, now), Some(op.actor));
        if !w.approvalRequired {
          ThenSubmitLocal(db, cfg, id, ConfirmedRow(w, now), op.submission, Some(op.actor));
        }
      } else {
        var otp := if WrongCode(w.otp, id, op.code, cfg, now, op.currentEmail)
                   then w.otp.(attempts := w.otp.attempts + 1) else w.otp;
        ShiftLocal(db, id, w.(otp := otp, status := Cancelled), Some(op.actor));
      }
    }
  }

  lemma RequestLocal(db: Db, cfg: Settings, now: Time, op: PayoutOp)
    requires op.Request?
    ensures var r := RequestWithdrawal(db, cfg, now, op); r.Ok? ==> LocalTo(db, r.value, op.tenant)
  {
    if RequestWithdrawal(db, cfg, now, op).Ok? {
      PostLocal(db, op.tenant, Buckets(-op.amount, 0, op.amount, 0, 0), [], []);
      var reserved := Reserve(db, op.tenant, op.amount).value;
      var db' := RequestWithdrawal(db, cfg, now, op).value;
      assert forall u :: WalletOf(db', u) == WalletOf(reserved, u);
    }
  }

  lemma ReviewLocal(db: Db, op: PayoutOp)
    requires Inv(db) && (op.Reject? || op.Cancel? || op.Reverse?)
    requires op.id < |db.withdrawals|
    ensures var r := if op.Reject? then RejectWithdrawal(db, op)
                     else if op.Cancel? then CancelWithdrawal(db, op) else ReverseWithdrawal(db, op);
            r.Ok? ==> LocalTo(db, r.value, db.withdrawals[op.id].tenant)
  {
    var id, w := op.id, db.withdrawals[op.id];
    RowIsOk(db, id);
    match op
    case Reject(_, actor, _) => ShiftLocal(db, id, w.(reviewedBy := Some(actor), status := Rejected), Some(actor));
    case Cancel(_, _, actor) => ShiftLocal(db, id, w.(status := Cancelled), Some(actor));
    case Reverse(_, _, reviewer, _) => ShiftLocal(db, id, w.(status := Reversed), reviewer);
  }

  lemma ResultLocal(db: Db, op: PayoutOp)
    requires Inv(db) && (op.Reconcile? || op.ReconcileIfPending? || op.ApplyDisbursement?)
    requires op.id < |db.withdrawals|
    ensures var r := if op.Reconcile? then ReconcileWithdrawal(db, op)
                     else if op.ReconcileIfPending? then ReconcilePending(db, op) else ApplyDisbursementResult(db, op);
            r.Ok? ==> LocalTo(db, r.value, db.withdrawals[op.id].tenant)
  {
    RowIsOk(db, op.id);
    match op
    case Reconcile(id, query) => QueryLocal(db, id, query, None);
    case ReconcileIfPending(id, query) => QueryLocal(db, id, query, None);
    case ApplyDisbursement(id, succeeded) => StatusLocal(db, id, if succeeded then Success else Failed, None);
  }

  lemma StatusLocal(db: Db, id: nat, to: WithdrawalStatus, actor: Option<ActorId>)
    requires id < |db.withdrawals| && db.withdrawals[id].amount > 0
    ensures var r := ShiftTo(db, id, to, actor); r.Ok? ==> LocalTo(db, r.value, db.withdrawals[id].tenant)
  {
    ShiftLocal(db, id, db.withdrawals[id].(status := to), actor);
  }

  lemma ApproveLocal(db: Db, cfg: Settings, op: PayoutOp)
    requires Inv(db) && op.Approve? && ApproveWithdrawal(db, cfg, op).Ok?
    ensures LocalTo(db, ApproveWithdrawal(db, cfg, op).value, db.withdrawals[op.id].tenant)
  {
    RowIsOk(db, op.id);
    var row := db.withdrawals[op.id].(reviewedBy := Some(op.actor), status := Approved);
    ThenSubmitLocal(db, cfg, op.id, row, op.submission, Some(op.actor));
  }

  lemma ResendLocal(db: Db, cfg: Settings, now: Time, op: PayoutOp)
    requires op.Resend? && ResendOtp(db, cfg, now, op).Ok?
    ensures LocalTo(db, ResendOtp(db, cfg, now, op).value, db.withdrawals[op.id].tenant)
  {
  }

  lemma PayoutLocal(db: Db, cfg: Settings, now: Time, op: PayoutOp)
    requires Inv(db) && PayoutStep(db, cfg, now, op).Ok?
    ensures TenantOf(db, Payout(op)).Some?
    ensures LocalTo(db, PayoutStep(db, cfg, now, op).value, TenantOf(db, Payout(op)).value)
  {
    match op
    case Request(_, _, _, _, _, _, _, _, _, _, _) => RequestLocal(db, cfg, now, op);
    case Resend(_, _, _, _, _) => ResendLocal(db, cfg, now, op);
    case Confirm(_, _, _, _, _, _, _) => ConfirmLocal(db, cfg, now, op);
    case Approve(_, _, _) => ApproveLocal(db, cfg, op);
    case Reject(_, _, _) => ReviewLocal(db, op);
    case Cancel(_, _, _) => ReviewLocal(db, op);
    case Reverse(_, _, _, _) => ReviewLocal(db, op);
    case Reconcile(_, _) => ResultLocal(db, op);
    case ReconcileIfPending(_, _) => ResultLocal(db, op);
    case ApplyDisbursement(_, _) => ResultLocal(db, op);
  }

  lemma FinalizeLocal(db: Db, flow: TransactionType, i: nat, ref: Reference)
    requires i < |db.transactions|
    ensures var r := Finalize(db, flow, i, ref); r.Ok? ==> LocalTo(db, r.value, db.transactions[i].tenant)
  {
    var tx := db.transactions[i];
    if Finalize(db, flow, i, ref).Ok? {
      var fee := Money.PlatformFee(tx.amount, ActiveRate(db.terms, tx.tenant).value);
      PostLocal(db, tx.tenant, Buckets(0, tx.amount - fee, 0, 0, 0),
                CollectionEntries(tx.tenant, tx.amount, fee, WalletOf(db, tx.tenant).pending + tx.amount - fee, ref),
                    []);
      var credited := ProcessCollection(db, tx.tenant, tx.amount, ref).value;
      assert forall u :: WalletOf(Finalize(db, flow, i, ref).value, u) == WalletOf(credited, u);
    }
  }

  lemma OrderStatusLocal(db: Db, cfg: Settings, now: Time, flow: TransactionType, i: nat, data: OrderStatus)
    requires i < |db.transactions|
    ensures var r := ApplyOrderStatus(db, cfg, now, flow, i, data);
            r.Ok? ==> LocalTo(db, r.value, db.transactions[i].tenant)
  {
    FinalizeLocal(db, flow, i, SelcomPaymentRef(i));
  }

  lemma ActivateLocal(db: Db, now: Time, i: nat, meets: Attempted)
    requires Inv(db) && i < |db.transactions|
    ensures var r := Activate(db, now, i, meets); r.Ok? ==> LocalTo(db, r.value, db.transactions[i].tenant)
  {
    assert TxOk(db, i);
  }

  lemma StartLocal(db: Db, cfg: Settings, now: Time, op: PaymentOp)
    requires op.InitiateCollection? || op.InitiateCaptive?
    requires PaymentStep(db, cfg, now, op).Ok?
    ensures var db', t := PaymentStep(db, cfg, now, op).value, TenantOf(db, Payment(op));
            if t.Some? then LocalTo(db, db', t.value) else db' == db
  {
  }

  lemma SetRateLocal(db: Db, t: TenantId, rate: int)
    ensures var r := SetCommissionRate(db, t, rate); r.Ok? ==> LocalTo(db, r.value, t)
  {
    DeactivatedRows(db.terms, t);
  }

  lemma ReconcileLocal(db: Db, cfg: Settings, now: Time, asked: TransactionType, i: nat, answer: Option<OrderStatus>)
    requires i < |db.transactions|
    ensures var r := ReconcilePayment(db, cfg, now, asked, i, answer);
            r.Ok? ==> LocalTo(db, r.value, db.transactions[i].tenant)
  {
    if answer.Some? && ReconcilePayment(db, cfg, now, asked, i, answer).Ok? {
      OrderStatusLocal(db, cfg, now, ProviderFor(asked, db.transactions[i]).value, i, answer.value);
    }
  }

  lemma MarkerLocal(db: Db, i: nat)
    requires i < |db.transactions|
    ensures LocalTo(db, MarkFailed(db, i).value, db.transactions[i].tenant)
  {
  }

  lemma StaffActivationLocal(db: Db, now: Time, t: TenantId, j: nat, found: PackageFound)
    ensures var r := ActivateSubscription(db, now, t, j, found); r.Ok? ==> LocalTo(db, r.value, t)
  {
  }

  lemma CaptiveFinalizeLocal(db: Db, i: nat)
    requires i < |db.transactions|
    ensures var r := FinalizePayment(db, i); r.Ok? ==> LocalTo(db, r.value, db.transactions[i].tenant)
  {
    FinalizeLocal(db, CaptivePortalFlow, i, TransactionRef(i));
  }

  lemma PaymentLocal(db: Db, cfg: Settings, now: Time, op: PaymentOp)
    requires Inv(db) && PaymentStep(db, cfg, now, op).Ok?
    ensures var db', t := PaymentStep(db, cfg, now, op).value, TenantOf(db, Payment(op));
            if t.Some? then LocalTo(db, db', t.value) else db' == db
  {
    match op
    case SetRate(t, rate) => SetRateLocal(db, t, rate);
    case ReconcileVia(asked, i, answer) => ReconcileLocal(db, cfg, now, asked, i, answer);
    case FinalizeCaptive(i) => CaptiveFinalizeLocal(db, i);
    case AttemptActivation(i, meets) => ActivateLocal(db, now, i, meets);
    case InitiateCollection(_, _, _, _, _, _, _, _) => StartLocal(db, cfg, now, op);
    case InitiateCaptive(_, _, _, _, _, _, _) => StartLocal(db, cfg, now, op);
    case RecordFailure(i) => MarkerLocal(db, i);
    case ActivateByStaff(t, j, found) => StaffActivationLocal(db, now, t, j, found);
  }

  lemma WalletCallLocal(db: Db, call: Call)
    requires !call.op.Payout? && !call.op.Payment? && StepDb(db, call).Ok?
    ensures LocalTo(db, StepDb(db, call).value, call.op.tenant)
  {
    if call.op.Adjust? {
      var t, b, amount := call.op.tenant, call.op.bucket, call.op.amount;
      var delta := if call.op.direction.Credit? then amount else -amount;
      var e := LedgerEntry(t, Adjustment, call.op.direction, Some(b), amount,
                           Some(WalletOf(db, t).Get(b) + delta), call.op.reference);
      assert StepDb(db, call) == Post(db, t, EMPTY_WALLET.Set(b, delta), [e], []);
      PostLocal(db, t, EMPTY_WALLET.Set(b, delta), [e], []);
    }
  }

  /** A committed step changes one tenant's wallet, ledger, logs, rows and events at most. */
  lemma StepIsLocal(db: Db, call: Call)
    requires Inv(db) && StepDb(db, call).Ok?
    ensures var db', t := StepDb(db, call).value, TenantOf(db, call.op);
            if t.Some? then LocalTo(db, db', t.value) else db' == db
  {
    match call.op
    case Payout(op) => PayoutLocal(db, call.cfg, call.now, op);
    case Payment(op) => PaymentLocal(db, call.cfg, call.now, op);
    case _ => WalletCallLocal(db, call);
  }

  // ------------------------------------------------------------ whole runs

  function EntryOf(t: TenantId): LedgerEntry -> bool {
    (e: LedgerEntry) => e.tenant == t
  }

  function LogOf(t: TenantId): Settlement -> bool {
    (s: Settlement) => s.tenant == t
  }

  function WithdrawalOf(t: TenantId): Withdrawal -> bool {
    (w: Withdrawal) => w.tenant == t
  }

  function TransactionOf(t: TenantId): Transaction -> bool {
    (tx: Transaction) => tx.tenant == t
  }

  function SubscriptionOf(t: TenantId): Subscription -> bool {
    (sub: Subscription) => sub.tenant == t
  }

  function TermsOf(t: TenantId): Terms -> bool {
    (row: Terms) => row.tenant == t
  }

  /** The rows that satisfy `mine` are the same, in the same places, and none is new. */
  predicate SameRows<T(==)>(rows: seq<T>, rows': seq<T>, mine: T -> bool) {
    && |rows| <= |rows'|
    && (forall k :: 0 <= k < |rows| && mine(rows[k]) ==> rows'[k] == rows[k])
    && (forall k :: 0 <= k < |rows'| && mine(rows'[k]) ==> k < |rows| && rows'[k] == rows[k])
  }

  /** Everything of tenant t's is as it was, and nothing of it is new. */
  ghost predicate Untouched(db: Db, db': Db, t: TenantId) {
    && WalletOf(db', t) == WalletOf(db, t)
    && Filter(EntryOf(t), db'.ledger) == Filter(EntryOf(t), db.ledger)
    && Filter(LogOf(t), db'.settlements) == Filter(LogOf(t), db.settlements)
    && SameRows(db.withdrawals, db'.withdrawals, WithdrawalOf(t))
    && SameRows(db.transactions, db'.transactions, TransactionOf(t))
    && SameRows(db.subscriptions, db'.subscriptions, SubscriptionOf(t))
    && SameRows(db.terms, db'.terms, TermsOf(t))
    && (forall id :: 0 <= id < |db.withdrawals| && db.withdrawals[id].tenant == t ==>
          EventsOf(db', id) == EventsOf(db, id))
  }

  lemma UntouchedTransitive(a: Db, b: Db, c: Db, t: TenantId)
    requires Untouched(a, b, t) && Untouched(b, c, t)
    ensures Untouched(a, c, t)
  {
    forall id | 0 <= id < |a.withdrawals| && a.withdrawals[id].tenant == t
      ensures EventsOf(c, id) == EventsOf(a, id)
    {
      assert WithdrawalOf(t)(a.withdrawals[id]);
      assert b.withdrawals[id] == a.withdrawals[id];
    }
  }

  /** New rows of another's are filtered out. */
  lemma {:induction false} NewOnesElsewhere<T>(mine: T -> bool, old_: seq<T>, new_: seq<T>)
    requires old_ <= new_
    requires forall k :: |old_| <= k < |new_| ==> !mine(new_[k])
    ensures Filter(mine, new_) == Filter(mine, old_)
  {
    var added := new_[|old_|..];
    assert new_ == old_ + added;
    forall k | 0 <= k < |added|
      ensures !mine(added[k])
    {
      assert added[k] == new_[|old_| + k];
    }
    FilterConcat(mine, old_, added);
    FilterNone(mine, added);
  }

  /** What is local to one tenant leaves every other one's things alone. */
  lemma LocalLeavesOthers(db: Db, db': Db, u: TenantId, t: TenantId)
    requires LocalTo(db, db', u) && u != t && Later(db, db')
    ensures Untouched(db, db', t)
  {
    NewOnesElsewhere(EntryOf(t), db.ledger, db'.ledger);
    NewOnesElsewhere(LogOf(t), db.settlements, db'.settlements);
    RowsLeftAlone(db, db', u, t);
    forall id | 0 <= id < |db.withdrawals| && db.withdrawals[id].tenant == t
      ensures EventsOf(db', id) == EventsOf(db, id)
    {
      assert RowLater(db.withdrawals[id], db'.withdrawals[id]);
      NewOnesElsewhere(IsFor(id), db.events, db'.events);
    }
  }

  lemma RowsLeftAlone(db: Db, db': Db, u: TenantId, t: TenantId)
    requires RowsLocal(db, db', u) && u != t && PayoutsLater(db, db') && PaymentsLater(db, db')
    ensures SameRows(db.withdrawals, db'.withdrawals, WithdrawalOf(t))
    ensures SameRows(db.transactions, db'.transactions, TransactionOf(t))
    ensures SameRows(db.subscriptions, db'.subscriptions, SubscriptionOf(t))
    ensures SameRows(db.terms, db'.terms, TermsOf(t))
  {
    assert forall k :: 0 <= k < |db.withdrawals| ==> RowLater(db.withdrawals[k], db'.withdrawals[k]);
    assert forall k :: 0 <= k < |db.transactions| ==> TxLater(db.transactions[k], db'.transactions[k]);
    assert forall k :: 0 <= k < |db.subscriptions| ==> SubLater(db.subscriptions[k], db'.subscriptions[k]);
  }

  lemma StepLeavesOthers(w: World, call: Call, t: TenantId)
    requires WorldInv(w) && TenantOf(w.db, call.op) != Some(t)
    ensures Untouched(w.db, Next(w, call).db, t)
  {
    NextKeeps(w, call);
    NextIsLocal(w, call);
    if Next(w, call).db != w.db {
      LocalLeavesOthers(w.db, Next(w, call).db, TenantOf(w.db, call.op).value, t);
    }
  }

  lemma NextIsLocal(w: World, call: Call)
    requires Inv(w.db)
    ensures var db', t := Next(w, call).db, TenantOf(w.db, call.op);
            db' == w.db || (t.Some? && LocalTo(w.db, db', t.value))
  {
    if StepDb(w.db, call).Ok? {
      StepIsLocal(w.db, call);
    }
  }

  /** No call of the run is about tenant t. */
  predicate NoneAbout(w: World, calls: seq<Call>, t: TenantId) {
    |calls| == 0 ||
    var n := |calls| - 1;
    NoneAbout(w, calls[..n], t) && TenantOf(Run(w, calls[..n]).db, calls[n].op) != Some(t)
  }

  /** Over every run, as long as no call is about a tenant, its balances, entries, logs,
      rows and events are as they were, whatever everybody else does. */
  lemma {:induction false} OthersLeaveATenantAlone(w: World, calls: seq<Call>, t: TenantId)
    requires WorldInv(w) && NoneAbout(w, calls, t)
    ensures Untouched(w.db, Run(w, calls).db, t)
  {
    if |calls| == 0 {
      UntouchedAtFirst(w.db, t);
    } else {
      OthersLeaveATenantAlone(w, calls[..|calls| - 1], t);
      StillLeftAlone(w, calls, t);
    }
  }

  lemma UntouchedAtFirst(db: Db, t: TenantId)
    ensures Untouched(db, db, t)
  {
  }

  lemma {:induction false} StillLeftAlone(w: World, calls: seq<Call>, t: TenantId)
    requires |calls| > 0 && WorldInv(w) && NoneAbout(w, calls, t)
    requires Untouched(w.db, Run(w, calls[..|calls| - 1]).db, t)
    ensures Untouched(w.db, Run(w, calls).db, t)
  {
    var before := Run(w, calls[..|calls| - 1]);
    RunKeeps(w, calls[..|calls| - 1]);
    StepLeavesOthers(before, calls[|calls| - 1], t);
    UntouchedTransitive(w.db, before.db, Next(before, calls[|calls| - 1]).db, t);
  }
}
