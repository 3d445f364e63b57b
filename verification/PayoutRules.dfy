/** The withdrawal lifecycle, as functions of the database.
    PayoutService (PayoutService.dfy) is proved against these functions. */
module PayoutRules {
  import opened Basics
  import opened Records
  import opened WalletRules

  // ------------------------------------------------------- status graph

  predicate Held(s: WithdrawalStatus) {
    s.Draft? || s.PendingApproval? || s.Approved? || s.Processing? || s.Ambiguous?
  }

  predicate Voided(s: WithdrawalStatus) {
    s.Failed? || s.Rejected? || s.Cancelled?
  }

  predicate InFlight(s: WithdrawalStatus) {
    s.Processing? || s.Ambiguous?
  }

  // ------------------------------------------------- external inputs

  datatype ProviderOutcome = Succeeded | StillInProgress | Unknown | Refused

  datatype Reply = Reply(
    outcome: ProviderOutcome,
    amount: Option<Reported>,
    currency: Option<string>,
    transId: Option<string>)

  /** What transaction/query brings back; `QueryFault` is an exception the code does not catch. */
  datatype Query = NoAnswer | Answer(reply: Reply) | QueryFault

  datatype Lookup = LookupUnreachable | LookupRefused | LookupFault | Account(name: Option<string>, charge: Option<int>)

  datatype Process = ProcessUnreachable | ProcessRefused | ProcessFault | Processed(reply: Reply)

  /** Everything one submission hears from outside. */
  datatype Submission = Submission(destinationComplete: bool, lookup: Lookup, process: Process, query: Query)

  /** One call of transaction_process. */
  datatype PayoutCall = PayoutCall(withdrawal: nat, transId: string, amount: int)

  // ------------------------------------------------------- rows and events

  /** get_by_id_for_update, scoped to a tenant when one is given. */
  function Locked(db: Db, tenant: Option<TenantId>, id: nat): Result<Withdrawal> {
    if id >= |db.withdrawals| || (tenant.Some? && db.withdrawals[id].tenant != tenant.value) then Raised(NotFound)
    else Ok(db.withdrawals[id])
  }

  function Write(db: Db, id: nat, row: Withdrawal): Db
    requires id < |db.withdrawals|
  {
    db.(withdrawals := db.withdrawals[id := row])
  }

  /** Replaces a row, and logs the status it came from and went to. */
  function Transition(db: Db, id: nat, row: Withdrawal, actor: Option<ActorId>): Db
    requires id < |db.withdrawals|
  {
    Write(db, id, row).(events := db.events + [Event(id, Some(db.withdrawals[id].status), row.status, actor)])
  }

  /** The wallet move that goes with reaching a status. */
  function Book(db: Db, t: TenantId, to: WithdrawalStatus, amount: int, id: nat): Result<Db> {
    if Voided(to) then Release(db, t, amount)
    else if to.Success? then CompleteDisbursement(db, t, amount, id)
    else if to.Reversed? then ReverseDisbursement(db, t, amount, id)
    else Ok(db)
  }

  /** No operation on a withdrawal touches a payment, a subscription or a rate. */
  predicate PaymentsUntouched(db: Db, db': Db) {
    && db'.transactions == db.transactions && db'.subscriptions == db.subscriptions
    && db'.terms == db.terms && db'.spent == db.spent
  }

  /** A status change together with its wallet move. */
  function Shift(db: Db, id: nat, row: Withdrawal, actor: Option<ActorId>): (r: Result<Db>)
    requires id < |db.withdrawals|
    ensures r.Ok? ==> r.value.withdrawals == db.withdrawals[id := row] && PaymentsUntouched(db, r.value)
  {
    var booked :- Book(db, row.tenant, row.status, row.amount, id);
    Ok(Transition(booked, id, row, actor))
  }

  function ShiftTo(db: Db, id: nat, to: WithdrawalStatus, actor: Option<ActorId>): (r: Result<Db>)
    requires id < |db.withdrawals|
    ensures r.Ok? ==> r.value.withdrawals == db.withdrawals[id := db.withdrawals[id].(status := to)]
                      && PaymentsUntouched(db, r.value)
  {
    Shift(db, id, db.withdrawals[id].(status := to), actor)
  }

  // ------------------------------------------------------- daily limits

  function DayStart(now: Time): Time {
    now - now % DAY
  }

  predicate Counts(w: Withdrawal, t: TenantId, since: Time) {
    w.tenant == t && w.createdAt >= since && !Voided(w.status)
  }

  function CountedAmount(t: TenantId, since: Time): Withdrawal -> int {
    (w: Withdrawal) => if Counts(w, t, since) then w.amount else 0
  }

  function CountedOne(t: TenantId, since: Time): Withdrawal -> int {
    (w: Withdrawal) => if Counts(w, t, since) then 1 else 0
  }

  predicate WithinLimits(db: Db, cfg: Settings, t: TenantId, amount: int, now: Time) {
    && (cfg.minAmount.Some? ==> amount >= cfg.minAmount.value)
    && (cfg.maxAmount.Some? ==> amount <= cfg.maxAmount.value)
    && (cfg.dailyLimit.Some? ==>
          Total(CountedAmount(t, DayStart(now)), db.withdrawals) + amount <= cfg.dailyLimit.value)
    && (cfg.dailyCount.Some? ==>
          Total(CountedOne(t, DayStart(now)), db.withdrawals) + 1 <= cfg.dailyCount.value)
  }

  // ----------------------------------------------------------------- OTP

  /** issue_challenge with the send bookkeeping that follows it. */
  function IssuedOtp(otp: Otp, id: nat, cfg: Settings, now: Time, email: string, code: string): Otp {
    Otp(Some(CodeHash(id, code)), Some(now + cfg.otpTtl), 0, None, Some(email), Some(now), otp.sends + 1)
  }

  predicate Exhausted(otp: Otp, cfg: Settings, now: Time) {
    otp.attempts >= cfg.otpMaxAttempts || otp.expiresAt.None? || now > otp.expiresAt.value
  }

  /** Whether verify gets as far as comparing codes. */
  predicate Compares(otp: Otp, cfg: Settings, now: Time, email: Option<string>) {
    otp.codeHash.Some? && !Exhausted(otp, cfg, now) && (email.Some? ==> otp.sentTo == email)
  }

  predicate WrongCode(otp: Otp, id: nat, code: string, cfg: Settings, now: Time, email: Option<string>) {
    Compares(otp, cfg, now, email) && otp.codeHash != Some(CodeHash(id, code))
  }

  predicate RightCode(otp: Otp, id: nat, code: string, cfg: Settings, now: Time, email: Option<string>) {
    Compares(otp, cfg, now, email) && otp.codeHash == Some(CodeHash(id, code))
  }

  // -------------------------------------------------- provider results

  /** The two reported amounts that explain a withdrawal. */
  predicate AmountExplained(reported: Reported, principal: int, charge: Option<int>) {
    || reported == Cents(principal)
    || (charge.Some? && charge.value >= 0 && reported == Cents(principal + charge.value))
  }

  predicate Explains(w: Withdrawal, reply: Reply) {
    && (reply.transId.Some? ==> reply.transId.value == w.key)
    && (reply.currency.Some? ==> reply.currency.value == w.currency)
    && (reply.amount.Some? ==> AmountExplained(reply.amount.value, w.amount, w.providerCharge))
  }

  function ApplyProviderResult(db: Db, id: nat, reply: Reply, actor: Option<ActorId>): (r: Result<Db>)
    requires id < |db.withdrawals|
    ensures r.Ok? ==> PaymentsUntouched(db, r.value)
  {
    var w := db.withdrawals[id];
    if !InFlight(w.status) then Ok(db) else
    match reply.outcome
    case Succeeded => ShiftTo(db, id, if Explains(w, reply) then Success else Ambiguous, actor)
    case StillInProgress => Ok(db)
    case Unknown => ShiftTo(db, id, Ambiguous, actor)
    case Refused => ShiftTo(db, id, Failed, actor)
  }

  function ReconcileLocked(db: Db, id: nat, query: Query, actor: Option<ActorId>): (r: Result<Db>)
    requires id < |db.withdrawals|
    ensures r.Ok? ==> PaymentsUntouched(db, r.value)
  {
    match query
    case NoAnswer => Ok(db)
    case QueryFault => Raised(ProviderFault)
    case Answer(reply) => ApplyProviderResult(db, id, reply, actor)
  }

  // ---------------------------------------------------------- submission

  /** Whether the gates and the lookup let a submission through to transaction_process. */
  predicate Submits(db: Db, cfg: Settings, id: nat, sub: Submission)
    requires id < |db.withdrawals|
  {
    && db.withdrawals[id].status.Approved?
    && cfg.disbursementEnabled && !(cfg.production && !cfg.productionPayouts)
    && sub.destinationComplete
    && sub.lookup.Account? && sub.lookup.name.Some? && sub.lookup.name.value != ""
  }

  function Submitted(w: Withdrawal, lookup: Lookup): Withdrawal
    requires lookup.Account?
  {
    w.(status := Processing, verifiedName := lookup.name, providerCharge := lookup.charge)
  }

  function Submit(db: Db, cfg: Settings, id: nat, sub: Submission, actor: Option<ActorId>): (r: Result<Db>)
    requires id < |db.withdrawals|
    ensures r.Ok? ==> PaymentsUntouched(db, r.value)
  {
    if Submits(db, cfg, id, sub) then
      var processing :- Shift(db, id, Submitted(db.withdrawals[id], sub.lookup), actor);
      match sub.process
      case ProcessUnreachable => ReconcileLocked(processing, id, sub.query, actor)
      case ProcessRefused => ShiftTo(processing, id, Failed, actor)
      case ProcessFault => Raised(ProviderFault)
      case Processed(reply) => ApplyProviderResult(processing, id, reply, actor)
    else if !db.withdrawals[id].status.Approved? then
      Ok(db)
    else if !cfg.disbursementEnabled || (cfg.production && !cfg.productionPayouts) || !sub.destinationComplete then
      ShiftTo(db, id, Failed, actor)
    else
      match sub.lookup
      case LookupUnreachable => Ok(db)
      case LookupFault => Raised(ProviderFault)
      case _ => ShiftTo(db, id, Failed, actor)
  }

  /** The transaction_process calls a submission makes; they are made whether or
      not the transaction they belong to survives. */
  function SubmitCalls(db: Db, cfg: Settings, id: nat, sub: Submission): seq<PayoutCall>
    requires id < |db.withdrawals|
  {
    if Submits(db, cfg, id, sub) then [PayoutCall(id, db.withdrawals[id].key, db.withdrawals[id].amount)] else []
  }

  // ---------------------------------------------------------- operations

  /** `waited` is how long a request's database transaction, whose start becomes
      created_at, has been open when the request reads the clock. */
  datatype PayoutOp =
    | Request(tenant: TenantId, actor: ActorId, destination: nat, amount: int, destinationKnown: bool,
              managedWallet: bool, payoutFlag: bool, email: Option<string>, key: string, code: string,
              waited: nat)
    | Resend(tenant: TenantId, id: nat, actor: ActorId, email: Option<string>, code: string)
    | Confirm(tenant: TenantId, id: nat, actor: ActorId, code: string, currentEmail: Option<string>,
              recheckedAt: Time, submission: Submission)
    | Approve(id: nat, actor: ActorId, submission: Submission)
    | Reject(id: nat, actor: ActorId, reason: string)
    | Cancel(tenant: TenantId, id: nat, actor: ActorId)
    | Reverse(tenant: TenantId, id: nat, reviewer: Option<ActorId>, reason: string)
    | Reconcile(id: nat, query: Query)
    | ReconcileIfPending(id: nat, query: Query)
    | ApplyDisbursement(id: nat, succeeded: bool)

  function KeyTaken(db: Db, key: string): bool {
    exists i :: 0 <= i < |db.withdrawals| && db.withdrawals[i].key == key
  }

  function NewRow(cfg: Settings, now: Time, op: PayoutOp): Withdrawal
    requires op.Request?
  {
    Withdrawal(op.tenant, op.actor, op.destination, op.amount, TZS, Draft, op.key,
               op.amount > cfg.approvalThreshold, now - op.waited, None, None, None,
               Otp(None, None, 0, None, None, None, 0))
  }

  function RequestWithdrawal(db: Db, cfg: Settings, now: Time, op: PayoutOp): Result<Db>
    requires op.Request?
  {
    if || op.amount <= 0 || !op.destinationKnown || !op.managedWallet || !cfg.disbursementEnabled
       || !op.payoutFlag || op.email.None? || !WithinLimits(db, cfg, op.tenant, op.amount, now)
    then Raised(DomainValidation) else
    var reserved :- Reserve(db, op.tenant, op.amount);
    if KeyTaken(db, op.key) then Raised(Integrity) else
    if !cfg.otpSecret then Raised(DomainValidation) else
    var row := NewRow(cfg, now, op);
    var id := |db.withdrawals|;
    Ok(reserved.(
       withdrawals := db.withdrawals + [row.(otp := IssuedOtp(row.otp, id, cfg, now, op.email.value, op.code))],
       events := db.events + [Event(id, None, Draft, Some(op.actor))]))
  }

  function ResendOtp(db: Db, cfg: Settings, now: Time, op: PayoutOp): Result<Db>
    requires op.Resend?
  {
    var w :- Locked(db, Some(op.tenant), op.id);
    if w.requestedBy != op.actor || !w.status.Draft? || w.otp.sends >= cfg.otpMaxSends then
      Raised(DomainValidation)
    else if w.otp.lastSentAt.Some? && cfg.otpCooldown - (now - w.otp.lastSentAt.value) > 0 then
      Raised(RateLimited)
    else if op.email.None? || !cfg.otpSecret then
      Raised(DomainValidation)
    else
      Ok(Write(db, op.id, w.(otp := IssuedOtp(w.otp, op.id, cfg, now, op.email.value, op.code))))
  }

  function ConfirmedRow(w: Withdrawal, now: Time): Withdrawal {
    w.(otp := w.otp.(confirmedAt := Some(now)), status := if w.approvalRequired then PendingApproval else Approved)
  }

  function ConfirmTwoFactor(db: Db, cfg: Settings, now: Time, op: PayoutOp): (r: Result<Db>)
    requires op.Confirm?
    ensures r.Ok? ==> PaymentsUntouched(db, r.value)
  {
    var w :- Locked(db, Some(op.tenant), op.id);
    if w.requestedBy != op.actor || !w.status.Draft? then Raised(DomainValidation)
    else if Compares(w.otp, cfg, now, op.currentEmail) && !cfg.otpSecret then Raised(DomainValidation)
    else if RightCode(w.otp, op.id, op.code, cfg, now, op.currentEmail) then
      var confirmed :- Shift(db, op.id, ConfirmedRow(w, now), Some(op.actor));
      if w.approvalRequired then Ok(confirmed) else Submit(confirmed, cfg, op.id, op.submission, Some(op.actor))
    else
      var otp := if WrongCode(w.otp, op.id, op.code, cfg, now, op.currentEmail)
                 then w.otp.(attempts := w.otp.attempts + 1) else w.otp;
      if Exhausted(otp, cfg, op.recheckedAt) then
        Shift(db, op.id, w.(otp := otp, status := Cancelled), Some(op.actor))
      else
        Ok(Write(db, op.id, w.(otp := otp)))
  }

  function ApproveWithdrawal(db: Db, cfg: Settings, op: PayoutOp): (r: Result<Db>)
    requires op.Approve?
    ensures r.Ok? ==> PaymentsUntouched(db, r.value)
  {
    var w :- Locked(db, None, op.id);
    if !w.status.PendingApproval? then Raised(DomainValidation) else
    var approved :- Shift(db, op.id, w.(reviewedBy := Some(op.actor), status := Approved), Some(op.actor));
    Submit(approved, cfg, op.id, op.submission, Some(op.actor))
  }

  function RejectWithdrawal(db: Db, op: PayoutOp): Result<Db>
    requires op.Reject?
  {
    if Blank(op.reason) then Raised(DomainValidation) else
    var w :- Locked(db, None, op.id);
    if !w.status.PendingApproval? then Raised(DomainValidation) else
    Shift(db, op.id, w.(reviewedBy := Some(op.actor), status := Rejected), Some(op.actor))
  }

  function CancelWithdrawal(db: Db, op: PayoutOp): Result<Db>
    requires op.Cancel?
  {
    var w :- Locked(db, Some(op.tenant), op.id);
    if w.requestedBy != op.actor || !(w.status.Draft? || w.status.PendingApproval?) then Raised(DomainValidation)
    else ShiftTo(db, op.id, Cancelled, Some(op.actor))
  }

  function ReverseWithdrawal(db: Db, op: PayoutOp): Result<Db>
    requires op.Reverse?
  {
    if Blank(op.reason) then Raised(DomainValidation) else
    var w :- Locked(db, Some(op.tenant), op.id);
    if !w.status.Success? then Raised(DomainValidation) else
    ShiftTo(db, op.id, Reversed, op.reviewer)
  }

  function ReconcileWithdrawal(db: Db, op: PayoutOp): Result<Db>
    requires op.Reconcile?
  {
    var w :- Locked(db, None, op.id);
    ReconcileLocked(db, op.id, op.query, None)
  }

  function ReconcilePending(db: Db, op: PayoutOp): Result<Db>
    requires op.ReconcileIfPending?
  {
    var w :- Locked(db, None, op.id);
    if !InFlight(w.status) then Ok(db) else ReconcileLocked(db, op.id, op.query, None)
  }

  function ApplyDisbursementResult(db: Db, op: PayoutOp): Result<Db>
    requires op.ApplyDisbursement?
  {
    var w :- Locked(db, None, op.id);
    if !w.status.Processing? then Ok(db)
    else ShiftTo(db, op.id, if op.succeeded then Success else Failed, None)
  }

  function PayoutStep(db: Db, cfg: Settings, now: Time, op: PayoutOp): (r: Result<Db>)
    ensures r.Ok? ==> PaymentsUntouched(db, r.value)
  {
    match op
    case Request(_, _, _, _, _, _, _, _, _, _, _) => RequestWithdrawal(db, cfg, now, op)
    case Resend(_, _, _, _, _) => ResendOtp(db, cfg, now, op)
    case Confirm(_, _, _, _, _, _, _) => ConfirmTwoFactor(db, cfg, now, op)
    case Approve(_, _, _) => ApproveWithdrawal(db, cfg, op)
    case Reject(_, _, _) => RejectWithdrawal(db, op)
    case Cancel(_, _, _) => CancelWithdrawal(db, op)
    case Reverse(_, _, _, _) => ReverseWithdrawal(db, op)
    case Reconcile(_, _) => ReconcileWithdrawal(db, op)
    case ReconcileIfPending(_, _) => ReconcilePending(db, op)
    case ApplyDisbursement(_, _) => ApplyDisbursementResult(db, op)
  }

  /** The transaction_process calls an operation makes. */
  function PayoutCalls(db: Db, cfg: Settings, now: Time, op: PayoutOp): seq<PayoutCall> {
    match op
    case Confirm(tenant, id, actor, code, email, _, sub) =>
      var w := Locked(db, Some(tenant), id);
      if && w.Ok? && w.value.requestedBy == actor && w.value.status.Draft? && cfg.otpSecret
         && RightCode(w.value.otp, id, code, cfg, now, email) && !w.value.approvalRequired
      then SubmitCalls(Write(db, id, ConfirmedRow(w.value, now)), cfg, id, sub) else []
    case Approve(id, actor, sub) =>
      var w := Locked(db, None, id);
      if w.Ok? && w.value.status.PendingApproval?
      then SubmitCalls(Write(db, id, w.value.(reviewedBy := Some(actor), status := Approved)), cfg, id, sub) else []
    case _ => []
  }
}
