/** Customer payments and the access they buy, as functions of the database.
    The payment services (PaymentServices.dfy) are proved against these functions. */
module PaymentRules {
  import opened Basics
  import opened Records
  import opened WalletRules

  predicate Terminal(s: CollectionStatus) {
    || s.Completed? || s.PaymentFailed? || s.PaymentCancelled? || s.UserCancelled?
    || s.Declined? || s.PaymentRejected? || s.Expired?
  }

  // ------------------------------------------------- external inputs

  /** One authenticated order-status item; paymentStatus is already stripped and upper-cased. */
  datatype OrderStatus = OrderStatus(
    paymentStatus: string,
    orderId: Option<string>,
    amount: Option<Reported>,
    currency: Option<string>)

  /** How starting a payment with the provider goes; `StkFault` is an exception the code
      does not catch. */
  datatype Stk = OrderRefused | PushRefused | StkFault | PushSent

  datatype Session = Session(id: nat, tenant: TenantId)

  datatype Package = Package(id: nat, price: int, active: bool)

  /** A subscription's package, as looked up again when access is activated: gone,
      found but not the tenant's own, or found with what it lasts. */
  datatype PackageFound = PackageGone | ForeignPackage | OwnPackage(minutes: Option<nat>)

  /** Everything an activation attempt meets outside the rows it locks. */
  datatype Attempted = Attempted(customerFound: bool, package: PackageFound, provisioned: bool)

  // -------------------------------------------------- the order-status map

  function Mapped(paymentStatus: string): Option<CollectionStatus> {
    match paymentStatus
    case "PENDING" => Some(Waiting)
    case "INPROGRESS" => Some(InProgress)
    case "CANCELLED" => Some(PaymentCancelled)
    case "USERCANCELLED" => Some(UserCancelled)
    case "USERCANCELED" => Some(UserCancelled)
    case "REJECTED" => Some(PaymentRejected)
    case "DECLINED" => Some(Declined)
    case "FAILED" => Some(PaymentFailed)
    case "EXPIRED" => Some(Expired)
    case _ => None
  }

  predicate SaysPaid(data: OrderStatus) {
    data.paymentStatus == "COMPLETED"
  }

  /** An absent or empty field is not a mismatch. */
  predicate AbsentOr(reported: Option<string>, expected: string) {
    reported.None? || reported.value == "" || reported.value == expected
  }

  predicate Matches(tx: Transaction, data: OrderStatus) {
    && AbsentOr(data.orderId, tx.reference)
    && data.amount == Some(Cents(tx.amount))
    && AbsentOr(data.currency, tx.currency)
  }

  predicate IsStale(tx: Transaction, cfg: Settings, now: Time) {
    && cfg.reviewMinutes > 0
    && tx.stkRequestedAt.Some?
    && now - tx.stkRequestedAt.value >= cfg.reviewMinutes * MINUTE
  }

  // ------------------------------------------------------- finalization

  function SetTransaction(db: Db, i: nat, tx: Transaction): Db
    requires i < |db.transactions|
  {
    db.(transactions := db.transactions[i := tx])
  }

  function SetStatus(db: Db, i: nat, s: CollectionStatus): Db
    requires i < |db.transactions|
  {
    SetTransaction(db, i, db.transactions[i].(status := s))
  }

  /** The row a verified payment ends in: only the captive flow has access to grant. */
  function PaidRow(tx: Transaction, flow: TransactionType): Transaction {
    tx.(status := Completed, activation := if flow.CaptivePortalFlow? then Some(ToActivate) else tx.activation)
  }

  function Finalize(db: Db, flow: TransactionType, i: nat, ref: Reference): Result<Db>
    requires i < |db.transactions|
  {
    var tx := db.transactions[i];
    var credited :- ProcessCollection(db, tx.tenant, tx.amount, ref);
    Ok(SetTransaction(credited, i, PaidRow(tx, flow)))
  }

  function ApplyOrderStatus(db: Db, cfg: Settings, now: Time, flow: TransactionType, i: nat,
                            data: OrderStatus): Result<Db>
    requires i < |db.transactions|
  {
    var tx := db.transactions[i];
    if tx.flow != Some(flow) then Raised(FlowMismatch)
    else if Terminal(tx.status) then Ok(db)
    else if SaysPaid(data) then
      if Matches(tx, data) then Finalize(db, flow, i, SelcomPaymentRef(i)) else Ok(SetStatus(db, i, Unclear))
    else
      match Mapped(data.paymentStatus)
      case None => Ok(SetStatus(db, i, Unclear))
      case Some(s) =>
        if Terminal(s) then Ok(SetStatus(db, i, s))
        else if tx.status.RequiresReview? then Ok(db)
        else Ok(SetStatus(db, i, if IsStale(tx, cfg, now) then RequiresReview else s))
  }

  /** The flow whose finalizer owns a transaction, whichever service was asked. */
  function ProviderFor(asked: TransactionType, tx: Transaction): Result<TransactionType> {
    if tx.flow == Some(asked) then Ok(asked)
    else match tx.flow
         case Some(owner) => Ok(owner)
         case None => Raised(FlowMismatch)
  }

  function ReconcilePayment(db: Db, cfg: Settings, now: Time, asked: TransactionType, i: nat,
                            answer: Option<OrderStatus>): Result<Db>
  {
    if i >= |db.transactions| then Raised(NotFound) else
    var owner :- ProviderFor(asked, db.transactions[i]);
    match answer
    case None => Ok(db)
    case Some(data) => ApplyOrderStatus(db, cfg, now, owner, i, data)
  }

  predicate Reconcilable(tx: Transaction, provider: PaymentProvider) {
    tx.provider == Some(provider) && !Terminal(tx.status)
  }

  function FinalizePayment(db: Db, i: nat): Result<Db> {
    if i >= |db.transactions| then Raised(NotFound) else
    var tx := db.transactions[i];
    if tx.status.Completed? then Ok(db)
    else if Terminal(tx.status) || tx.subscription.None? || tx.customer.None? then Raised(DomainValidation)
    else Finalize(db, CaptivePortalFlow, i, TransactionRef(i))
  }

  // --------------------------------------------------------- initiation

  datatype PaymentOp =
    | SetRate(tenant: TenantId, rate: int)
    | InitiateCollection(tenant: TenantId, amount: int, currency: string, phoneValid: bool,
                         customer: Option<nat>, customerKnown: bool, reference: string, stk: Stk)
    | InitiateCaptive(session: Option<Session>, package: Option<Package>, phone: Option<string>,
                      allowed: bool, buyer: nat, reference: string, stk: Stk)
    | ReconcileVia(asked: TransactionType, tx: nat, answer: Option<OrderStatus>)
    | FinalizeCaptive(tx: nat)
    | AttemptActivation(tx: nat, meets: Attempted)
    | RecordFailure(tx: nat)
    | ActivateByStaff(tenant: TenantId, subscription: nat, found: PackageFound)

  /** What create_order_and_send_stk leaves a new row with. */
  function Pushed(tx: Transaction, stk: Stk, now: Time): Transaction
    requires !stk.StkFault?
  {
    if stk.PushSent? then tx.(status := StkSent, stkRequestedAt := Some(now)) else tx.(status := PaymentFailed)
  }

  function NewCollection(op: PaymentOp): Transaction
    requires op.InitiateCollection?
  {
    Transaction(op.tenant, Some(CollectionFlow), Some(SelcomCollection), op.reference, op.amount, op.currency,
                Created, None, op.customer, None, None, None, None)
  }

  function StartCollection(db: Db, cfg: Settings, now: Time, op: PaymentOp): Result<Db>
    requires op.InitiateCollection?
  {
    if || !cfg.collectionEnabled || !cfg.collectionProduction || op.currency != TZS || op.amount <= 0 || !op.phoneValid
    then Raised(DomainValidation)
    else if op.customer.Some? && !op.customerKnown then Raised(NotFound)
    else if op.stk.StkFault? then Raised(ProviderFault)
    else Ok(db.(transactions := db.transactions + [Pushed(NewCollection(op), op.stk, now)]))
  }

  predicate LiveAttempt(tx: Transaction, attempt: Attempt) {
    tx.attempt == Some(attempt) && !Terminal(tx.status)
  }

  predicate AttemptLive(db: Db, attempt: Attempt) {
    exists i :: 0 <= i < |db.transactions| && LiveAttempt(db.transactions[i], attempt)
  }

  function NewCaptive(tenant: TenantId, subscription: nat, op: PaymentOp): Transaction
    requires op.InitiateCaptive? && op.session.Some? && op.package.Some? && op.phone.Some?
  {
    Transaction(tenant, Some(CaptivePortalFlow), Some(SelcomCollection), op.reference, op.package.value.price, TZS,
                Created, None, Some(op.buyer), Some(subscription),
                Some(Attempt(op.session.value.id, op.package.value.id, op.phone.value)), None, None)
  }

  function StartCaptive(db: Db, cfg: Settings, now: Time, op: PaymentOp): Result<Db>
    requires op.InitiateCaptive?
  {
    if !cfg.collectionEnabled || !cfg.collectionProduction then Ok(db)
    else if op.session.None? || op.session.value.id in db.spent then Raised(DomainValidation)
    else if op.package.None? || !op.package.value.active || op.phone.None? then
      Raised(DomainValidation)
    else if !op.allowed || AttemptLive(db, Attempt(op.session.value.id, op.package.value.id, op.phone.value)) then
      Ok(db)
    else if op.stk.StkFault? then Raised(ProviderFault)
    else
      var t := op.session.value.tenant;
      Ok(db.(
         subscriptions := db.subscriptions + [Subscription(t, op.buyer, op.package.value.id, SubPending, None, None)],
         transactions := db.transactions + [Pushed(NewCaptive(t, |db.subscriptions|, op), op.stk, now)],
         spent := db.spent + {op.session.value.id}))
  }

  // --------------------------------------------------------- activation

  function ActivatedRow(sub: Subscription, now: Time, duration: Option<nat>): Subscription {
    sub.(status := SubActive, activatedAt := Some(now),
         expiresAt := if duration.Some? && duration.value != 0 then Some(now + duration.value * MINUTE) else None)
  }

  function ActivateSubscription(db: Db, now: Time, tenant: TenantId, j: nat, found: PackageFound): Result<Db> {
    if j >= |db.subscriptions| || db.subscriptions[j].tenant != tenant then Raised(NotFound)
    else if !db.subscriptions[j].status.SubPending? || !found.OwnPackage? then Raised(DomainValidation)
    else Ok(db.(subscriptions := db.subscriptions[j := ActivatedRow(db.subscriptions[j], now, found.minutes)]))
  }

  function Activate(db: Db, now: Time, i: nat, meets: Attempted): Result<Db> {
    if i >= |db.transactions| then Raised(NotFound) else
    var tx := db.transactions[i];
    if !tx.status.Completed? then Raised(DomainValidation)
    else if tx.activation == Some(Active) then Ok(db)
    else if tx.subscription.None? || tx.customer.None? then Raised(DomainValidation)
    else if tx.subscription.value >= |db.subscriptions| then Raised(NotFound)
    else if !meets.customerFound || meets.package.PackageGone? then Raised(MissingRow)
    else
      var j := tx.subscription.value;
      var started :- if db.subscriptions[j].status.SubPending?
                     then ActivateSubscription(db, now, tx.tenant, j, meets.package) else Ok(db);
      if !meets.provisioned then Raised(ProvisioningFailed)
      else Ok(SetTransaction(started, i, tx.(activation := Some(Active), activatedAt := Some(now))))
  }

  function MarkFailed(db: Db, i: nat): Result<Db> {
    if i >= |db.transactions| then Raised(NotFound)
    else Ok(SetTransaction(db, i, db.transactions[i].(activation := Some(ActivationFailed))))
  }

  /** run_activation: a provisioning failure is rolled back, then marked in a clean transaction. */
  function RunActivation(db: Db, now: Time, i: nat, meets: Attempted): Result<Db> {
    match Activate(db, now, i, meets)
    case Ok(db') => Ok(db')
    case Raised(e) => if e.ProvisioningFailed? then MarkFailed(db, i) else Raised(e)
  }

  predicate Retryable(tx: Transaction) {
    tx.status.Completed? && (tx.activation == Some(ToActivate) || tx.activation == Some(ActivationFailed))
  }

  function PaymentStep(db: Db, cfg: Settings, now: Time, op: PaymentOp): Result<Db> {
    match op
    case SetRate(t, rate) => SetCommissionRate(db, t, rate)
    case InitiateCollection(_, _, _, _, _, _, _, _) => StartCollection(db, cfg, now, op)
    case InitiateCaptive(_, _, _, _, _, _, _) => StartCaptive(db, cfg, now, op)
    case ReconcileVia(asked, i, answer) => ReconcilePayment(db, cfg, now, asked, i, answer)
    case FinalizeCaptive(i) => FinalizePayment(db, i)
    case AttemptActivation(i, meets) => Activate(db, now, i, meets)
    case RecordFailure(i) => MarkFailed(db, i)
    case ActivateByStaff(t, j, found) => ActivateSubscription(db, now, t, j, found)
  }

  // ------------------------------------------------ what the portal shows

  datatype PortalView =
    | PortalNotFound
    | PortalPending(underReview: bool)
    | PortalFailed
    | PortalCompleted(access: AccessWord, credentials: Option<nat>)

  datatype AccessWord = SettingUp | Working | Online | SetupFailed

  /** The word a customer sees for an activation status. */
  function PublicActivation(activation: Option<ActivationStatus>): AccessWord {
    match activation
    case None => SettingUp
    case Some(ToActivate) => SettingUp
    case Some(Activating) => Working
    case Some(Active) => Online
    case Some(ActivationFailed) => SetupFailed
    case Some(NeedsReview) => SetupFailed
  }

  function PortalStatus(db: Db, i: nat, customerFound: bool): PortalView {
    if i >= |db.transactions| then PortalNotFound else
    var tx := db.transactions[i];
    if tx.status.RequiresReview? || tx.status.Unclear? then PortalPending(true)
    else if Terminal(tx.status) && !tx.status.Completed? then PortalFailed
    else if !tx.status.Completed? then PortalPending(false)
    else if tx.subscription.None? || tx.customer.None? || !customerFound || tx.activation != Some(Active) then
      PortalCompleted(PublicActivation(tx.activation), None)
    else PortalCompleted(Online, tx.subscription)
  }
}
