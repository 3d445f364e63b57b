/** The rows of the database, and the status vocabularies. A row's id is its
    position in its table; money is integer cents; time is integer microseconds. */
module Records {
  import opened Basics

  type TenantId = nat
  type ActorId = nat
  type Time = int

  const SECOND: int := 1_000_000
  const MINUTE: int := 60 * SECOND
  const DAY: int := 86_400 * SECOND
  const TZS := "TZS"

  // ------------------------------------------------------------- wallets

  datatype Bucket = Available | Pending | Reserved | Frozen | TotalDisbursed

  /** One amount per bucket: a wallet row, or a change to one. */
  datatype Buckets =
    Buckets(available: int, pending: int, reserved: int, frozen: int, totalDisbursed: int)
  {
    function Get(b: Bucket): int {
      match b
      case Available => available
      case Pending => pending
      case Reserved => reserved
      case Frozen => frozen
      case TotalDisbursed => totalDisbursed
    }

    function Set(b: Bucket, x: int): (r: Buckets)
      ensures forall c :: r.Get(c) == if c == b then x else Get(c)
    {
      match b
      case Available => this.(available := x)
      case Pending => this.(pending := x)
      case Reserved => this.(reserved := x)
      case Frozen => this.(frozen := x)
      case TotalDisbursed => this.(totalDisbursed := x)
    }

    function Plus(d: Buckets): (r: Buckets)
      ensures forall c :: r.Get(c) == Get(c) + d.Get(c)
    {
      Buckets(available + d.available, pending + d.pending, reserved + d.reserved,
              frozen + d.frozen, totalDisbursed + d.totalDisbursed)
    }

    predicate NonNegative() {
      available >= 0 && pending >= 0 && reserved >= 0 && frozen >= 0 && totalDisbursed >= 0
    }
  }

  const EMPTY_WALLET := Buckets(0, 0, 0, 0, 0)

  // -------------------------------------------------------------- ledger

  datatype EntryType =
    | Collection | PlatformFee | TenantShare | Refund | Reversal
    | Disbursement | DisbursementReversal | Adjustment

  datatype Direction = Credit | Debit

  /** reference_type with reference_id. */
  datatype Reference =
    | NoReference
    | SelcomPaymentRef(id: nat)   // "selcom_collection"
    | TransactionRef(id: nat)     // "transaction"
    | WithdrawalRef(id: nat)      // "withdrawal"

  datatype LedgerEntry = LedgerEntry(
    tenant: TenantId,
    entryType: EntryType,
    direction: Direction,
    bucket: Option<Bucket>,
    amount: int,
    balanceAfter: Option<int>,
    reference: Reference)

  datatype Settlement = Settlement(tenant: TenantId, amount: int)

  /** rate is in hundredths of a percent. */
  datatype Terms = Terms(tenant: TenantId, rate: int, active: bool)

  // --------------------------------------------------------- withdrawals

  datatype WithdrawalStatus =
    | Draft | PendingApproval | Approved | Processing | Ambiguous
    | Success | Failed | Rejected | Cancelled | Reversed

  /** The keyed hash of a code, as an injective function of what is hashed. */
  datatype CodeHash = CodeHash(withdrawal: nat, code: string)

  datatype Otp = Otp(
    codeHash: Option<CodeHash>,
    expiresAt: Option<Time>,
    attempts: nat,
    confirmedAt: Option<Time>,
    sentTo: Option<string>,
    lastSentAt: Option<Time>,
    sends: nat)

  datatype Withdrawal = Withdrawal(
    tenant: TenantId,
    requestedBy: ActorId,
    destination: nat,
    amount: int,
    currency: string,
    status: WithdrawalStatus,
    key: string,
    approvalRequired: bool,
    createdAt: Time,
    reviewedBy: Option<ActorId>,
    verifiedName: Option<string>,
    providerCharge: Option<int>,
    otp: Otp)

  datatype Event = Event(
    withdrawal: nat,
    from: Option<WithdrawalStatus>,
    to: WithdrawalStatus,
    actor: Option<ActorId>)

  // ------------------------------------------------------------ payments

  datatype CollectionStatus =
    | Created | StkSent | Waiting | InProgress | Completed | PaymentFailed
    | PaymentCancelled | UserCancelled | Declined | PaymentRejected
    | Unclear | Expired | RequiresReview

  datatype ActivationStatus = ToActivate | Activating | Active | ActivationFailed | NeedsReview

  datatype TransactionType = CollectionFlow | CaptivePortalFlow

  datatype PaymentProvider = SelcomCollection

  /** What identifies one captive-portal attempt. */
  datatype Attempt = Attempt(session: nat, package: nat, phone: string)

  datatype Transaction = Transaction(
    tenant: TenantId,
    flow: Option<TransactionType>,
    provider: Option<PaymentProvider>,
    reference: string,
    amount: int,
    currency: string,
    status: CollectionStatus,
    stkRequestedAt: Option<Time>,
    customer: Option<nat>,
    subscription: Option<nat>,
    attempt: Option<Attempt>,
    activation: Option<ActivationStatus>,
    activatedAt: Option<Time>)

  datatype SubscriptionStatus = SubPending | SubActive

  datatype Subscription = Subscription(
    tenant: TenantId,
    customer: nat,
    package: nat,
    status: SubscriptionStatus,
    activatedAt: Option<Time>,
    expiresAt: Option<Time>)

  // ------------------------------------------------------------ database

  datatype Db = Db(
    wallets: map<TenantId, Buckets>,
    ledger: seq<LedgerEntry>,
    settlements: seq<Settlement>,
    withdrawals: seq<Withdrawal>,
    events: seq<Event>,
    terms: seq<Terms>,
    transactions: seq<Transaction>,
    subscriptions: seq<Subscription>,
    spent: set<nat>)              // captive sessions already consumed

  const EMPTY_DB := Db(map[], [], [], [], [], [], [], [], {})

  /** A tenant's wallet row; a tenant without one has the row get_or_create would make. */
  function WalletOf(db: Db, t: TenantId): Buckets {
    if t in db.wallets then db.wallets[t] else EMPTY_WALLET
  }

  // ------------------------------------------------------------ settings

  datatype Settings = Settings(
    approvalThreshold: int,
    minAmount: Option<int>,
    maxAmount: Option<int>,
    dailyLimit: Option<int>,
    dailyCount: Option<int>,
    disbursementEnabled: bool,
    production: bool,
    productionPayouts: bool,
    otpSecret: bool,            // whether a verification secret is configured
    otpTtl: int,                // microseconds
    otpMaxAttempts: int,
    otpCooldown: int,           // microseconds
    otpMaxSends: int,
    collectionEnabled: bool,
    collectionProduction: bool,
    reviewMinutes: int)

  /** An amount as a provider reports it: a whole number of cents, or something
      that equals no amount stored here. */
  datatype Reported = Cents(amount: int) | FractionOfCent
}
