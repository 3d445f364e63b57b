/** What each payment operation answers and leaves behind, field by field: what an order
    status does to a payment, what starting one stores, what activation changes, and what
    the portal shows. */
module PaymentEffects {
  import opened Basics
  import opened Records
  import opened WalletRules
  import opened PaymentRules
  import opened WalletEffects
  import Money

  /** Still open: a later order status can change it. */
  predicate StillOpen(s: CollectionStatus) {
    s in {Created, StkSent, Waiting, InProgress, Unclear, RequiresReview}
  }

  lemma StillOpenIff(s: CollectionStatus)
    ensures StillOpen(s) <==> !Terminal(s)
  {
    match s
    case Created =>
    case StkSent =>
    case Waiting =>
    case InProgress =>
    case Completed =>
    case PaymentFailed =>
    case PaymentCancelled =>
    case UserCancelled =>
    case Declined =>
    case PaymentRejected =>
    case Unclear =>
    case Expired =>
    case RequiresReview =>
  }

  // -------------------------------------------------------- order status

  /** Whether a reported payment is of this very order: its own amount, and its own order
      and currency or none. */
  predicate OfThisOrder(tx: Transaction, data: OrderStatus) {
    && data.amount == Some(Cents(tx.amount))
    && (data.orderId == None || data.orderId == Some("") || data.orderId == Some(tx.reference))
    && (data.currency == None || data.currency == Some("") || data.currency == Some(tx.currency))
  }

  /** Nothing changes but the status of one payment. */
  predicate OnlyStatus(db: Db, r: Result<Db>, i: nat, s: CollectionStatus)
    requires i < |db.transactions|
  {
    r == Ok(db.(transactions := db.transactions[i := db.transactions[i].(status := s)]))
  }

  /** A payment is completed and credited once, at the rate in force, to its own tenant. */
  ghost predicate Credits(db: Db, db': Db, i: nat, row: Transaction, ref: Reference)
    requires i < |db.transactions|
  {
    var tx := db.transactions[i];
    var t, rate := tx.tenant, ActiveRate(db.terms, tx.tenant);
    && rate.Some?
    && var fee := Money.PlatformFee(tx.amount, rate.value);
       var pending := WalletOf(db, t).pending + tx.amount - fee;
       && WalletOf(db', t) == WalletOf(db, t).(pending := pending)
       && (forall u :: u != t ==> WalletOf(db', u) == WalletOf(db, u))
       && db' == db.(wallets := db'.wallets, transactions := db.transactions[i := row],
                     ledger := db.ledger
                               + [LedgerEntry(t, Collection, Credit, None, tx.amount, None, ref),
                                  LedgerEntry(t, PlatformFee, Debit, None, fee, None, ref),
                                  LedgerEntry(t, TenantShare, Credit, Some(Pending), tx.amount - fee,
                                              Some(pending), ref)])
  }

  lemma FinalizeEffect(db: Db, flow: TransactionType, i: nat, ref: Reference)
    requires i < |db.transactions| && TermsOk(db.terms) && WalletOf(db, db.transactions[i].tenant).NonNegative()
    ensures var r, tx := Finalize(db, flow, i, ref), db.transactions[i];
            var row := if flow == CaptivePortalFlow then tx.(status := Completed, activation := Some(ToActivate))
                       else tx.(status := Completed);
            && (r.Ok? <==> tx.amount > 0 && ActiveRate(db.terms, tx.tenant).Some?)
            && (r.Ok? ==> Credits(db, r.value, i, row, ref))
  {
    var tx := db.transactions[i];
    CollectionEffect(db, tx.tenant, tx.amount, ref);
    var credited := ProcessCollection(db, tx.tenant, tx.amount, ref);
    if credited.Ok? {
      assert db.settlements + [] == db.settlements;
      assert credited.value == db.(wallets := credited.value.wallets, ledger := credited.value.ledger);
    }
  }

  /** A reported COMPLETED credits an open payment exactly when the amount is its own and
      the order and the currency are its own or not given; any other leaves it AMBIGUOUS
      and moves no money. */
  lemma CompletedReplyEffect(db: Db, cfg: Settings, now: Time, flow: TransactionType, i: nat, data: OrderStatus)
    requires i < |db.transactions| && db.transactions[i].flow == Some(flow) && StillOpen(db.transactions[i].status)
    requires TermsOk(db.terms) && WalletOf(db, db.transactions[i].tenant).NonNegative()
    requires data.paymentStatus == "COMPLETED"
    ensures var r, tx := ApplyOrderStatus(db, cfg, now, flow, i, data), db.transactions[i];
            if OfThisOrder(tx, data) then
              var row := if flow == CaptivePortalFlow then tx.(status := Completed, activation := Some(ToActivate))
                         else tx.(status := Completed);
              && (r.Ok? <==> tx.amount > 0 && ActiveRate(db.terms, tx.tenant).Some?)
              && (r.Ok? ==> Credits(db, r.value, i, row, SelcomPaymentRef(i)))
            else OnlyStatus(db, r, i, Unclear)
  {
    StillOpenIff(db.transactions[i].status);
    FinalizeEffect(db, flow, i, SelcomPaymentRef(i));
  }

  /** Every other order status changes the status alone: seven end the payment, two wait
      unless it is under review or overdue for it, and an unknown one makes it AMBIGUOUS. */
  lemma OtherReplyEffect(db: Db, cfg: Settings, now: Time, flow: TransactionType, i: nat, data: OrderStatus)
    requires i < |db.transactions| && db.transactions[i].flow == Some(flow) && StillOpen(db.transactions[i].status)
    requires data.paymentStatus != "COMPLETED"
    ensures var r, tx, said := ApplyOrderStatus(db, cfg, now, flow, i, data), db.transactions[i], data.paymentStatus;
            var review := || tx.status == RequiresReview
                          || (cfg.reviewMinutes > 0 && tx.stkRequestedAt.Some?
                              && now - tx.stkRequestedAt.value >= cfg.reviewMinutes * 60_000_000);
            var known := {"PENDING", "INPROGRESS", "CANCELLED", "USERCANCELLED", "USERCANCELED", "REJECTED", "DECLINED",
                          "FAILED", "EXPIRED"};
            && (said == "PENDING" ==> OnlyStatus(db, r, i, if review then RequiresReview else Waiting))
            && (said == "INPROGRESS" ==> OnlyStatus(db, r, i, if review then RequiresReview else InProgress))
            && (said == "CANCELLED" ==> OnlyStatus(db, r, i, PaymentCancelled))
            && (said == "USERCANCELLED" || said == "USERCANCELED" ==> OnlyStatus(db, r, i, UserCancelled))
            && (said == "REJECTED" ==> OnlyStatus(db, r, i, PaymentRejected))
            && (said == "DECLINED" ==> OnlyStatus(db, r, i, Declined))
            && (said == "FAILED" ==> OnlyStatus(db, r, i, PaymentFailed))
            && (said == "EXPIRED" ==> OnlyStatus(db, r, i, Expired))
            && (said !in known ==> OnlyStatus(db, r, i, Unclear))
  {
    var tx := db.transactions[i];
    StillOpenIff(tx.status);
    assert db.transactions[i := tx.(status := tx.status)] == db.transactions;
  }

  /** An ended payment hears nothing any more. */
  lemma EndedHearsNothing(db: Db, cfg: Settings, now: Time, flow: TransactionType, i: nat, data: OrderStatus)
    requires i < |db.transactions| && db.transactions[i].flow == Some(flow) && !StillOpen(db.transactions[i].status)
    ensures ApplyOrderStatus(db, cfg, now, flow, i, data) == Ok(db)
  {
    StillOpenIff(db.transactions[i].status);
  }

  /** Through whichever service, reconciling applies the reply to the row's own flow. */
  lemma ReconcileApplies(db: Db, cfg: Settings, now: Time, asked: TransactionType, i: nat, data: OrderStatus)
    requires i < |db.transactions| && db.transactions[i].flow.Some?
    ensures ReconcilePayment(db, cfg, now, asked, i, Some(data))
            == ApplyOrderStatus(db, cfg, now, db.transactions[i].flow.value, i, data)
  {
  }

  /** A payment finalized directly: nothing for one already COMPLETED, and otherwise a
      credit exactly if it is open, captive, of a positive amount, and its tenant has a rate. */
  lemma DirectFinalizeEffect(db: Db, i: nat)
    requires i < |db.transactions| && TermsOk(db.terms) && WalletOf(db, db.transactions[i].tenant).NonNegative()
    ensures var r, tx := FinalizePayment(db, i), db.transactions[i];
            if tx.status == Completed then r == Ok(db)
            else
              && (r.Ok? <==> StillOpen(tx.status) && tx.subscription.Some? && tx.customer.Some?
                             && tx.amount > 0 && ActiveRate(db.terms, tx.tenant).Some?)
              && (r.Ok? ==> Credits(db, r.value, i, tx.(status := Completed, activation := Some(ToActivate)),
                                    TransactionRef(i)))
  {
    StillOpenIff(db.transactions[i].status);
    FinalizeEffect(db, CaptivePortalFlow, i, TransactionRef(i));
  }

  // ---------------------------------------------------------- initiation

  /** What a new payment's status and push time are. */
  predicate StartedAs(tx: Transaction, stk: Stk, now: Time) {
    if stk == PushSent then tx.status == StkSent && tx.stkRequestedAt == Some(now)
    else tx.status == PaymentFailed && tx.stkRequestedAt == None
  }

  /** A collection is started exactly when both gates are open, the request is sound and
      nothing unexpected happens; one row then holds what was asked for. */
  lemma CollectionStarts(db: Db, cfg: Settings, now: Time, op: PaymentOp)
    requires op.InitiateCollection?
    ensures var r, n := StartCollection(db, cfg, now, op), |db.transactions|;
            && (r.Ok? <==>
                  && cfg.collectionEnabled && cfg.collectionProduction && op.currency == "TZS" && op.amount > 0
                  && op.phoneValid && (op.customer.Some? ==> op.customerKnown) && op.stk != StkFault)
            && (r.Ok? ==>
                  && |r.value.transactions| == n + 1
                  && r.value == db.(transactions := db.transactions + [r.value.transactions[n]])
                  && var tx := r.value.transactions[n];
                     && tx.tenant == op.tenant && tx.flow == Some(CollectionFlow)
                     && tx.provider == Some(SelcomCollection) && tx.reference == op.reference
                     && tx.amount == op.amount && tx.currency == "TZS" && tx.customer == op.customer
                     && tx.subscription == None && tx.attempt == None && tx.activation == None
                     && tx.activatedAt == None && StartedAs(tx, op.stk, now))
  {
  }

  /** A captive payment is started exactly when both gates are open, the session resolves
      and is unspent, the package is on offer, the phone is sound, the limiter allows it, no
      attempt is open for the same session, package and phone, and nothing unexpected
      happens. Its amount is the package's price; its access is one pending subscription
      for that package; and the session is spent. */
  lemma CaptiveStarts(db: Db, cfg: Settings, now: Time, op: PaymentOp)
    requires op.InitiateCaptive?
    ensures var r, n, m := StartCaptive(db, cfg, now, op), |db.transactions|, |db.subscriptions|;
            var admitted :=
              && cfg.collectionEnabled && cfg.collectionProduction
              && op.session.Some? && op.session.value.id !in db.spent
              && op.package.Some? && op.package.value.active && op.phone.Some? && op.allowed && op.stk != StkFault
              && forall k :: 0 <= k < n && StillOpen(db.transactions[k].status) ==>
                   db.transactions[k].attempt
                   != Some(Attempt(op.session.value.id, op.package.value.id, op.phone.value));
            && (r.Ok? && r.value != db <==> admitted)
            && (r.Ok? && r.value != db ==>
                  && |r.value.transactions| == n + 1
                  && var tx, t := r.value.transactions[n], op.session.value.tenant;
                     && r.value == db.(transactions := db.transactions + [tx],
                                       subscriptions := db.subscriptions
                                         + [Subscription(t, op.buyer, op.package.value.id, SubPending, None, None)],
                                       spent := db.spent + {op.session.value.id})
                     && tx.tenant == t && tx.flow == Some(CaptivePortalFlow)
                     && tx.provider == Some(SelcomCollection) && tx.reference == op.reference
                     && tx.amount == op.package.value.price && tx.currency == "TZS"
                     && tx.customer == Some(op.buyer) && tx.subscription == Some(m)
                     && tx.attempt == Some(Attempt(op.session.value.id, op.package.value.id, op.phone.value))
                     && tx.activation == None && tx.activatedAt == None && StartedAs(tx, op.stk, now))
  {
    forall k | 0 <= k < |db.transactions|
      ensures StillOpen(db.transactions[k].status) <==> !Terminal(db.transactions[k].status)
    {
      StillOpenIff(db.transactions[k].status);
    }
    if op.session.Some? && op.package.Some? && op.phone.Some? {
      AttemptLiveIff(db, Attempt(op.session.value.id, op.package.value.id, op.phone.value));
    }
  }

  lemma AttemptLiveIff(db: Db, attempt: Attempt)
    ensures !AttemptLive(db, attempt) <==>
              forall k :: 0 <= k < |db.transactions| && StillOpen(db.transactions[k].status) ==>
                db.transactions[k].attempt != Some(attempt)
  {
    forall k | 0 <= k < |db.transactions|
      ensures LiveAttempt(db.transactions[k], attempt)
              <==> StillOpen(db.transactions[k].status) && db.transactions[k].attempt == Some(attempt)
    {
      StillOpenIff(db.transactions[k].status);
    }
  }

  // ---------------------------------------------------------- activation

  /** A subscription activated at a moment, for as many minutes as its package lasts. */
  predicate DatedFrom(sub: Subscription, sub': Subscription, now: Time, minutes: Option<nat>) {
    sub' == sub.(status := SubActive, activatedAt := Some(now),
                 expiresAt := if minutes == None || minutes == Some(0) then None
                              else Some(now + minutes.value * 60_000_000))
  }

  /** An attempt succeeds exactly for a COMPLETED payment that is ACTIVE already, or whose
      rows are all found and whose provisioning works; it then makes the payment ACTIVE and
      dates its subscription if that is still pending. */
  lemma AttemptEffect(db: Db, now: Time, i: nat, meets: Attempted)
    requires i < |db.transactions|
    requires db.transactions[i].subscription.Some? && db.transactions[i].customer.Some?
    requires db.transactions[i].subscription.value < |db.subscriptions|
    requires db.subscriptions[db.transactions[i].subscription.value].tenant == db.transactions[i].tenant
    ensures var r, tx := Activate(db, now, i, meets), db.transactions[i];
            var j := tx.subscription.value;
            var sub := db.subscriptions[j];
            if tx.status == Completed && tx.activation == Some(Active) then r == Ok(db)
            else
              && (r.Ok? <==>
                    && tx.status == Completed && meets.customerFound && meets.provisioned
                    && meets.package != PackageGone
                    && (sub.status == SubPending ==> meets.package.OwnPackage?))
              && (r == Raised(ProvisioningFailed) <==>
                    && tx.status == Completed && meets.customerFound && !meets.provisioned
                    && meets.package != PackageGone
                    && (sub.status == SubPending ==> meets.package.OwnPackage?))
              && (r.Ok? ==>
                    && |r.value.subscriptions| == |db.subscriptions|
                    && var sub' := r.value.subscriptions[j];
                       && r.value == db.(transactions := db.transactions[i := tx.(activation := Some(Active),
                                                                                  activatedAt := Some(now))],
                                         subscriptions := db.subscriptions[j := sub'])
                       && (if sub.status == SubPending then DatedFrom(sub, sub', now, meets.package.minutes)
                           else sub' == sub))
  {
    var j := db.transactions[i].subscription.value;
    assert db.subscriptions[j := db.subscriptions[j]] == db.subscriptions;
  }

  /** Outside an attempt, only a pending subscription of the tenant, with a package of the
      tenant's own, is activated. */
  lemma StaffActivationEffect(db: Db, now: Time, t: TenantId, j: nat, found: PackageFound)
    ensures var r := ActivateSubscription(db, now, t, j, found);
            && (r.Ok? <==> j < |db.subscriptions| && db.subscriptions[j].tenant == t
                           && db.subscriptions[j].status == SubPending && found.OwnPackage?)
            && (r.Ok? ==>
                  && |r.value.subscriptions| == |db.subscriptions|
                  && r.value == db.(subscriptions := db.subscriptions[j := r.value.subscriptions[j]])
                  && DatedFrom(db.subscriptions[j], r.value.subscriptions[j], now, found.minutes))
  {
  }

  // --------------------------------------------------------------- portal

  /** What the portal shows of a payment, status by status. */
  lemma PortalTable(db: Db, i: nat, found: bool)
    requires i < |db.transactions|
    ensures var tx, view := db.transactions[i], PortalStatus(db, i, found);
            && (tx.status in {RequiresReview, Unclear} ==> view == PortalPending(true))
            && (tx.status in {Created, StkSent, Waiting, InProgress} ==> view == PortalPending(false))
            && (tx.status in {PaymentFailed, PaymentCancelled, UserCancelled, Declined, PaymentRejected, Expired} ==>
                  view == PortalFailed)
            && (tx.status == Completed ==>
                  view == if tx.activation == Some(Active) then
                            PortalCompleted(Online, if found && tx.customer.Some? then tx.subscription else None)
                          else if tx.activation == None || tx.activation == Some(ToActivate) then
                            PortalCompleted(SettingUp, None)
                          else if tx.activation == Some(Activating) then PortalCompleted(Working, None)
                          else PortalCompleted(SetupFailed, None))
  {
  }
}
