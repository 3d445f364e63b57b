/** The payment, subscription and activation services, step by step: each method updates
    the session in place and is proved against PaymentRules. */
module PaymentServices {
  import opened Basics
  import opened Records
  import opened WalletServices
  import WalletRules
  import Q = PaymentRules
  import PaymentTheorems

  // ------------------------------------------------------- subscriptions

  class SubscriptionService {
    const db: Database

    constructor (db: Database)
      ensures this.db == db
    {
      this.db := db;
    }

    method CreateAwaitingPayment(t: TenantId, customer: nat, owned: bool, package: Option<Q.Package>)
      returns (r: Result<nat>)
      modifies db`subscriptions
      ensures r == if owned && package.Some? && package.value.active then Ok(|old(db.subscriptions)|)
                   else Raised(DomainValidation)
      ensures db.subscriptions
              == if r.Ok? then old(db.subscriptions)
                  + [Subscription(t, customer, package.value.id, SubPending, None, None)]
                 else old(db.subscriptions)
    {
      if !owned {
        return Raised(DomainValidation);
      }
      if package.None? {
        return Raised(DomainValidation);
      }
      if !package.value.active {
        return Raised(DomainValidation);
      }
      var j := |db.subscriptions|;
      db.subscriptions := db.subscriptions + [Subscription(t, customer, package.value.id, SubPending, None, None)];
      return Ok(j);
    }

    method Activate(now: Time, t: TenantId, j: nat, found: Q.PackageFound) returns (r: Result<()>)
      modifies db`subscriptions
      ensures Agrees(r, Q.ActivateSubscription(old(db.State()), now, t, j, found), db.State())
      ensures r.Raised? ==> db.State() == old(db.State())
    {
      if j >= |db.subscriptions| || db.subscriptions[j].tenant != t {
        return Raised(NotFound);
      }
      if !db.subscriptions[j].status.SubPending? {
        return Raised(DomainValidation);
      }
      if !found.OwnPackage? {
        return Raised(DomainValidation);
      }
      var activatedAt := now;
      var expiresAt := None;
      if found.minutes.Some? && found.minutes.value != 0 {
        expiresAt := Some(activatedAt + found.minutes.value * MINUTE);
      }
      db.subscriptions := db.subscriptions[j := db.subscriptions[j].(
        status := SubActive, activatedAt := Some(activatedAt), expiresAt := expiresAt)];
      return Ok(());
    }
  }

  // ------------------------------------------------ the payment provider

  /** One payment family's provider, with the finalizer its flow supplies. */
  class SelcomPaymentProvider {
    const db: Database
    const flow: TransactionType
    const wallet: WalletService

    constructor (db: Database, flow: TransactionType)
      ensures this.db == db && this.flow == flow && Bound()
    {
      this.db := db;
      this.flow := flow;
      wallet := new WalletService(db);
    }

    predicate Bound() {
      wallet.db == db
    }

    ghost predicate Ready()
      reads db
    {
      Bound() && WalletRules.WalletsNonNegative(db.State())
    }

    method Transition(i: nat, to: CollectionStatus)
      requires i < |db.transactions|
      modifies db`transactions
      ensures db.State() == Q.SetStatus(old(db.State()), i, to)
    {
      db.transactions := db.transactions[i := db.transactions[i].(status := to)];
    }

    method CreateOrderAndSendStk(i: nat, stk: Q.Stk, now: Time) returns (r: Result<()>)
      requires i < |db.transactions|
      modifies db`transactions
      ensures r == if stk.StkFault? then Raised(ProviderFault) else Ok(())
      ensures r.Ok? ==> db.transactions == old(db.transactions)[i := Q.Pushed(old(db.transactions[i]), stk, now)]
    {
      if stk.StkFault? {
        return Raised(ProviderFault);
      }
      if stk.OrderRefused? {
        Transition(i, PaymentFailed);
        return Ok(());
      }
      if stk.PushRefused? {
        Transition(i, PaymentFailed);
        return Ok(());
      }
      db.transactions := db.transactions[i := db.transactions[i].(status := StkSent, stkRequestedAt := Some(now))];
      return Ok(());
    }

    /** The flow's finalizer: credit the wallet and, for a captive payment, owe access. */
    method FinalizeFor(i: nat) returns (r: Result<()>)
      requires Ready() && i < |db.transactions|
      modifies db
      ensures Agrees(r, match WalletRules.ProcessCollection(old(db.State()), old(db.transactions[i].tenant),
                                                            old(db.transactions[i].amount), SelcomPaymentRef(i))
                        case Ok(credited) =>
                          Ok(if flow.CaptivePortalFlow?
                             then Q.SetTransaction(credited, i,
                                                   credited.transactions[i].(activation := Some(ToActivate)))
                             else credited)
                        case Raised(e) => Raised(e), db.State())
      ensures r.Ok? ==> |db.transactions| == |old(db.transactions)|
    {
      var _ :- wallet.ProcessCollection(db.transactions[i].tenant, db.transactions[i].amount, SelcomPaymentRef(i));
      if flow.CaptivePortalFlow? {
        db.transactions := db.transactions[i := db.transactions[i].(activation := Some(ToActivate))];
      }
      return Ok(());
    }

    method ApplyOrderStatus(cfg: Settings, now: Time, i: nat, data: Q.OrderStatus) returns (r: Result<()>)
      requires Ready() && i < |db.transactions|
      modifies db
      ensures Agrees(r, Q.ApplyOrderStatus(old(db.State()), cfg, now, flow, i, data), db.State())
    {
      var tx := db.transactions[i];
      if tx.flow != Some(flow) {
        return Raised(FlowMismatch);
      }
      if Q.Terminal(tx.status) {
        return Ok(());
      }
      if Q.SaysPaid(data) {
        r := ApplyPaid(i, data);
        return;
      }
      var mapped := Q.Mapped(data.paymentStatus);
      if mapped.None? {
        Transition(i, Unclear);
        return Ok(());
      }
      if !mapped.value.Waiting? && !mapped.value.InProgress? {
        Transition(i, mapped.value);
        return Ok(());
      }
      if tx.status.RequiresReview? {
        return Ok(());
      }
      if IsStalePending(tx, cfg, now) {
        Transition(i, RequiresReview);
        return Ok(());
      }
      Transition(i, mapped.value);
      return Ok(());
    }

    function IsStalePending(tx: Transaction, cfg: Settings, now: Time): (stale: bool)
      ensures stale <==> Q.IsStale(tx, cfg, now)
    {
      if cfg.reviewMinutes <= 0 || tx.stkRequestedAt.None? then false
      else
        var elapsed := now - tx.stkRequestedAt.value;
        elapsed >= cfg.reviewMinutes * MINUTE
    }

    method ApplyPaid(i: nat, data: Q.OrderStatus) returns (r: Result<()>)
      requires Ready() && i < |db.transactions|
      modifies db
      ensures Agrees(r, if Q.Matches(old(db.transactions[i]), data)
                        then Q.Finalize(old(db.State()), flow, i, SelcomPaymentRef(i))
                        else Ok(Q.SetStatus(old(db.State()), i, Unclear)), db.State())
    {
      var tx := db.transactions[i];
      if data.orderId.Some? && data.orderId.value != "" && data.orderId.value != tx.reference {
        Transition(i, Unclear);
        return Ok(());
      }
      if data.amount.None? || data.amount.value != Cents(tx.amount) {
        Transition(i, Unclear);
        return Ok(());
      }
      if data.currency.Some? && data.currency.value != "" && data.currency.value != tx.currency {
        Transition(i, Unclear);
        return Ok(());
      }
      var _ :- FinalizeFor(i);
      Transition(i, Completed);
      assert db.transactions == old(db.transactions)[i := Q.PaidRow(tx, flow)];
      return Ok(());
    }

    method QueryAndApply(cfg: Settings, now: Time, i: nat, answer: Option<Q.OrderStatus>) returns (r: Result<()>)
      requires Ready() && i < |db.transactions|
      modifies db
      ensures Agrees(r, match answer
                        case None => Ok(old(db.State()))
                        case Some(data) => Q.ApplyOrderStatus(old(db.State()), cfg, now, flow, i, data), db.State())
    {
      if answer.None? {
        return Ok(());
      }
      r := ApplyOrderStatus(cfg, now, i, answer.value);
    }

    /** This provider, or the sibling flow's on the same session. */
    method ProviderFor(tx: Transaction) returns (r: Result<SelcomPaymentProvider>)
      requires Bound()
      ensures match Q.ProviderFor(flow, tx)
              case Ok(owner) => r.Ok? && r.value.flow == owner && r.value.db == db && r.value.Bound()
              case Raised(e) => r == Raised(e)
    {
      if tx.flow == Some(flow) {
        return Ok(this);
      }
      match tx.flow {
        case Some(CollectionFlow) =>
          var sibling := new SelcomPaymentProvider(db, CollectionFlow);
          return Ok(sibling);
        case Some(CaptivePortalFlow) =>
          var sibling := new SelcomPaymentProvider(db, CaptivePortalFlow);
          return Ok(sibling);
        case None =>
          return Raised(FlowMismatch);
      }
    }

    method Reconcile(cfg: Settings, now: Time, i: nat, answer: Option<Q.OrderStatus>) returns (r: Result<()>)
      requires Ready()
      modifies db
      ensures Agrees(r, Q.ReconcilePayment(old(db.State()), cfg, now, flow, i, answer), db.State())
    {
      if i >= |db.transactions| {
        return Raised(NotFound);
      }
      var target :- ProviderFor(db.transactions[i]);
      r := target.QueryAndApply(cfg, now, i, answer);
    }
  }

  // ----------------------------------------------------- the two flows

  class CollectionService {
    const db: Database
    const provider: SelcomPaymentProvider

    constructor (db: Database)
      ensures this.db == db && Bound()
    {
      this.db := db;
      provider := new SelcomPaymentProvider(db, CollectionFlow);
    }

    predicate Bound() {
      provider.db == db && provider.Bound() && provider.flow == CollectionFlow
    }

    method InitiateCollection(cfg: Settings, now: Time, op: Q.PaymentOp) returns (r: Result<()>)
      requires Bound() && op.InitiateCollection?
      modifies db
      ensures Agrees(r, Q.StartCollection(old(db.State()), cfg, now, op), db.State())
      ensures r.Ok? ==>
                && |db.transactions| == |old(db.transactions)| + 1
                && var tx := db.transactions[|old(db.transactions)|];
                   && tx.tenant == op.tenant && tx.amount == op.amount && tx.currency == "TZS"
                   && tx.customer == op.customer && tx.reference == op.reference
                   && tx.flow == Some(CollectionFlow) && tx.subscription == None
    {
      if !cfg.collectionEnabled || !cfg.collectionProduction {
        return Raised(DomainValidation);
      }
      if op.currency != TZS || op.amount <= 0 || !op.phoneValid {
        return Raised(DomainValidation);
      }
      if op.customer.Some? && !op.customerKnown {
        return Raised(NotFound);
      }
      var i := |db.transactions|;
      db.transactions := db.transactions + [Q.NewCollection(op)];
      var _ :- provider.CreateOrderAndSendStk(i, op.stk, now);
      assert db.transactions == old(db.transactions) + [Q.Pushed(Q.NewCollection(op), op.stk, now)];
      return Ok(());
    }
  }

  datatype PortalAnswer = Unavailable | RateLimitedAnswer | Duplicate | PendingAnswer | FailedAnswer

  class CaptivePortalService {
    const db: Database
    const provider: SelcomPaymentProvider
    const wallet: WalletService
    const subscriptions: SubscriptionService

    constructor (db: Database)
      ensures this.db == db && Bound()
    {
      this.db := db;
      provider := new SelcomPaymentProvider(db, CaptivePortalFlow);
      wallet := new WalletService(db);
      subscriptions := new SubscriptionService(db);
    }

    predicate Bound() {
      && provider.db == db && provider.Bound() && provider.flow == CaptivePortalFlow
      && wallet.db == db && subscriptions.db == db
    }

    /** A new attempt is answered "failed" exactly when its row is FAILED, and "pending"
        exactly when the prompt was sent; otherwise no row is written. */
    method InitiatePayment(cfg: Settings, now: Time, op: Q.PaymentOp) returns (r: Result<PortalAnswer>)
      requires Bound() && op.InitiateCaptive?
      modifies db
      ensures Agrees(r, Q.StartCaptive(old(db.State()), cfg, now, op), db.State())
      ensures r.Ok? ==>
              (r.value.PendingAnswer? || r.value.FailedAnswer? <==> |db.transactions| > |old(db.transactions)|)
      ensures r.Ok? && |db.transactions| > |old(db.transactions)| ==>
                && |db.transactions| == |old(db.transactions)| + 1
                && op.session.Some? && op.package.Some? && op.phone.Some?
                && var tx := db.transactions[|old(db.transactions)|];
                   var session, package := op.session.value, op.package.value;
                   && tx.amount == package.price && tx.currency == "TZS"
                   && tx.tenant == session.tenant && tx.customer == Some(op.buyer)
                   && tx.attempt == Some(Attempt(session.id, package.id, op.phone.value))
                   && tx.flow == Some(CaptivePortalFlow) && tx.subscription == Some(|old(db.subscriptions)|)
                   && db.subscriptions
                      == old(db.subscriptions)
                         + [Subscription(session.tenant, op.buyer, package.id, SubPending, None, None)]
                   && db.spent == old(db.spent) + {session.id}
      ensures r.Ok? && r.value.PendingAnswer? ==> db.transactions[|old(db.transactions)|].status.StkSent?
      ensures r.Ok? && r.value.FailedAnswer? ==> db.transactions[|old(db.transactions)|].status.PaymentFailed?
    {
      if !cfg.collectionEnabled || !cfg.collectionProduction {
        return Ok(Unavailable);
      }
      if op.session.None? || op.session.value.id in db.spent {
        return Raised(DomainValidation);
      }
      if op.package.None? || !op.package.value.active || op.phone.None? {
        return Raised(DomainValidation);
      }
      var t, package := op.session.value.tenant, op.package.value;
      if !op.allowed {
        return Ok(RateLimitedAnswer);
      }
      if Q.AttemptLive(db.State(), Attempt(op.session.value.id, package.id, op.phone.value)) {
        return Ok(Duplicate);
      }
      var subscription := subscriptions.CreateAwaitingPayment(t, op.buyer, true, op.package);
      var i := |db.transactions|;
      db.transactions := db.transactions + [Q.NewCaptive(t, subscription.value, op)];
      db.spent := db.spent + {op.session.value.id};
      var _ :- provider.CreateOrderAndSendStk(i, op.stk, now);
      assert db.transactions == old(db.transactions) + [Q.Pushed(Q.NewCaptive(t, subscription.value, op), op.stk, now)];
      if db.transactions[i].status.StkSent? {
        return Ok(PendingAnswer);
      }
      return Ok(FailedAnswer);
    }

    method FinalizePayment(i: nat) returns (r: Result<()>)
      requires Bound() && WalletRules.WalletsNonNegative(db.State())
      modifies db
      ensures Agrees(r, Q.FinalizePayment(old(db.State()), i), db.State())
    {
      if i >= |db.transactions| {
        return Raised(NotFound);
      }
      var tx := db.transactions[i];
      if tx.status.Completed? {
        return Ok(());
      }
      if Q.Terminal(tx.status) {
        return Raised(DomainValidation);
      }
      if tx.subscription.None? || tx.customer.None? {
        return Raised(DomainValidation);
      }
      db.transactions := db.transactions[i := tx.(status := Completed, activation := Some(ToActivate))];
      r := wallet.ProcessCollection(tx.tenant, tx.amount, TransactionRef(i));
      CreditAfterWrite(old(db.State()), i, Q.PaidRow(tx, CaptivePortalFlow), TransactionRef(i));
    }

    /** Crediting before or after the row is rewritten comes to the same. */
    lemma CreditAfterWrite(before: Db, i: nat, row: Transaction, ref: Reference)
      requires i < |before.transactions|
      requires row.tenant == before.transactions[i].tenant && row.amount == before.transactions[i].amount
      ensures WalletRules.ProcessCollection(Q.SetTransaction(before, i, row), row.tenant, row.amount, ref)
              == match WalletRules.ProcessCollection(before, row.tenant, row.amount, ref)
                 case Ok(credited) => Ok(Q.SetTransaction(credited, i, row))
                 case Raised(e) => Raised(e)
    {
    }
  }

  // --------------------------------------------------------- activation

  class CaptivePortalActivationService {
    const db: Database
    const subscriptions: SubscriptionService

    constructor (db: Database)
      ensures this.db == db && Bound()
    {
      this.db := db;
      subscriptions := new SubscriptionService(db);
    }

    predicate Bound() {
      subscriptions.db == db
    }

    method Activate(now: Time, i: nat, meets: Q.Attempted) returns (r: Result<ActivationStatus>)
      requires Bound()
      modifies db
      ensures Agrees(r, Q.Activate(old(db.State()), now, i, meets), db.State())
      ensures r.Ok? ==> r.value == Active
    {
      if i >= |db.transactions| {
        return Raised(NotFound);
      }
      var tx := db.transactions[i];
      if !tx.status.Completed? {
        return Raised(DomainValidation);
      }
      if tx.activation == Some(Active) {
        return Ok(Active);
      }
      if tx.subscription.None? || tx.customer.None? {
        return Raised(DomainValidation);
      }
      var j := tx.subscription.value;
      if j >= |db.subscriptions| {
        return Raised(NotFound);
      }
      if !meets.customerFound || meets.package.PackageGone? {
        return Raised(MissingRow);
      }
      db.transactions := db.transactions[i := tx.(activation := Some(Activating))];
      if db.subscriptions[j].status.SubPending? {
        var _ :- subscriptions.Activate(now, tx.tenant, j, meets.package);
      }
      if !meets.provisioned {
        return Raised(ProvisioningFailed);
      }
      db.transactions := db.transactions[i := db.transactions[i].(activation := Some(Active),
                                                                  activatedAt := Some(now))];
      assert db.transactions == old(db.transactions)[i := tx.(activation := Some(Active), activatedAt := Some(now))];
      return Ok(Active);
    }

    method RecordFailure(i: nat) returns (r: Result<ActivationStatus>)
      requires Bound()
      modifies db
      ensures Agrees(r, Q.MarkFailed(old(db.State()), i), db.State())
      ensures r.Ok? ==> r.value == ActivationFailed
    {
      if i >= |db.transactions| {
        return Raised(NotFound);
      }
      db.transactions := db.transactions[i := db.transactions[i].(activation := Some(ActivationFailed))];
      return Ok(ActivationFailed);
    }

    /** Up to `limit` payments that are paid but not active, and all of them if they fit. */
    method ListRetryable(limit: nat) returns (ids: seq<nat>)
      ensures |ids| <= limit
      ensures forall k :: 0 <= k < |ids| ==> ids[k] < |db.transactions| && Q.Retryable(db.transactions[ids[k]])
      ensures forall k, l :: 0 <= k < l < |ids| ==> ids[k] != ids[l]
      ensures |ids| < limit ==> forall i :: 0 <= i < |db.transactions| && Q.Retryable(db.transactions[i]) ==> i in ids
    {
      ids := [];
      var i := 0;
      while i < |db.transactions| && |ids| < limit
        invariant 0 <= i <= |db.transactions| && |ids| <= limit
        invariant forall k :: 0 <= k < |ids| ==> ids[k] < i && Q.Retryable(db.transactions[ids[k]])
        invariant forall k, l :: 0 <= k < l < |ids| ==> ids[k] < ids[l]
        invariant forall k :: 0 <= k < i && Q.Retryable(db.transactions[k]) ==> k in ids
      {
        if Q.Retryable(db.transactions[i]) {
          ids := ids + [i];
        }
        i := i + 1;
      }
    }

    /** Two transactions: the attempt, and on a provisioning failure its rollback
        followed by the failure marker. Any other error rolls back and is raised. */
    method RunActivation(now: Time, i: nat, meets: Q.Attempted) returns (r: Result<ActivationStatus>)
      requires Bound()
      modifies db
      ensures Agrees(r, Q.RunActivation(old(db.State()), now, i, meets), db.State())
      ensures r.Raised? ==> db.State() == old(db.State())
      ensures r == Ok(Active) <==> Q.Activate(old(db.State()), now, i, meets).Ok?
    {
      var before := db.State();
      r := Activate(now, i, meets);
      if r.Raised? {
        db.Rollback(before);
        if r.error.ProvisioningFailed? {
          r := RecordFailure(i);
        }
      }
    }

    /** The retry sweep: each listed payment in its own transactions, whatever becomes of
        the others. */
    method RetryPendingActivations(limit: nat, meets: nat -> PaymentTheorems.Item)
      returns (activated: nat, stillFailing: nat, ids: seq<nat>, items: seq<PaymentTheorems.Item>)
      requires Bound()
      requires forall i :: meets(i).tx == i
      modifies db
      ensures |items| == |ids| <= limit && forall k :: 0 <= k < |ids| ==> items[k] == meets(ids[k])
      ensures forall k :: 0 <= k < |ids| ==>
              ids[k] < |old(db.transactions)| && Q.Retryable(old(db.transactions)[ids[k]])
      ensures |ids| < limit ==>
                forall i :: 0 <= i < |old(db.transactions)| && Q.Retryable(old(db.transactions)[i]) ==> i in ids
      ensures db.State() == PaymentTheorems.Sweep(old(db.State()), items)
      ensures activated == PaymentTheorems.Activations(old(db.State()), items) && activated + stillFailing == |ids|
    {
      ids := ListRetryable(limit);
      activated, stillFailing, items := 0, 0, [];
      for k := 0 to |ids|
        invariant |items| == k == activated + stillFailing
        invariant forall n :: 0 <= n < k ==> items[n] == meets(ids[n])
        invariant activated == PaymentTheorems.Activations(old(db.State()), items)
        invariant db.State() == PaymentTheorems.Sweep(old(db.State()), items)
      {
        var item := meets(ids[k]);
        PaymentTheorems.SweepExtends(old(db.State()), items, item);
        items := items + [item];
        var result := RunActivation(item.now, item.tx, item.meets);
        if result == Ok(Active) {
          activated := activated + 1;
        } else {
          stillFailing := stillFailing + 1;
        }
      }
    }
  }
}
