/** Whole-run guarantees of customer payments and of the access they buy. */
module PaymentTheorems {
  import opened Basics
  import opened Records
  import opened WalletRules
  import opened PaymentRules
  import opened Books
  import opened Sales
  import opened Invariants
  import opened Platform
  import opened PaymentEffects
  import Money

  function After(db: Db, call: Call): Db {
    StepDb(db, call).Or(db)
  }

  /** The transaction an operation names. */
  function PaymentTarget(op: Op): Option<nat> {
    match op
    case Payment(ReconcileVia(_, i, _)) => Some(i)
    case Payment(FinalizeCaptive(i)) => Some(i)
    case Payment(AttemptActivation(i, _)) => Some(i)
    case Payment(RecordFailure(i)) => Some(i)
    case _ => None
  }

  lemma PayoutsLeavePayments(db: Db, call: Call)
    requires !call.op.Payment?
    ensures After(db, call).transactions == db.transactions && After(db, call).subscriptions == db.subscriptions
  {
  }

  // ------------------------------------------------ the first verdict wins

  /** What a committed step learned about a payment. */
  datatype Evidence = Said(data: OrderStatus) | FinalizedDirectly

  function EvidenceOf(db: Db, call: Call, i: nat): Option<Evidence> {
    match call.op
    case Payment(ReconcileVia(_, k, Some(data))) => if k == i && StepDb(db, call).Ok? then Some(Said(data)) else None
    case Payment(FinalizeCaptive(k)) => if k == i && StepDb(db, call).Ok? then Some(FinalizedDirectly) else None
    case _ => None
  }

  function Gathered(earlier: seq<Evidence>, e: Option<Evidence>): seq<Evidence> {
    if e.Some? then earlier + [e.value] else earlier
  }

  function EvidenceFor(w: World, calls: seq<Call>, i: nat): seq<Evidence> {
    if |calls| == 0 then [] else
    var n := |calls| - 1;
    Gathered(EvidenceFor(w, calls[..n], i), EvidenceOf(Run(w, calls[..n]).db, calls[n], i))
  }

  /** Evidence that settles a payment: a fully matching COMPLETED, or an explicitly
      mapped terminal status. */
  function Decisive(tx: Transaction, e: Evidence): Option<CollectionStatus> {
    match e
    case FinalizedDirectly => Some(Completed)
    case Said(data) =>
      match data.paymentStatus
      case "COMPLETED" => if OfThisOrder(tx, data) then Some(Completed) else None
      case "CANCELLED" => Some(PaymentCancelled)
      case "USERCANCELLED" => Some(UserCancelled)
      case "USERCANCELED" => Some(UserCancelled)
      case "REJECTED" => Some(PaymentRejected)
      case "DECLINED" => Some(Declined)
      case "FAILED" => Some(PaymentFailed)
      case "EXPIRED" => Some(Expired)
      case _ => None
  }

  function FirstDecisive(tx: Transaction, es: seq<Evidence>): Option<CollectionStatus> {
    if |es| == 0 then None else
    var earlier := FirstDecisive(tx, es[..|es| - 1]);
    if earlier.Some? then earlier else Decisive(tx, es[|es| - 1])
  }

  predicate Verdict(tx: Transaction, es: seq<Evidence>, tx': Transaction) {
    match FirstDecisive(tx, es)
    case Some(s) => tx'.status == s
    case None => !Terminal(tx'.status)
  }

  /** Only reconciling or finalizing a payment changes its status. */
  lemma StatusElsewhere(db: Db, call: Call, i: nat)
    requires i < |db.transactions|
    requires PaymentTarget(call.op) == Some(i) ==> call.op.payment.AttemptActivation? || call.op.payment.RecordFailure?
    ensures i < |After(db, call).transactions| && After(db, call).transactions[i].status == db.transactions[i].status
  {
    if !call.op.Payment? {
      PayoutsLeavePayments(db, call);
    }
  }

  lemma OrderStatusStep(db: Db, cfg: Settings, now: Time, flow: TransactionType, i: nat, data: OrderStatus)
    requires Inv(db) && i < |db.transactions| && !Terminal(db.transactions[i].status)
    requires ApplyOrderStatus(db, cfg, now, flow, i, data).Ok?
    ensures var tx, txs' := db.transactions[i], ApplyOrderStatus(db, cfg, now, flow, i, data).value.transactions;
            && |txs'| == |db.transactions|
            && (if Decisive(tx, Said(data)).Some? then txs'[i].status == Decisive(tx, Said(data)).value
                else !Terminal(txs'[i].status))
  {
    StillOpenIff(db.transactions[i].status);
    assert WalletOf(db, db.transactions[i].tenant).NonNegative();
    if data.paymentStatus == "COMPLETED" {
      CompletedReplyStatus(db, cfg, now, flow, i, data);
    } else {
      OtherReplyStatus(db, cfg, now, flow, i, data);
    }
  }

  /** The status a reply leads to, without what else it changes. */
  lemma CompletedReplyStatus(db: Db, cfg: Settings, now: Time, flow: TransactionType, i: nat, data: OrderStatus)
    requires i < |db.transactions| && StillOpen(db.transactions[i].status) && TermsOk(db.terms)
    requires WalletOf(db, db.transactions[i].tenant).NonNegative()
    requires ApplyOrderStatus(db, cfg, now, flow, i, data).Ok? && data.paymentStatus == "COMPLETED"
    ensures var tx, txs' := db.transactions[i], ApplyOrderStatus(db, cfg, now, flow, i, data).value.transactions;
            && |txs'| == |db.transactions|
            && txs'[i].status == if OfThisOrder(tx, data) then Completed else Unclear
  {
    CompletedReplyEffect(db, cfg, now, flow, i, data);
  }

  lemma OtherReplyStatus(db: Db, cfg: Settings, now: Time, flow: TransactionType, i: nat, data: OrderStatus)
    requires i < |db.transactions| && StillOpen(db.transactions[i].status) && TermsOk(db.terms)
    requires ApplyOrderStatus(db, cfg, now, flow, i, data).Ok? && data.paymentStatus != "COMPLETED"
    ensures var tx, txs' := db.transactions[i], ApplyOrderStatus(db, cfg, now, flow, i, data).value.transactions;
            && |txs'| == |db.transactions|
            && (if Decisive(tx, Said(data)).Some? then txs'[i].status == Decisive(tx, Said(data)).value
                else !Terminal(txs'[i].status))
  {
    OtherReplyEffect(db, cfg, now, flow, i, data);
  }

  /** While a payment is open, decisive evidence settles it and nothing else does. */
  lemma OpenStep(db: Db, call: Call, i: nat)
    requires Inv(db) && i < |db.transactions| && !Terminal(db.transactions[i].status)
    ensures i < |After(db, call).transactions|
    ensures var tx, tx', e := db.transactions[i], After(db, call).transactions[i], EvidenceOf(db, call, i);
            if e.Some? && Decisive(tx, e.value).Some? then tx'.status == Decisive(tx, e.value).value
            else !Terminal(tx'.status) && (e.None? ==> tx'.status == tx.status)
  {
    match call.op
    case Payment(ReconcileVia(asked, k, answer)) =>
      if k != i {
        StatusElsewhere(db, call, i);
      } else if answer.Some? && StepDb(db, call).Ok? {
        OrderStatusStep(db, call.cfg, call.now, ProviderFor(asked, db.transactions[i]).value, i, answer.value);
      }
    case Payment(FinalizeCaptive(k)) =>
      if k != i {
        StatusElsewhere(db, call, i);
      }
    case _ => StatusElsewhere(db, call, i);
  }

  lemma OpenNext(w: World, call: Call, i: nat)
    requires WorldInv(w) && i < |w.db.transactions| && !Terminal(w.db.transactions[i].status)
    ensures i < |Next(w, call).db.transactions|
    ensures var tx, tx', e := w.db.transactions[i], Next(w, call).db.transactions[i], EvidenceOf(w.db, call, i);
            if e.Some? && Decisive(tx, e.value).Some? then tx'.status == Decisive(tx, e.value).value
            else !Terminal(tx'.status) && (e.None? ==> tx'.status == tx.status)
  {
    OpenStep(w.db, call, i);
    if MarksFailure(call.op) {
      assert i == call.op.payment.tx ==> i !in w.unmarked;
    }
  }

  lemma {:induction false} VerdictStep(tx: Transaction, es: seq<Evidence>, now: Transaction, e: Option<Evidence>,
                                       now': Transaction)
    requires Verdict(tx, es, now) && TxLater(tx, now) && TxLater(now, now')
    requires !Terminal(now.status) ==>
               if e.Some? && Decisive(now, e.value).Some? then now'.status == Decisive(now, e.value).value
               else !Terminal(now'.status)
    requires FirstDecisive(tx, es).Some? ==> Terminal(FirstDecisive(tx, es).value)
    ensures Verdict(tx, Gathered(es, e), now')
    ensures FirstDecisive(tx, Gathered(es, e)).Some? ==> Terminal(FirstDecisive(tx, Gathered(es, e)).value)
  {
    if e.Some? {
      assert Gathered(es, e)[..|es|] == es;
      assert Decisive(now, e.value) == Decisive(tx, e.value);
    }
  }

  /** Over any run, an open payment ends as its first decisive evidence says, and stays
      open without any: AMBIGUOUS and REQUIRES_REVIEW never block a later verdict. */
  lemma {:induction false} FirstDecisiveEvidenceWins(w: World, calls: seq<Call>, i: nat)
    requires WorldInv(w) && i < |w.db.transactions| && !Terminal(w.db.transactions[i].status)
    ensures i < |Run(w, calls).db.transactions|
    ensures Verdict(w.db.transactions[i], EvidenceFor(w, calls, i), Run(w, calls).db.transactions[i])
    ensures var s := FirstDecisive(w.db.transactions[i], EvidenceFor(w, calls, i)); s.Some? ==> Terminal(s.value)
  {
    if |calls| > 0 {
      var n := |calls| - 1;
      FirstDecisiveEvidenceWins(w, calls[..n], i);
      PaymentMovesOn(w, calls, i);
      var before := Run(w, calls[..n]);
      var now, now' := before.db.transactions[i], Next(before, calls[n]).db.transactions[i];
      if !Terminal(now.status) {
        OpenNext(before, calls[n], i);
      }
      VerdictStep(w.db.transactions[i], EvidenceFor(w, calls[..n], i), now, EvidenceOf(before.db, calls[n], i), now');
    }
  }

  /** Crediting a positive amount at a configured rate never raises. */
  lemma CreditPosts(db: Db, i: nat)
    requires Inv(db) && i < |db.transactions| && db.transactions[i].amount > 0
    requires ActiveRate(db.terms, db.transactions[i].tenant).Some?
    ensures ProcessCollection(db, db.transactions[i].tenant, db.transactions[i].amount, SelcomPaymentRef(i)).Ok?
  {
    var tx := db.transactions[i];
    ActiveRateFinds(db.terms, tx.tenant);
    Money.FeeSplit(tx.amount, ActiveRate(db.terms, tx.tenant).value);
    assert WalletOf(db, tx.tenant).NonNegative();
  }

  /** A reply is applied unless it should credit and cannot: the one raising case is a
      matching COMPLETED on an open payment whose tenant has no rate, or of no amount. */
  lemma ReplyRaisesIff(db: Db, call: Call, i: nat, data: OrderStatus)
    requires Inv(db) && i < |db.transactions|
    requires call.op.Payment? && call.op.payment.ReconcileVia?
    requires call.op.payment.tx == i && call.op.payment.answer == Some(data)
    ensures var tx := db.transactions[i];
            StepDb(db, call).Raised? <==>
              StillOpen(tx.status) && data.paymentStatus == "COMPLETED" && OfThisOrder(tx, data)
              && (tx.amount <= 0 || ActiveRate(db.terms, tx.tenant).None?)
  {
    var tx := db.transactions[i];
    assert TxOk(db, i);
    assert WalletOf(db, tx.tenant).NonNegative();
    ReconcileApplies(db, call.cfg, call.now, call.op.payment.asked, i, data);
    if !StillOpen(tx.status) {
      EndedHearsNothing(db, call.cfg, call.now, tx.flow.value, i, data);
    } else if data.paymentStatus == "COMPLETED" {
      CompletedReplyEffect(db, call.cfg, call.now, tx.flow.value, i, data);
    } else {
      OtherReplyEffect(db, call.cfg, call.now, tx.flow.value, i, data);
    }
  }

  /** A committed reply completes an open payment if and only if it says COMPLETED of the
      right amount, for the right order and in the right currency, or without naming them;
      a COMPLETED of anything else leaves it AMBIGUOUS, with every wallet and the ledger as
      they were. */
  lemma CompletedIff(db: Db, call: Call, i: nat, data: OrderStatus)
    requires Inv(db) && i < |db.transactions| && StillOpen(db.transactions[i].status)
    requires call.op.Payment? && call.op.payment.ReconcileVia?
    requires call.op.payment.tx == i && call.op.payment.answer == Some(data) && StepDb(db, call).Ok?
    ensures var db', tx := StepDb(db, call).value, db.transactions[i];
            && i < |db'.transactions|
            && (db'.transactions[i].status == Completed <==>
                  && data.paymentStatus == "COMPLETED"
                  && data.amount == Some(Cents(tx.amount))
                  && (data.orderId == None || data.orderId == Some("") || data.orderId == Some(tx.reference))
                  && (data.currency == None || data.currency == Some("") || data.currency == Some(tx.currency)))
            && (data.paymentStatus == "COMPLETED" && db'.transactions[i].status != Completed ==>
                  db' == db.(transactions := db.transactions[i := tx.(status := Unclear)]))
  {
    var tx := db.transactions[i];
    assert TxOk(db, i);
    assert WalletOf(db, tx.tenant).NonNegative();
    ReconcileApplies(db, call.cfg, call.now, call.op.payment.asked, i, data);
    if data.paymentStatus == "COMPLETED" {
      CompletedReplyEffect(db, call.cfg, call.now, tx.flow.value, i, data);
    } else {
      OtherReplyEffect(db, call.cfg, call.now, tx.flow.value, i, data);
    }
  }

  /** What a call says of a payment, whether or not it commits. */
  function SaidOf(db: Db, call: Call, i: nat): Option<Evidence> {
    match call.op
    case Payment(ReconcileVia(_, k, Some(data))) => if k == i then Some(Said(data)) else None
    case _ => EvidenceOf(db, call, i)
  }

  function SaidFor(w: World, calls: seq<Call>, i: nat): seq<Evidence> {
    if |calls| == 0 then [] else
    var n := |calls| - 1;
    Gathered(SaidFor(w, calls[..n], i), SaidOf(Run(w, calls[..n]).db, calls[n], i))
  }

  /** Once its tenant has a rate, every reply about a payment of a positive amount counts:
      the first decisive reply of a run is the verdict, and none is lost to a rollback. */
  lemma {:induction false} EveryReplyCounts(w: World, calls: seq<Call>, i: nat)
    requires WorldInv(w) && i < |w.db.transactions| && !Terminal(w.db.transactions[i].status)
    requires w.db.transactions[i].amount > 0 && ActiveRate(w.db.terms, w.db.transactions[i].tenant).Some?
    ensures i < |Run(w, calls).db.transactions|
    ensures SaidFor(w, calls, i) == EvidenceFor(w, calls, i)
    ensures Verdict(w.db.transactions[i], SaidFor(w, calls, i), Run(w, calls).db.transactions[i])
  {
    FirstDecisiveEvidenceWins(w, calls, i);
    if |calls| > 0 {
      var n := |calls| - 1;
      EveryReplyCounts(w, calls[..n], i);
      RunKeeps(w, calls[..n]);
      NoReplyLost(Run(w, calls[..n]).db, calls[n], w.db.transactions[i], i);
    }
  }

  lemma NoReplyLost(db: Db, call: Call, tx: Transaction, i: nat)
    requires Inv(db) && i < |db.transactions| && TxLater(tx, db.transactions[i])
    requires tx.amount > 0 && ActiveRate(db.terms, tx.tenant).Some?
    ensures SaidOf(db, call, i) == EvidenceOf(db, call, i)
  {
    match call.op
    case Payment(ReconcileVia(_, k, Some(data))) =>
      if k == i {
        ReplyRaisesIff(db, call, i, data);
      }
    case _ =>
  }

  /** Once a payment is stale and the clock does not go back, no reply leaves it
      PENDING or INPROGRESS: it either never hears anything, or has left them. */
  lemma {:induction false} StaleNeverReturns(w: World, calls: seq<Call>, i: nat, minutes: int)
    requires WorldInv(w) && i < |w.db.transactions| && !Terminal(w.db.transactions[i].status)
    requires minutes > 0 && w.db.transactions[i].stkRequestedAt.Some?
    requires forall k :: 0 <= k < |calls| ==>
               calls[k].cfg.reviewMinutes == minutes
               && calls[k].now >= w.db.transactions[i].stkRequestedAt.value + minutes * 60_000_000
    ensures i < |Run(w, calls).db.transactions|
    ensures var s, s' := w.db.transactions[i].status, Run(w, calls).db.transactions[i].status;
            if EvidenceFor(w, calls, i) == [] then s' == s else !s'.Waiting? && !s'.InProgress?
  {
    if |calls| > 0 {
      var n := |calls| - 1;
      StaleNeverReturns(w, calls[..n], i, minutes);
      PaymentMovesOn(w, calls, i);
      assert calls[n].cfg.reviewMinutes == minutes;
      StaleNext(Run(w, calls[..n]), calls[n], i);
    }
  }

  /** A payment across the last step of a run. */
  lemma {:induction false} PaymentMovesOn(w: World, calls: seq<Call>, i: nat)
    requires WorldInv(w) && |calls| > 0 && i < |w.db.transactions|
    ensures i < |Run(w, calls[..|calls| - 1]).db.transactions| && i < |Run(w, calls).db.transactions|
    ensures WorldInv(Run(w, calls[..|calls| - 1]))
    ensures TxLater(w.db.transactions[i], Run(w, calls[..|calls| - 1]).db.transactions[i])
    ensures TxLater(Run(w, calls[..|calls| - 1]).db.transactions[i], Run(w, calls).db.transactions[i])
  {
    RunKeeps(w, calls[..|calls| - 1]);
    NextKeeps(Run(w, calls[..|calls| - 1]), calls[|calls| - 1]);
  }

  lemma StaleNext(w: World, call: Call, i: nat)
    requires WorldInv(w) && i < |w.db.transactions| && IsStale(w.db.transactions[i], call.cfg, call.now)
    ensures i < |Next(w, call).db.transactions|
    ensures var s, s' := w.db.transactions[i].status, Next(w, call).db.transactions[i].status;
            && (EvidenceOf(w.db, call, i).None? || Terminal(s) ==> s' == s)
            && (EvidenceOf(w.db, call, i).Some? ==> !s'.Waiting? && !s'.InProgress?)
  {
    if Terminal(w.db.transactions[i].status) {
      NextKeeps(w, call);
      assert TxLater(w.db.transactions[i], Next(w, call).db.transactions[i]);
    } else {
      OpenNext(w, call, i);
      if EvidenceOf(w.db, call, i).Some? {
        StaleStep(w.db, call, i);
      }
    }
  }

  lemma StaleStep(db: Db, call: Call, i: nat)
    requires i < |db.transactions| && !Terminal(db.transactions[i].status)
    requires IsStale(db.transactions[i], call.cfg, call.now)
    requires EvidenceOf(db, call, i).Some?
    ensures i < |After(db, call).transactions|
    ensures !After(db, call).transactions[i].status.Waiting? && !After(db, call).transactions[i].status.InProgress?
  {
  }

  // --------------------------------------------------- exactly-once credit

  /** For every payment in every reachable state: exactly one COLLECTION, one
      PLATFORM_FEE and one TENANT_SHARE entry if it is COMPLETED, splitting its amount
      at one of its tenant's rates, and no such entry otherwise. */
  lemma {:induction false} CreditedExactlyOnce(calls: seq<Call>, i: nat)
    ensures var db := Run(START, calls).db;
            && (i < |db.transactions| && db.transactions[i].status.Completed? ==>
                  Credited(db.terms, db.transactions[i], SalesOf(db, i)))
            && (i >= |db.transactions| || !db.transactions[i].status.Completed? ==> SalesOf(db, i) == [])
  {
    Reachable(calls);
    var db := Run(START, calls).db;
    if i < |db.transactions| {
      assert TxOk(db, i);
    } else {
      forall k | 0 <= k < |db.ledger|
        ensures !IsSaleOf(i)(db.ledger[k])
      {
        assert SaleKnown(db, db.ledger[k]);
      }
      FilterNone(IsSaleOf(i), db.ledger);
    }
  }

  function RefsOf(i: nat): set<Reference> {
    {SelcomPaymentRef(i), TransactionRef(i)}
  }

  /** The credit of one payment: its three entries at the rate in force when it was
      completed, the share in its tenant's pending bucket, and nobody else's wallet. */
  predicate CreditsAtRateInForce(db: Db, db': Db, i: nat)
    requires i < |db.transactions|
  {
    var tx := db.transactions[i];
    var t, rate := tx.tenant, ActiveRate(db.terms, tx.tenant);
    && rate.Some?
    && var fee := Money.PlatformFee(tx.amount, rate.value);
       var pending := WalletOf(db, t).pending + tx.amount - fee;
       && db'.wallets == db.wallets[t := WalletOf(db, t).(pending := pending)]
       && exists ref :: ref in RefsOf(i)
            && db'.ledger
               == db.ledger
                  + [LedgerEntry(t, Collection, Credit, None, tx.amount, None, ref),
                     LedgerEntry(t, PlatformFee, Debit, None, fee, None, ref),
                     LedgerEntry(t, TenantShare, Credit, Some(Pending), tx.amount - fee, Some(pending), ref)]
  }

  lemma FinalizeCredits(db: Db, flow: TransactionType, i: nat, ref: Reference)
    requires i < |db.transactions| && ref in RefsOf(i)
    requires Finalize(db, flow, i, ref).Ok?
    ensures CreditsAtRateInForce(db, Finalize(db, flow, i, ref).value, i)
  {
    var tx := db.transactions[i];
    var share := tx.amount - Money.PlatformFee(tx.amount, ActiveRate(db.terms, tx.tenant).value);
    var w := WalletOf(db, tx.tenant);
    assert w.Plus(Buckets(0, share, 0, 0, 0)) == w.(pending := w.pending + share);
  }

  /** Whatever step completes a payment credits it, at the rate in force at that moment. */
  lemma CompletionCredits(db: Db, call: Call, i: nat)
    requires i < |db.transactions| && i < |After(db, call).transactions|
    requires !db.transactions[i].status.Completed? && After(db, call).transactions[i].status.Completed?
    ensures CreditsAtRateInForce(db, After(db, call), i)
  {
    match call.op
    case Payment(ReconcileVia(asked, k, Some(data))) =>
      if k == i && StepDb(db, call).Ok? {
        var flow := ProviderFor(asked, db.transactions[i]).value;
        if SaysPaid(data) && Matches(db.transactions[i], data) {
          FinalizeCredits(db, flow, i, SelcomPaymentRef(i));
        } else {
          assert false;
        }
      } else {
        StatusElsewhere(db, call, i);
        assert false;
      }
    case Payment(FinalizeCaptive(k)) =>
      if k == i && StepDb(db, call).Ok? {
        FinalizeCredits(db, CaptivePortalFlow, i, TransactionRef(i));
      } else {
        StatusElsewhere(db, call, i);
        assert false;
      }
    case _ =>
      StatusElsewhere(db, call, i);
      assert false;
  }

  /** The last acceptable rate a run sets for a tenant. */
  function LastRateSet(calls: seq<Call>, t: TenantId): Option<int> {
    if |calls| == 0 then None else
    match calls[|calls| - 1].op
    case Payment(SetRate(u, rate)) =>
      if u == t && 0 <= rate <= Money.FULL_RATE then Some(rate) else LastRateSet(calls[..|calls| - 1], t)
    case _ => LastRateSet(calls[..|calls| - 1], t)
  }

  lemma TermsElsewhere(db: Db, call: Call)
    requires !(call.op.Payment? && call.op.payment.SetRate?)
    ensures After(db, call).terms == db.terms
  {
  }

  lemma RateStep(w: World, call: Call, t: TenantId)
    requires TermsOk(w.db.terms)
    ensures ActiveRate(Next(w, call).db.terms, t)
            == match call.op
               case Payment(SetRate(u, rate)) =>
                 if u == t && 0 <= rate <= Money.FULL_RATE then Some(rate) else ActiveRate(w.db.terms, t)
               case _ => ActiveRate(w.db.terms, t)
  {
    NextIsStep(w, call);
    match call.op
    case Payment(SetRate(u, rate)) =>
      if SetCommissionRate(w.db, u, rate).Ok? {
        SetCommissionRateEffect(w.db, u, rate);
      }
    case _ => if !MarksFailure(call.op) {
      TermsElsewhere(w.db, call);
    }
  }

  /** Over every run, the one rate in force for a tenant is the last acceptable one set. */
  lemma {:induction false} RateInForceIsLastSet(calls: seq<Call>, t: TenantId)
    ensures ActiveRate(Run(START, calls).db.terms, t) == LastRateSet(calls, t)
    ensures forall i, j :: 0 <= i < j < |Run(START, calls).db.terms| ==>
              var terms := Run(START, calls).db.terms;
              terms[i].active && terms[j].active ==> terms[i].tenant != terms[j].tenant
  {
    Reachable(calls);
    if |calls| > 0 {
      RateInForceIsLastSet(calls[..|calls| - 1], t);
      Reachable(calls[..|calls| - 1]);
      RateStep(Run(START, calls[..|calls| - 1]), calls[|calls| - 1], t);
    }
  }

  /** No recorded rate is ever rewritten: a run only adds rows to the terms' history. */
  lemma {:induction false} RatesAreHistory(w: World, calls: seq<Call>)
    requires WorldInv(w)
    ensures TermsLater(w.db.terms, Run(w, calls).db.terms)
  {
    RunKeeps(w, calls);
  }

  /** A session is spent exactly when a payment was opened with it, and it never opens
      a second one, over every run: finished or not, two payments never share a session. */
  lemma OnePaymentPerSession(calls: seq<Call>, i: nat, session: nat)
    requires i < |Run(START, calls).db.transactions|
    ensures var db := Run(START, calls).db;
            var txs := db.transactions;
            && (session in db.spent <==> exists k :: 0 <= k < |txs| && OpenedWith(txs[k], session))
            && (forall j :: 0 <= j < |txs| && j != i && txs[i].attempt.Some? && txs[j].attempt.Some? ==>
                  txs[i].attempt.value.session != txs[j].attempt.value.session)
  {
    Reachable(calls);
    var db := Run(START, calls).db;
    var txs := db.transactions;
    assert SpentOk(db, session);
    forall j | 0 <= j < |txs| && j != i && txs[i].attempt.Some? && txs[j].attempt.Some?
      ensures txs[i].attempt.value.session != txs[j].attempt.value.session
    {
      if i < j {
        assert AttemptsApart(txs[i], txs[j]);
      } else {
        assert AttemptsApart(txs[j], txs[i]);
      }
    }
  }

  /** Because opening a payment spends its session, a session that resolves has no open
      attempt: a repeated request is refused as expired, and the branch that would hand
      back the original attempt is never reached by calls that run one after another. */
  lemma DuplicateIsNeverReached(calls: seq<Call>, session: nat, package: nat, phone: string)
    requires session !in Run(START, calls).db.spent
    ensures !AttemptLive(Run(START, calls).db, Attempt(session, package, phone))
  {
    Reachable(calls);
    var db := Run(START, calls).db;
    assert SpentOk(db, session);
    forall k | 0 <= k < |db.transactions|
      ensures !LiveAttempt(db.transactions[k], Attempt(session, package, phone))
    {
      assert OpenedWith(db.transactions[k], session) ==> session in db.spent;
    }
  }

  /** So a request, with the gates open, on a session that has opened a payment always
      raises, over every run and whatever became of the payment. */
  lemma {:induction false} RepeatedRequestRaises(calls: seq<Call>, call: Call, i: nat)
    requires i < |Run(START, calls).db.transactions| && Run(START, calls).db.transactions[i].attempt.Some?
    requires call.op.Payment? && call.op.payment.InitiateCaptive?
    requires call.cfg.collectionEnabled && call.cfg.collectionProduction
    requires call.op.payment.session.Some?
    requires call.op.payment.session.value.id == Run(START, calls).db.transactions[i].attempt.value.session
    ensures StepDb(Run(START, calls).db, call) == Raised(DomainValidation)
  {
    Reachable(calls);
    var db, session := Run(START, calls).db, call.op.payment.session.value.id;
    assert SpentOk(db, session);
    assert OpenedWith(db.transactions[i], session);
  }

  /** The call that opens payment i. */
  function OpenedBy(db: Db, call: Call, i: nat): Option<Call> {
    if call.op.Payment? && (call.op.payment.InitiateCollection? || call.op.payment.InitiateCaptive?)
       && i == |db.transactions| < |After(db, call).transactions|
    then Some(call) else None
  }

  function OpeningCall(w: World, calls: seq<Call>, i: nat): Option<Call> {
    if |calls| == 0 then None else
    var n := |calls| - 1;
    var earlier := OpeningCall(w, calls[..n], i);
    if earlier.Some? then earlier else OpenedBy(Run(w, calls[..n]).db, calls[n], i)
  }

  /** A payment is what its opening call asked for: for a package its price, and for a
      collection the amount named. */
  predicate AskedFor(tx: Transaction, call: Call) {
    match call.op
    case Payment(InitiateCaptive(Some(session), Some(package), Some(phone), _, buyer, reference, _)) =>
      && tx.amount == package.price && tx.currency == "TZS" && tx.tenant == session.tenant
      && tx.customer == Some(buyer) && tx.attempt == Some(Attempt(session.id, package.id, phone))
      && tx.reference == reference && tx.flow == Some(CaptivePortalFlow)
    case Payment(InitiateCollection(tenant, amount, currency, _, customer, _, reference, _)) =>
      && tx.amount == amount && tx.currency == "TZS" && tx.tenant == tenant && tx.customer == customer
      && tx.reference == reference && tx.flow == Some(CollectionFlow)
    case _ => false
  }

  lemma NewPaymentIsAskedFor(db: Db, call: Call)
    requires |db.transactions| < |After(db, call).transactions|
    ensures OpenedBy(db, call, |db.transactions|) == Some(call)
    ensures AskedFor(After(db, call).transactions[|db.transactions|], call)
    ensures |After(db, call).transactions| == |db.transactions| + 1
  {
    if !call.op.Payment? {
      PayoutsLeavePayments(db, call);
    } else if call.op.payment.ReconcileVia? {
      var op := call.op.payment;
      OrderStatusKeepsCount(db, call.cfg, call.now, ProviderFor(op.asked, db.transactions[op.tx]).value, op.tx,
                            op.answer.value);
    }
  }

  lemma OrderStatusKeepsCount(db: Db, cfg: Settings, now: Time, flow: TransactionType, i: nat, data: OrderStatus)
    requires i < |db.transactions| && ApplyOrderStatus(db, cfg, now, flow, i, data).Ok?
    ensures |ApplyOrderStatus(db, cfg, now, flow, i, data).value.transactions| == |db.transactions|
  {
  }

  lemma {:induction false} OpenedAsAsked(calls: seq<Call>, i: nat)
    ensures var txs, opening := Run(START, calls).db.transactions, OpeningCall(START, calls, i);
            && (i < |txs| ==> opening.Some? && AskedFor(txs[i], opening.value))
            && (i >= |txs| ==> opening.None?)
  {
    if |calls| > 0 {
      var n := |calls| - 1;
      OpenedAsAsked(calls[..n], i);
      Reachable(calls[..n]);
      AskedForNext(Run(START, calls[..n]), calls[n], i, OpeningCall(START, calls[..n], i));
    }
  }

  lemma AskedForNext(w: World, call: Call, i: nat, opening: Option<Call>)
    requires WorldInv(w)
    requires i < |w.db.transactions| ==> opening.Some? && AskedFor(w.db.transactions[i], opening.value)
    requires i >= |w.db.transactions| ==> opening.None?
    ensures var txs', opening' := Next(w, call).db.transactions,
                                  if opening.Some? then opening else OpenedBy(w.db, call, i);
            && (i < |txs'| ==> opening'.Some? && AskedFor(txs'[i], opening'.value))
            && (i >= |txs'| ==> opening'.None?)
  {
    NextKeeps(w, call);
    NextIsStep(w, call);
    if i < |w.db.transactions| {
      assert TxLater(w.db.transactions[i], Next(w, call).db.transactions[i]);
    } else if |w.db.transactions| < |Next(w, call).db.transactions| {
      NewPaymentIsAskedFor(w.db, call);
    }
  }

  /** Over every run, what a tenant is credited for a completed payment is the price of the
      package its opening call named, or the amount of the collection: the COLLECTION entry
      is exactly that, and is the tenant's that the call named. */
  lemma {:induction false} CreditedAsAsked(calls: seq<Call>, i: nat)
    requires i < |Run(START, calls).db.transactions| && Run(START, calls).db.transactions[i].status.Completed?
    ensures var db, opening := Run(START, calls).db, OpeningCall(START, calls, i);
            && opening.Some? && |SalesOf(db, i)| == 3 && SalesOf(db, i)[0].entryType.Collection?
            && CreditedFor(SalesOf(db, i)[0], opening.value)
  {
    OpenedAsAsked(calls, i);
    CreditedExactlyOnce(calls, i);
  }

  predicate CreditedFor(e: LedgerEntry, call: Call) {
    match call.op
    case Payment(InitiateCaptive(Some(session), Some(package), Some(_), _, _, _, _)) =>
      e.amount == package.price && e.tenant == session.tenant
    case Payment(InitiateCollection(tenant, amount, _, _, _, _, _, _)) => e.amount == amount && e.tenant == tenant
    case _ => false
  }

  /** Reconciling a finished payment again, through either service, changes nothing. */
  lemma DuplicateChangesNothing(db: Db, cfg: Settings, now: Time, asked: TransactionType, i: nat,
                                answer: Option<OrderStatus>)
    requires Inv(db) && i < |db.transactions| && Terminal(db.transactions[i].status)
    ensures ReconcilePayment(db, cfg, now, asked, i, answer) == Ok(db)
    ensures db.transactions[i].status.Completed? ==> FinalizePayment(db, i) == Ok(db)
    ensures !db.transactions[i].status.Completed? ==> FinalizePayment(db, i).Raised?
  {
    assert TxOk(db, i);
  }

  // -------------------------------------------------- dispatch independence

  lemma DispatchIndependent(db: Db, cfg: Settings, now: Time, i: nat, asked: TransactionType, other: TransactionType,
                            answer: Option<OrderStatus>)
    ensures ReconcilePayment(db, cfg, now, asked, i, answer) == ReconcilePayment(db, cfg, now, other, i, answer)
    ensures i < |db.transactions| ==>
              (ReconcilePayment(db, cfg, now, asked, i, answer) == Raised(FlowMismatch)
               <==> db.transactions[i].flow.None?)
  {
  }

  /** In every reachable state the service that is asked to reconcile never matters, the
      mismatch error is unreachable because every row has a flow, and the reconciliation
      sweep finds exactly the open payments. */
  lemma {:induction false} EveryOpenPaymentIsSwept(calls: seq<Call>, i: nat, cfg: Settings, now: Time,
                                                   asked: TransactionType, other: TransactionType,
                                                   answer: Option<OrderStatus>)
    requires i < |Run(START, calls).db.transactions|
    ensures var db := Run(START, calls).db;
            && ReconcilePayment(db, cfg, now, asked, i, answer) == ReconcilePayment(db, cfg, now, other, i, answer)
            && ReconcilePayment(db, cfg, now, asked, i, answer) != Raised(FlowMismatch)
            && (Reconcilable(db.transactions[i], SelcomCollection) <==> !Terminal(db.transactions[i].status))
  {
    var db := Run(START, calls).db;
    Reachable(calls);
    assert TxOk(db, i);
    DispatchIndependent(db, cfg, now, i, asked, other, answer);
  }

  // ------------------------------------------------------- portal answers

  /** Once the portal has said "failed", it says so for ever, and no wallet is ever
      credited for that attempt. */
  lemma {:induction false} FailedIsFinal(w: World, calls: seq<Call>, i: nat, found: bool)
    requires WorldInv(w) && PortalStatus(w.db, i, found).PortalFailed?
    ensures PortalStatus(Run(w, calls).db, i, found).PortalFailed?
    ensures SalesOf(Run(w, calls).db, i) == []
  {
    RunKeeps(w, calls);
    var db' := Run(w, calls).db;
    assert TxLater(w.db.transactions[i], db'.transactions[i]);
    assert TxOk(db', i);
  }

  /** "Failed" is said only when it is true: any other attempt has been credited or can
      still be, by the very next matching reply, if its tenant has a rate. */
  lemma NotFailedCanSettle(db: Db, cfg: Settings, now: Time, i: nat, found: bool)
    requires Inv(db) && i < |db.transactions| && !PortalStatus(db, i, found).PortalFailed?
    requires db.transactions[i].amount > 0 && ActiveRate(db.terms, db.transactions[i].tenant).Some?
    ensures var paid := OrderStatus("COMPLETED", None, Some(Cents(db.transactions[i].amount)), None);
            var r := ReconcilePayment(db, cfg, now, CollectionFlow, i, Some(paid));
            r.Ok? && r.value.transactions[i].status.Completed? && |SalesOf(r.value, i)| == 3
  {
    var tx := db.transactions[i];
    assert TxOk(db, i);
    if !Terminal(tx.status) {
      CreditPosts(db, i);
      var flow := tx.flow.value;
      FinalizeKeepsPayments(db, flow, i, SelcomPaymentRef(i));
      assert TxOk(Finalize(db, flow, i, SelcomPaymentRef(i)).value, i);
    }
  }

  /** What the portal may show of a payment. */
  ghost predicate Honest(db: Db, i: nat, found: bool)
    requires i < |db.transactions|
  {
    var tx, view := db.transactions[i], PortalStatus(db, i, found);
    && (view.PortalPending? && view.underReview ==> Reconcilable(tx, SelcomCollection))
    && (view.PortalFailed? ==> Terminal(tx.status) && SalesOf(db, i) == [])
    && (view.PortalCompleted? <==> |SalesOf(db, i)| == 3)
    && (view.PortalCompleted? ==>
          && !view.access.Working?
          && (view.access.SetupFailed? ==> Retryable(tx))
          && (view.credentials.Some? ==>
                && view.access.Online? && tx.subscription == view.credentials
                && view.credentials.value < |db.subscriptions|
                && db.subscriptions[view.credentials.value].status.SubActive?)
          && (found && tx.flow == Some(CaptivePortalFlow) && view.access.Online? ==> view.credentials.Some?))
  }

  /** A payment under review is never shown as failed; "completed" is shown exactly when
      the tenant was credited; access is never shown as "activating", and shown as failed
      only while a retry is still owed; credentials are shown exactly for a paid, activated
      attempt, whose subscription is then live. */
  lemma {:induction false} PortalIsHonest(calls: seq<Call>, i: nat, found: bool)
    requires i < |Run(START, calls).db.transactions|
    ensures Honest(Run(START, calls).db, i, found)
  {
    Reachable(calls);
    RowShownHonestly(Run(START, calls).db, i, found);
  }

  lemma RowShownHonestly(db: Db, i: nat, found: bool)
    requires PaymentsOk(db) && i < |db.transactions|
    ensures Honest(db, i, found)
  {
    assert TxOk(db, i);
  }

  // ----------------------------------------------------------- activation

  predicate IsActivation(op: Op) {
    op.Payment? && (op.payment.AttemptActivation? || op.payment.RecordFailure? || op.payment.ActivateByStaff?)
  }

  /** No activation step touches money: wallets, ledger, logs, withdrawals, and every
      payment column but the activation ones, are as they were. */
  lemma ActivationTouchesNoMoney(w: World, call: Call)
    requires IsActivation(call.op)
    ensures MoneyUntouched(w.db, Next(w, call).db)
  {
    NextIsStep(w, call);
    match call.op.payment
    case AttemptActivation(i, meets) =>
      if Activate(w.db, call.now, i, meets).Ok? {
        AttemptTouchesNoMoney(w.db, call.now, i, meets);
      }
    case RecordFailure(_) =>
    case ActivateByStaff(_, _, _) =>
  }

  predicate MoneyUntouched(db: Db, db': Db) {
    && db' == db.(transactions := db'.transactions, subscriptions := db'.subscriptions)
    && |db'.transactions| == |db.transactions|
    && forall i :: 0 <= i < |db.transactions| ==>
         db'.transactions[i].(activation := db.transactions[i].activation,
                              activatedAt := db.transactions[i].activatedAt)
         == db.transactions[i]
  }

  lemma AttemptTouchesNoMoney(db: Db, now: Time, i: nat, meets: Attempted)
    requires Activate(db, now, i, meets).Ok?
    ensures MoneyUntouched(db, Activate(db, now, i, meets).value)
  {
  }

  /** A captive payment is COMPLETED exactly when access is pending, failed or granted;
      ACTIVATING is never committed; and paid but not yet active means retryable. */
  lemma {:induction false} PaidMeansAccessOwed(calls: seq<Call>, i: nat)
    requires i < |Run(START, calls).db.transactions|
    requires Run(START, calls).db.transactions[i].flow == Some(CaptivePortalFlow)
    ensures var tx := Run(START, calls).db.transactions[i];
            && (tx.status.Completed? <==>
                  || tx.activation == Some(ToActivate)
                  || tx.activation == Some(ActivationFailed)
                  || tx.activation == Some(Active))
            && tx.activation != Some(Activating)
            && (tx.status.Completed? && tx.activation != Some(Active) <==> Retryable(tx))
  {
    Reachable(calls);
    assert TxOk(Run(START, calls).db, i);
  }

  predicate IsActive(db: Db, i: nat) {
    i < |db.transactions| && db.transactions[i].activation == Some(Active)
  }

  lemma ActiveStep(w: World, call: Call, i: nat)
    requires WorldInv(w) && IsActive(w.db, i) && i !in w.unmarked
    ensures IsActive(Next(w, call).db, i) && i !in Next(w, call).unmarked
  {
    NextIsStep(w, call);
    if !MarksFailure(call.op) {
      ActiveStepDb(w.db, call, i);
    }
  }

  lemma ActiveStepDb(db: Db, call: Call, i: nat)
    requires Inv(db) && IsActive(db, i) && !MarksFailure(call.op)
    ensures IsActive(After(db, call), i)
    ensures PaymentTarget(call.op) == Some(i) ==> StepDb(db, call) != Raised(ProvisioningFailed)
  {
    assert TxOk(db, i);
    match call.op
    case Payment(op) =>
      if PaymentTarget(call.op) != Some(i) {
        ActivationElsewhere(db, call, i);
      }
    case _ => PayoutsLeavePayments(db, call);
  }

  lemma ActivationElsewhere(db: Db, call: Call, i: nat)
    requires i < |db.transactions| && call.op.Payment? && PaymentTarget(call.op) != Some(i)
    ensures i < |After(db, call).transactions| && After(db, call).transactions[i] == db.transactions[i]
  {
    match call.op.payment
    case ReconcileVia(asked, k, Some(data)) =>
      if StepDb(db, call).Ok? {
        OrderStatusElsewhere(db, call.cfg, call.now, ProviderFor(asked, db.transactions[k]).value, k, data, i);
      }
    case _ =>
  }

  lemma OrderStatusElsewhere(db: Db, cfg: Settings, now: Time, flow: TransactionType, k: nat, data: OrderStatus, i: nat)
    requires k < |db.transactions| && i < |db.transactions| && i != k
    requires ApplyOrderStatus(db, cfg, now, flow, k, data).Ok?
    ensures i < |ApplyOrderStatus(db, cfg, now, flow, k, data).value.transactions|
    ensures ApplyOrderStatus(db, cfg, now, flow, k, data).value.transactions[i] == db.transactions[i]
  {
  }

  lemma {:induction false} ActiveLasts(w: World, calls: seq<Call>, i: nat)
    requires WorldInv(w) && IsActive(w.db, i) && i !in w.unmarked
    ensures IsActive(Run(w, calls).db, i) && i !in Run(w, calls).unmarked
  {
    if |calls| > 0 {
      var n := |calls| - 1;
      ActiveLasts(w, calls[..n], i);
      RunKeeps(w, calls[..n]);
      ActiveStep(Run(w, calls[..n]), calls[n], i);
    }
  }

  function Marking(cfg: Settings, i: nat): Call {
    Call(cfg, 0, Payment(RecordFailure(i)))
  }

  /** "Retrying can only ever grant access" holds of an ACTIVE payment, over every run, if
      and only if no failed attempt at it still has its failure marker to write. */
  lemma ActiveLastsIff(w: World, i: nat, cfg: Settings)
    requires WorldInv(w) && IsActive(w.db, i)
    ensures (forall calls: seq<Call> :: IsActive(Run(w, calls).db, i)) <==> i !in w.unmarked
  {
    if i !in w.unmarked {
      forall calls: seq<Call>
        ensures IsActive(Run(w, calls).db, i)
      {
        ActiveLasts(w, calls, i);
      }
    } else {
      var calls := [Marking(cfg, i)];
      assert calls[..0] == [];
      assert !IsActive(Run(w, calls).db, i);
    }
  }

  function Trying(cfg: Settings, now: Time, i: nat, meets: Attempted): Call {
    Call(cfg, now, Payment(AttemptActivation(i, meets)))
  }

  /** It can fail for any payment waiting for access: an attempt that fails, one that
      works, and only then the marker of the first. The customer is paid up and online,
      and the payment says FAILED. */
  lemma ActiveCanBeUndone(w: World, cfg: Settings, now: Time, i: nat, minutes: Option<nat>)
    requires WorldInv(w) && i < |w.db.transactions| && Retryable(w.db.transactions[i])
    ensures var online := Run(w, [Trying(cfg, now, i, Attempted(true, OwnPackage(minutes), false)),
                                  Trying(cfg, now, i, Attempted(true, OwnPackage(minutes), true))]);
            && WorldInv(online) && IsActive(online.db, i) && i in online.unmarked
            && Retryable(Next(online, Marking(cfg, i)).db.transactions[i])
  {
    var fails := Trying(cfg, now, i, Attempted(true, OwnPackage(minutes), false));
    var works := Trying(cfg, now, i, Attempted(true, OwnPackage(minutes), true));
    RunTwo(w, fails, works);
    RunKeeps(w, [fails, works]);
    AttemptFails(w, fails, i);
    NextKeeps(w, fails);
    AttemptWorks(Next(w, fails), works, i);
    MarkerUndoes(Next(Next(w, fails), works), cfg, i);
  }

  lemma MarkerUndoes(w: World, cfg: Settings, i: nat)
    requires i < |w.db.transactions| && w.db.transactions[i].status.Completed? && i in w.unmarked
    ensures i < |Next(w, Marking(cfg, i)).db.transactions|
    ensures Retryable(Next(w, Marking(cfg, i)).db.transactions[i])
  {
    assert Next(w, Marking(cfg, i)).db == MarkFailed(w.db, i).value;
  }

  lemma AttemptFails(w: World, call: Call, i: nat)
    requires WorldInv(w) && i < |w.db.transactions| && Retryable(w.db.transactions[i])
    requires call.op.Payment? && call.op.payment.AttemptActivation? && call.op.payment.tx == i
    requires call.op.payment.meets.customerFound && call.op.payment.meets.package.OwnPackage?
    requires !call.op.payment.meets.provisioned
    ensures Next(w, call) == World(w.db, w.unmarked + multiset{i})
  {
    assert TxOk(w.db, i);
  }

  lemma AttemptWorks(w: World, call: Call, i: nat)
    requires WorldInv(w) && i < |w.db.transactions| && Retryable(w.db.transactions[i])
    requires call.op.Payment? && call.op.payment.AttemptActivation? && call.op.payment.tx == i
    requires Works(call.op.payment.meets)
    ensures IsActive(Next(w, call).db, i) && Next(w, call).unmarked == w.unmarked
    ensures Next(w, call).db.transactions[i].status == w.db.transactions[i].status
  {
    AttemptActivates(w.db, call.now, i, call.op.payment.meets);
  }

  lemma AttemptActivates(db: Db, now: Time, i: nat, meets: Attempted)
    requires PaymentsOk(db) && i < |db.transactions| && Retryable(db.transactions[i]) && Works(meets)
    ensures var r := Activate(db, now, i, meets);
            && r.Ok? && IsActive(r.value, i)
            && r.value.transactions[i].status == db.transactions[i].status
  {
    assert TxOk(db, i);
  }

  /** One row of a retry sweep, with what its attempt meets. */
  datatype Item = Item(tx: nat, now: Time, meets: Attempted)

  predicate Works(meets: Attempted) {
    meets.customerFound && meets.package.OwnPackage? && meets.provisioned
  }

  function Sweep(db: Db, items: seq<Item>): Db {
    if |items| == 0 then db else
    var before, item := Sweep(db, items[..|items| - 1]), items[|items| - 1];
    RunActivation(before, item.now, item.tx, item.meets).Or(before)
  }

  /** How many of a sweep's attempts succeed, each in the state the earlier ones left. */
  function Activations(db: Db, items: seq<Item>): nat {
    if |items| == 0 then 0 else
    var before, item := Sweep(db, items[..|items| - 1]), items[|items| - 1];
    Activations(db, items[..|items| - 1])
    + if Activate(before, item.now, item.tx, item.meets).Ok? then 1 else 0
  }

  lemma {:induction false} SweepExtends(db: Db, items: seq<Item>, item: Item)
    ensures var before := Sweep(db, items);
            && Sweep(db, items + [item]) == RunActivation(before, item.now, item.tx, item.meets).Or(before)
            && Activations(db, items + [item])
               == Activations(db, items) + if Activate(before, item.now, item.tx, item.meets).Ok? then 1 else 0
  {
    assert (items + [item])[..|items + [item]| - 1] == items;
  }

  /** Nothing but activation changed, and nothing ACTIVE stopped being so. */
  predicate OnlyActivated(db: Db, db': Db) {
    && db' == db.(transactions := db'.transactions, subscriptions := db'.subscriptions)
    && |db'.transactions| == |db.transactions|
    && forall i :: 0 <= i < |db.transactions| ==> OnlyActivatedRow(db.transactions[i], db'.transactions[i])
  }

  predicate OnlyActivatedRow(tx: Transaction, tx': Transaction) {
    && tx'.(activation := tx.activation, activatedAt := tx.activatedAt) == tx
    && (tx.activation == Some(Active) ==> tx' == tx)
  }

  lemma RunActivationEffect(db: Db, item: Item)
    requires Inv(db) && item.tx < |db.transactions| && db.transactions[item.tx].status.Completed?
    requires db.transactions[item.tx].flow == Some(CaptivePortalFlow)
    ensures var r := RunActivation(db, item.now, item.tx, item.meets);
            && r.Ok? ==> Inv(r.value) && OnlyActivated(db, r.value)
                         && (Works(item.meets) ==> r.value.transactions[item.tx].activation == Some(Active))
    ensures Works(item.meets) ==> Activate(db, item.now, item.tx, item.meets).Ok?
  {
    assert TxOk(db, item.tx);
    ActivateKeeps(db, item.now, item.tx, item.meets);
    MarkFailedKeeps(db, item.tx);
  }

  /** A sweep over retryable payments makes each one whose provisioning works ACTIVE, and
      changes nothing of any payment but its activation. */
  lemma {:induction false} SweepActivates(db: Db, items: seq<Item>)
    requires Inv(db)
    requires forall k :: 0 <= k < |items| ==> items[k].tx < |db.transactions| && Retryable(db.transactions[items[k].tx])
    ensures Inv(Sweep(db, items)) && OnlyActivated(db, Sweep(db, items))
    ensures forall k :: 0 <= k < |items| && Works(items[k].meets) ==>
              Sweep(db, items).transactions[items[k].tx].activation == Some(Active)
    ensures (forall k :: 0 <= k < |items| ==> Works(items[k].meets)) ==> Activations(db, items) == |items|
  {
    if |items| > 0 {
      var n := |items| - 1;
      forall k | 0 <= k < n
        ensures items[..n][k] == items[k]
      {
      }
      SweepActivates(db, items[..n]);
      SweepLast(db, items);
      SweepStep(db, Sweep(db, items[..n]), items);
    }
  }

  lemma {:induction false} SweepLast(db: Db, items: seq<Item>)
    requires Inv(db) && |items| > 0
    requires var item, before := items[|items| - 1], Sweep(db, items[..|items| - 1]);
             && item.tx < |db.transactions| && Retryable(db.transactions[item.tx])
             && Inv(before) && OnlyActivated(db, before)
    ensures Inv(Sweep(db, items)) && OnlyActivated(Sweep(db, items[..|items| - 1]), Sweep(db, items))
    ensures var item := items[|items| - 1];
            Works(item.meets) ==>
              && Sweep(db, items).transactions[item.tx].activation == Some(Active)
              && Activations(db, items) == Activations(db, items[..|items| - 1]) + 1
  {
    var item, before := items[|items| - 1], Sweep(db, items[..|items| - 1]);
    assert TxOk(db, item.tx);
    assert OnlyActivatedRow(db.transactions[item.tx], before.transactions[item.tx]);
    RunActivationEffect(before, item);
  }

  lemma {:induction false} SweepStep(db: Db, before: Db, items: seq<Item>)
    requires |items| > 0 && before == Sweep(db, items[..|items| - 1])
    requires OnlyActivated(db, before) && OnlyActivated(before, Sweep(db, items))
    requires forall k :: 0 <= k < |items| ==> items[k].tx < |db.transactions|
    requires forall k :: 0 <= k < |items| - 1 && Works(items[k].meets) ==>
               before.transactions[items[k].tx].activation == Some(Active)
    ensures OnlyActivated(db, Sweep(db, items))
    ensures forall k :: 0 <= k < |items| - 1 && Works(items[k].meets) ==>
              Sweep(db, items).transactions[items[k].tx].activation == Some(Active)
  {
    var db' := Sweep(db, items);
    forall i | 0 <= i < |db.transactions|
      ensures OnlyActivatedRow(db.transactions[i], db'.transactions[i])
    {
      assert OnlyActivatedRow(db.transactions[i], before.transactions[i]);
      assert OnlyActivatedRow(before.transactions[i], db'.transactions[i]);
    }
    forall k | 0 <= k < |items| - 1 && Works(items[k].meets)
      ensures db'.transactions[items[k].tx].activation == Some(Active)
    {
      assert OnlyActivatedRow(before.transactions[items[k].tx], db'.transactions[items[k].tx]);
    }
  }

  // -------------------------------------------------------- paid time

  /** A committed step that takes a pending subscription to ACTIVE. */
  predicate ActivatesNow(db: Db, call: Call, j: nat)
    requires j < |db.subscriptions|
  {
    && db.subscriptions[j].status.SubPending? && StepDb(db, call).Ok?
    && match call.op
       case Payment(AttemptActivation(i, _)) =>
         db.transactions[i].subscription == Some(j) && db.transactions[i].activation != Some(Active)
       case Payment(ActivateByStaff(_, k, _)) => k == j
       case _ => false
  }

  function DurationOf(call: Call): Option<nat> {
    match call.op
    case Payment(AttemptActivation(_, Attempted(_, OwnPackage(minutes), _))) => minutes
    case Payment(ActivateByStaff(_, _, OwnPackage(minutes))) => minutes
    case _ => None
  }

  lemma SubscriptionStep(w: World, call: Call, j: nat)
    requires WorldInv(w) && j < |w.db.subscriptions|
    ensures j < |Next(w, call).db.subscriptions|
    ensures Next(w, call).db.subscriptions[j]
            == if ActivatesNow(w.db, call, j) then ActivatedRow(w.db.subscriptions[j], call.now, DurationOf(call))
               else w.db.subscriptions[j]
  {
    NextIsStep(w, call);
    if !MarksFailure(call.op) {
      SubscriptionStepDb(w.db, call, j);
    }
  }

  lemma SubscriptionStepDb(db: Db, call: Call, j: nat)
    requires j < |db.subscriptions| && !MarksFailure(call.op)
    ensures j < |After(db, call).subscriptions|
    ensures After(db, call).subscriptions[j]
            == if ActivatesNow(db, call, j) then ActivatedRow(db.subscriptions[j], call.now, DurationOf(call))
               else db.subscriptions[j]
  {
    match call.op
    case Payment(AttemptActivation(i, meets)) =>
      if StepDb(db, call).Ok? {
        AttemptStep(db, call.now, i, meets, j);
      }
    case Payment(op) => OtherPaymentStep(db, call, j);
    case _ => PayoutsLeavePayments(db, call);
  }

  lemma AttemptStep(db: Db, now: Time, i: nat, meets: Attempted, j: nat)
    requires j < |db.subscriptions| && Activate(db, now, i, meets).Ok?
    ensures var db' := Activate(db, now, i, meets).value;
            && |db'.subscriptions| == |db.subscriptions|
            && db'.subscriptions[j]
               == if db.subscriptions[j].status.SubPending? && db.transactions[i].subscription == Some(j)
                     && db.transactions[i].activation != Some(Active)
                  then ActivatedRow(db.subscriptions[j], now, meets.package.minutes) else db.subscriptions[j]
  {
  }

  lemma OtherPaymentStep(db: Db, call: Call, j: nat)
    requires j < |db.subscriptions| && call.op.Payment?
    requires !call.op.payment.AttemptActivation? && !call.op.payment.RecordFailure?
    ensures j < |After(db, call).subscriptions|
    ensures After(db, call).subscriptions[j]
            == if ActivatesNow(db, call, j) then ActivatedRow(db.subscriptions[j], call.now, DurationOf(call))
               else db.subscriptions[j]
  {
  }

  /** The call of a run, if any, that first activates a subscription. */
  function FirstActivation(w: World, calls: seq<Call>, j: nat): Option<Call>
    requires j < |w.db.subscriptions|
  {
    if |calls| == 0 then None else
    var n := |calls| - 1;
    var earlier := FirstActivation(w, calls[..n], j);
    var db := Run(w, calls[..n]).db;
    if earlier.Some? then earlier
    else if j < |db.subscriptions| && ActivatesNow(db, calls[n], j) then Some(calls[n])
    else None
  }

  /** Untouched until the first activation, and from then on dated by its clock reading. */
  predicate PaidTime(sub: Subscription, sub': Subscription, first: Option<Call>) {
    match first
    case None => sub' == sub
    case Some(call) =>
      && sub'.status.SubActive? && sub'.activatedAt == Some(call.now)
      && sub'.expiresAt == (match DurationOf(call)
                            case Some(d) => if d == 0 then None else Some(call.now + d * 60_000_000)
                            case None => None)
  }

  /** However attempts fail, retry and interleave, a pending subscription's dates are set
      once, by the first attempt that succeeds, from its own clock reading; nothing
      before it uses up paid time and nothing after it extends it. */
  lemma {:induction false} PaidTimeSetOnce(w: World, calls: seq<Call>, j: nat)
    requires WorldInv(w) && j < |w.db.subscriptions| && w.db.subscriptions[j].status.SubPending?
    ensures j < |Run(w, calls).db.subscriptions|
    ensures PaidTime(w.db.subscriptions[j], Run(w, calls).db.subscriptions[j], FirstActivation(w, calls, j))
  {
    if |calls| > 0 {
      var n := |calls| - 1;
      PaidTimeSetOnce(w, calls[..n], j);
      RunKeeps(w, calls[..n]);
      SubscriptionStep(Run(w, calls[..n]), calls[n], j);
      PaidTimeStep(w.db.subscriptions[j], Run(w, calls[..n]), calls[n], j, FirstActivation(w, calls[..n], j));
    }
  }

  lemma PaidTimeStep(sub: Subscription, w: World, call: Call, j: nat, first: Option<Call>)
    requires j < |w.db.subscriptions| && j < |Next(w, call).db.subscriptions|
    requires sub.status.SubPending? && PaidTime(sub, w.db.subscriptions[j], first)
    requires Next(w, call).db.subscriptions[j]
             == if ActivatesNow(w.db, call, j) then ActivatedRow(w.db.subscriptions[j], call.now, DurationOf(call))
                else w.db.subscriptions[j]
    ensures PaidTime(sub, Next(w, call).db.subscriptions[j],
                     if first.Some? then first else if ActivatesNow(w.db, call, j) then Some(call) else None)
  {
  }
}
