/** What every payment row, its ledger entries and the access it bought satisfy. */
module Sales {
  import opened Basics
  import opened Records
  import opened WalletRules
  import opened PaymentRules
  import Money

  // --------------------------------------------------- a payment's entries

  predicate IsSale(e: LedgerEntry) {
    e.entryType.Collection? || e.entryType.PlatformFee? || e.entryType.TenantShare?
  }

  function IsSaleOf(i: nat): LedgerEntry -> bool {
    (e: LedgerEntry) => IsSale(e) && (e.reference == SelcomPaymentRef(i) || e.reference == TransactionRef(i))
  }

  function SalesOf(db: Db, i: nat): seq<LedgerEntry> {
    Filter(IsSaleOf(i), db.ledger)
  }

  predicate RateSeen(terms: seq<Terms>, t: TenantId, gross: int, fee: int) {
    exists k :: 0 <= k < |terms| && terms[k].tenant == t && fee == Money.PlatformFee(gross, terms[k].rate)
  }

  /** One COLLECTION, one PLATFORM_FEE and one TENANT_SHARE entry, for this tenant,
      splitting exactly this amount at one of the tenant's rates. */
  predicate Credited(terms: seq<Terms>, tx: Transaction, es: seq<LedgerEntry>) {
    && tx.amount > 0 && |es| == 3
    && es[0].entryType.Collection? && es[1].entryType.PlatformFee? && es[2].entryType.TenantShare?
    && es[0].tenant == es[1].tenant == es[2].tenant == tx.tenant
    && es[0].direction.Credit? && es[1].direction.Debit?
    && es[0].bucket.None? && es[1].bucket.None? && es[2].bucket == Some(Pending) && es[2].direction.Credit?
    && es[0].amount == tx.amount && es[1].amount + es[2].amount == tx.amount
    && 0 <= es[1].amount && 0 <= es[2].amount
    && RateSeen(terms, tx.tenant, tx.amount, es[1].amount)
  }

  // ------------------------------------------------------------ row states

  /** COMPLETED exactly when access is owed, failed or granted; ACTIVATING never rests. */
  predicate AccessOk(db: Db, tx: Transaction) {
    match tx.flow
    case Some(CaptivePortalFlow) =>
      && tx.customer.Some? && tx.subscription.Some? && tx.subscription.value < |db.subscriptions|
      && db.subscriptions[tx.subscription.value].tenant == tx.tenant
      && (tx.status.Completed? <==> tx.activation.Some?)
      && (tx.activation.Some? ==>
            tx.activation.value.ToActivate? || tx.activation.value.ActivationFailed? || tx.activation.value.Active?)
      && (tx.activation == Some(Active) ==> db.subscriptions[tx.subscription.value].status.SubActive?)
    case Some(CollectionFlow) => tx.subscription.None? && tx.activation.None? && tx.attempt.None?
    case None => false
  }

  predicate TxOk(db: Db, i: nat)
    requires i < |db.transactions|
  {
    var tx := db.transactions[i];
    && tx.provider == Some(SelcomCollection)
    && AccessOk(db, tx)
    && (if tx.status.Completed? then Credited(db.terms, tx, SalesOf(db, i)) else SalesOf(db, i) == [])
  }

  predicate SubOk(sub: Subscription) {
    if sub.status.SubPending? then sub.activatedAt.None? && sub.expiresAt.None? else sub.activatedAt.Some?
  }

  predicate SaleKnown(db: Db, e: LedgerEntry) {
    IsSale(e) ==> (e.reference.SelcomPaymentRef? || e.reference.TransactionRef?) && e.reference.id < |db.transactions|
  }

  /** No two payments opened with the same session. */
  predicate AttemptsApart(tx: Transaction, tx': Transaction) {
    tx.attempt.Some? && tx'.attempt.Some? ==> tx.attempt.value.session != tx'.attempt.value.session
  }

  predicate OpenedWith(tx: Transaction, session: nat) {
    tx.attempt.Some? && tx.attempt.value.session == session
  }

  /** A session is spent exactly when it opened a payment. */
  predicate SpentOk(db: Db, session: nat) {
    session in db.spent <==> exists i :: 0 <= i < |db.transactions| && OpenedWith(db.transactions[i], session)
  }

  ghost predicate PaymentsOk(db: Db) {
    && (forall i :: 0 <= i < |db.transactions| ==> TxOk(db, i))
    && (forall i, j :: 0 <= i < j < |db.transactions| ==> AttemptsApart(db.transactions[i], db.transactions[j]))
    && (forall j :: 0 <= j < |db.subscriptions| ==> SubOk(db.subscriptions[j]))
    && (forall k :: 0 <= k < |db.ledger| ==> SaleKnown(db, db.ledger[k]))
    && (forall session :: SpentOk(db, session))
    && TermsOk(db.terms)
  }

  // --------------------------------------------------------- over time

  predicate TxLater(tx: Transaction, tx': Transaction) {
    && tx'.(status := tx.status, activation := tx.activation, activatedAt := tx.activatedAt) == tx
    && (Terminal(tx.status) ==> tx'.status == tx.status)
  }

  predicate SubLater(sub: Subscription, sub': Subscription) {
    && sub'.tenant == sub.tenant && sub'.customer == sub.customer && sub'.package == sub.package
    && (sub.status.SubActive? ==> sub' == sub)
  }

  predicate TermsLater(terms: seq<Terms>, terms': seq<Terms>) {
    && |terms| <= |terms'|
    && forall k :: 0 <= k < |terms| ==> terms'[k].tenant == terms[k].tenant && terms'[k].rate == terms[k].rate
  }

  ghost predicate PaymentsLater(db: Db, db': Db) {
    && |db.transactions| <= |db'.transactions|
    && (forall i :: 0 <= i < |db.transactions| ==> TxLater(db.transactions[i], db'.transactions[i]))
    && |db.subscriptions| <= |db'.subscriptions|
    && (forall j :: 0 <= j < |db.subscriptions| ==> SubLater(db.subscriptions[j], db'.subscriptions[j]))
    && TermsLater(db.terms, db'.terms)
    && db.spent <= db'.spent
    && (forall t :: ActiveRate(db.terms, t).Some? ==> ActiveRate(db'.terms, t).Some?)
  }

  lemma PaymentsLaterTransitive(a: Db, b: Db, c: Db)
    requires PaymentsLater(a, b) && PaymentsLater(b, c)
    ensures PaymentsLater(a, c)
  {
    forall i | 0 <= i < |a.transactions|
      ensures TxLater(a.transactions[i], c.transactions[i])
    {
      assert TxLater(a.transactions[i], b.transactions[i]) && TxLater(b.transactions[i], c.transactions[i]);
    }
    forall j | 0 <= j < |a.subscriptions|
      ensures SubLater(a.subscriptions[j], c.subscriptions[j])
    {
      assert SubLater(a.subscriptions[j], b.subscriptions[j]) && SubLater(b.subscriptions[j], c.subscriptions[j]);
    }
  }

  // ------------------------------------------------------------ the writes

  /** Rows keep the attempt they were opened with, so the spent sessions stay right. */
  lemma {:induction false} SpentKept(db: Db, db': Db)
    requires forall session :: SpentOk(db, session)
    requires db'.spent == db.spent && |db'.transactions| == |db.transactions|
    requires forall i :: 0 <= i < |db.transactions| ==> db'.transactions[i].attempt == db.transactions[i].attempt
    ensures forall session :: SpentOk(db', session)
  {
    forall session
      ensures SpentOk(db', session)
    {
      assert SpentOk(db, session);
      assert forall i :: 0 <= i < |db.transactions| ==>
                         OpenedWith(db'.transactions[i], session) == OpenedWith(db.transactions[i], session);
    }
  }

  lemma {:induction false} SalesGrow(db: Db, db': Db, entries: seq<LedgerEntry>, i: nat)
    requires db'.ledger == db.ledger + entries
    ensures SalesOf(db', i) == SalesOf(db, i) + Filter(IsSaleOf(i), entries)
  {
    FilterConcat(IsSaleOf(i), db.ledger, entries);
  }

  /** Ledger entries that are not sales concern no payment. */
  lemma {:induction false} OtherEntriesKeepPayments(db: Db, db': Db, entries: seq<LedgerEntry>)
    requires PaymentsOk(db)
    requires db'.ledger == db.ledger + entries
    requires db'.transactions == db.transactions && db'.subscriptions == db.subscriptions && db'.terms == db.terms
    requires db'.spent == db.spent
    requires forall k :: 0 <= k < |entries| ==> !IsSale(entries[k])
    ensures PaymentsOk(db') && PaymentsLater(db, db')
  {
    SpentKept(db, db');
    forall i | 0 <= i < |db'.transactions|
      ensures TxOk(db', i)
    {
      assert TxOk(db, i);
      SalesGrow(db, db', entries, i);
      FilterNone(IsSaleOf(i), entries);
      assert SalesOf(db', i) == SalesOf(db, i);
    }
  }

  /** Only commercial terms change, and only by growing. */
  lemma TermsGrowthKeepsPayments(db: Db, t: TenantId, rate: int)
    requires PaymentsOk(db) && SetCommissionRate(db, t, rate).Ok?
    ensures var db' := SetCommissionRate(db, t, rate).value; PaymentsOk(db') && PaymentsLater(db, db')
  {
    var db' := SetCommissionRate(db, t, rate).value;
    SpentKept(db, db');
    SetCommissionRateEffect(db, t, rate);
    forall i | 0 <= i < |db'.transactions|
      ensures TxOk(db', i)
    {
      assert TxOk(db, i);
      assert SalesOf(db', i) == SalesOf(db, i);
      if db.transactions[i].status.Completed? {
        RateStillSeen(db.terms, db'.terms, db.transactions[i].tenant, db.transactions[i].amount,
                      SalesOf(db, i)[1].amount);
      }
    }
    forall u | ActiveRate(db.terms, u).Some?
      ensures ActiveRate(db'.terms, u).Some?
    {
      assert u != t ==> ActiveRate(db'.terms, u) == ActiveRate(db.terms, u);
    }
  }

  lemma {:induction false} RateStillSeen(terms: seq<Terms>, terms': seq<Terms>, t: TenantId, gross: int, fee: int)
    requires TermsLater(terms, terms') && RateSeen(terms, t, gross, fee)
    ensures RateSeen(terms', t, gross, fee)
  {
    var k :| 0 <= k < |terms| && terms[k].tenant == t && fee == Money.PlatformFee(gross, terms[k].rate);
    assert terms'[k].tenant == t && fee == Money.PlatformFee(gross, terms'[k].rate);
  }

  /** One row moves on without money. */
  lemma RowKeepsPayments(db: Db, i: nat, tx: Transaction)
    requires PaymentsOk(db) && i < |db.transactions|
    requires TxLater(db.transactions[i], tx) && AccessOk(db, tx)
    requires tx.status.Completed? <==> db.transactions[i].status.Completed?
    ensures PaymentsOk(SetTransaction(db, i, tx)) && PaymentsLater(db, SetTransaction(db, i, tx))
  {
    var db' := SetTransaction(db, i, tx);
    SpentKept(db, db');
    forall k | 0 <= k < |db'.transactions|
      ensures TxOk(db', k)
    {
      assert TxOk(db, k);
      assert SalesOf(db', k) == SalesOf(db, k);
    }
    forall k, l | 0 <= k < l < |db'.transactions|
      ensures AttemptsApart(db'.transactions[k], db'.transactions[l])
    {
      assert AttemptsApart(db.transactions[k], db.transactions[l]);
    }
    forall k | 0 <= k < |db'.ledger|
      ensures SaleKnown(db', db'.ledger[k])
    {
      assert SaleKnown(db, db.ledger[k]);
    }
  }

  /** What crediting writes is what a credited payment has. */
  lemma {:induction false} CreditingEntries(terms: seq<Terms>, tx: Transaction, balance: int, ref: Reference)
    requires TermsOk(terms) && tx.amount > 0 && ActiveRate(terms, tx.tenant).Some?
    ensures var fee := Money.PlatformFee(tx.amount, ActiveRate(terms, tx.tenant).value);
            Credited(terms, tx, CollectionEntries(tx.tenant, tx.amount, fee, balance, ref))
  {
    var rate := ActiveRate(terms, tx.tenant).value;
    ActiveRateFinds(terms, tx.tenant);
    Money.FeeSplit(tx.amount, rate);
    assert RateSeen(terms, tx.tenant, tx.amount, Money.PlatformFee(tx.amount, rate));
  }

  lemma {:induction false} CreditedRow(db: Db, db': Db, i: nat, k: nat, entries: seq<LedgerEntry>, tx: Transaction)
    requires PaymentsOk(db) && i < |db.transactions| && k < |db.transactions|
    requires db'.transactions == db.transactions[i := tx] && db'.subscriptions == db.subscriptions
    requires db'.terms == db.terms
    requires db'.ledger == db.ledger + entries && Credited(db.terms, tx, entries)
    requires forall n :: 0 <= n < |entries| ==>
               entries[n].reference == SelcomPaymentRef(i) || entries[n].reference == TransactionRef(i)
    requires !db.transactions[i].status.Completed? && tx.status.Completed? && tx.provider == Some(SelcomCollection)
    requires AccessOk(db, tx)
    ensures TxOk(db', k)
  {
    assert TxOk(db, k) && TxOk(db, i);
    SalesGrow(db, db', entries, k);
    if k == i {
      FilterAll(IsSaleOf(i), entries);
    } else {
      FilterNone(IsSaleOf(k), entries);
      assert SalesOf(db', k) == SalesOf(db, k);
    }
  }

  /** The one step that credits: a live payment becomes COMPLETED with its three entries. */
  lemma FinalizeKeepsPayments(db: Db, flow: TransactionType, i: nat, ref: Reference)
    requires PaymentsOk(db) && i < |db.transactions|
    requires db.transactions[i].flow == Some(flow) && !Terminal(db.transactions[i].status)
    requires ref == SelcomPaymentRef(i) || ref == TransactionRef(i)
    requires Finalize(db, flow, i, ref).Ok?
    ensures var db' := Finalize(db, flow, i, ref).value; PaymentsOk(db') && PaymentsLater(db, db')
  {
    var db' := Finalize(db, flow, i, ref).value;
    var tx := db.transactions[i];
    var fee := Money.PlatformFee(tx.amount, ActiveRate(db.terms, tx.tenant).value);
    var balance := WalletOf(db, tx.tenant).pending + tx.amount - fee;
    var entries := CollectionEntries(tx.tenant, tx.amount, fee, balance, ref);
    assert db'.ledger == db.ledger + entries;
    assert TxOk(db, i);
    CreditingEntries(db.terms, tx, balance, ref);
    forall k | 0 <= k < |db'.transactions|
      ensures TxOk(db', k)
    {
      CreditedRow(db, db', i, k, entries, PaidRow(tx, flow));
    }
    StatusMoveKeepsOthers(db, db', i, entries);
  }

  /** The parts of the invariant that do not speak of amounts. */
  lemma {:induction false} StatusMoveKeepsOthers(db: Db, db': Db, i: nat, entries: seq<LedgerEntry>)
    requires PaymentsOk(db) && i < |db.transactions| && |db'.transactions| == |db.transactions|
    requires db'.transactions == db.transactions[i := db'.transactions[i]]
    requires db'.transactions[i].attempt == db.transactions[i].attempt && db'.spent == db.spent
    requires db'.ledger == db.ledger + entries
    requires forall n :: 0 <= n < |entries| ==>
               entries[n].reference == SelcomPaymentRef(i) || entries[n].reference == TransactionRef(i)
    ensures forall k, l :: 0 <= k < l < |db'.transactions| ==> AttemptsApart(db'.transactions[k], db'.transactions[l])
    ensures forall k :: 0 <= k < |db'.ledger| ==> SaleKnown(db', db'.ledger[k])
    ensures forall session :: SpentOk(db', session)
  {
    SpentKept(db, db');
    forall k, l | 0 <= k < l < |db'.transactions|
      ensures AttemptsApart(db'.transactions[k], db'.transactions[l])
    {
      assert AttemptsApart(db.transactions[k], db.transactions[l]);
    }
    forall k | 0 <= k < |db'.ledger|
      ensures SaleKnown(db', db'.ledger[k])
    {
      if k < |db.ledger| {
        assert SaleKnown(db, db.ledger[k]);
      }
    }
  }

  lemma {:induction false} SpentGrows(db: Db, tx: Transaction, db': Db)
    requires forall session :: SpentOk(db, session)
    requires db'.transactions == db.transactions + [tx]
    requires db'.spent == db.spent + if tx.attempt.Some? then {tx.attempt.value.session} else {}
    ensures forall session :: SpentOk(db', session)
  {
    var n := |db.transactions|;
    forall session
      ensures SpentOk(db', session)
    {
      assert SpentOk(db, session);
      assert db'.transactions[n] == tx;
      if OpenedWith(tx, session) {
        assert OpenedWith(db'.transactions[n], session);
      } else if session in db.spent {
        var i :| 0 <= i < n && OpenedWith(db.transactions[i], session);
        assert OpenedWith(db'.transactions[i], session);
      } else {
        forall i | 0 <= i < |db'.transactions|
          ensures !OpenedWith(db'.transactions[i], session)
        {
          assert i < n ==> !OpenedWith(db.transactions[i], session);
        }
      }
    }
  }

  /** A new row, with the subscription it refers to when it has one. */
  lemma {:induction false} StartKeepsPayments(db: Db, tx: Transaction, subs: seq<Subscription>, db': Db)
    requires PaymentsOk(db)
    requires db' == db.(transactions := db.transactions + [tx], subscriptions := db.subscriptions + subs,
                        spent := db.spent + if tx.attempt.Some? then {tx.attempt.value.session} else {})
    requires forall j :: 0 <= j < |subs| ==> SubOk(subs[j])
    requires tx.provider == Some(SelcomCollection) && AccessOk(db', tx) && !tx.status.Completed?
    requires tx.attempt.Some? ==> tx.attempt.value.session !in db.spent
    ensures PaymentsOk(db') && PaymentsLater(db, db')
  {
    SpentGrows(db, tx, db');
    forall i | 0 <= i < |db'.transactions|
      ensures TxOk(db', i)
    {
      assert SalesOf(db', i) == SalesOf(db, i);
      if i < |db.transactions| {
        assert TxOk(db, i);
      } else {
        forall k | 0 <= k < |db.ledger|
          ensures !IsSaleOf(i)(db.ledger[k])
        {
          assert SaleKnown(db, db.ledger[k]);
        }
        FilterNone(IsSaleOf(i), db.ledger);
      }
    }
    forall k, l | 0 <= k < l < |db'.transactions|
      ensures AttemptsApart(db'.transactions[k], db'.transactions[l])
    {
      if l < |db.transactions| {
        assert AttemptsApart(db.transactions[k], db.transactions[l]);
      } else if tx.attempt.Some? {
        assert SpentOk(db, tx.attempt.value.session);
        assert !OpenedWith(db.transactions[k], tx.attempt.value.session);
      }
    }
    forall k | 0 <= k < |db'.ledger|
      ensures SaleKnown(db', db'.ledger[k])
    {
      assert SaleKnown(db, db.ledger[k]);
    }
  }

  lemma ActivationKeepsPayments(db: Db, now: Time, t: TenantId, j: nat, found: PackageFound)
    requires PaymentsOk(db) && ActivateSubscription(db, now, t, j, found).Ok?
    ensures var db' := ActivateSubscription(db, now, t, j, found).value; PaymentsOk(db') && PaymentsLater(db, db')
  {
    var db' := ActivateSubscription(db, now, t, j, found).value;
    SpentKept(db, db');
    forall i | 0 <= i < |db'.transactions|
      ensures TxOk(db', i)
    {
      assert TxOk(db, i);
      assert SalesOf(db', i) == SalesOf(db, i);
    }
    forall k | 0 <= k < |db'.ledger|
      ensures SaleKnown(db', db'.ledger[k])
    {
      assert SaleKnown(db, db.ledger[k]);
    }
  }
}
