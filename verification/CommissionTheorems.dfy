/** What the platform earns over a whole run, read off the ledger. */
module CommissionTheorems {
  import opened Basics
  import opened Records
  import opened WalletRules
  import opened PaymentRules
  import opened Books
  import opened Sales
  import opened Invariants
  import opened Platform
  import Money

  function FeeIn(): LedgerEntry -> int {
    (e: LedgerEntry) => if e.entryType.PlatformFee? then e.amount else 0
  }

  /** The fees charged for one payment, and for any payment up to the n-th. */
  function FeeOf(i: nat): LedgerEntry -> int {
    (e: LedgerEntry) => if e.entryType.PlatformFee? && IsSaleOf(i)(e) then e.amount else 0
  }

  function FeeBelow(n: nat): LedgerEntry -> int {
    (e: LedgerEntry) =>
      if e.entryType.PlatformFee? && (e.reference.SelcomPaymentRef? || e.reference.TransactionRef?)
         && e.reference.id < n
      then e.amount else 0
  }

  /** The sales behind the first n payments, in order: one for each that is COMPLETED, of
      its amount, at one of its tenant's rates, which its PLATFORM_FEE entry charges. */
  predicate SalesAre(db: Db, n: nat, sales: seq<Money.Sale>)
    requires n <= |db.transactions|
  {
    if n == 0 then sales == []
    else if !db.transactions[n - 1].status.Completed? then SalesAre(db, n - 1, sales)
    else
      && |sales| > 0 && SalesAre(db, n - 1, sales[..|sales| - 1])
      && var tx, sale := db.transactions[n - 1], sales[|sales| - 1];
         && sale.gross == tx.amount && sale.gross > 0 && 0 <= sale.rate <= Money.FULL_RATE
         && (exists k :: 0 <= k < |db.terms| && db.terms[k].tenant == tx.tenant && db.terms[k].rate == sale.rate)
         && |SalesOf(db, n - 1)| == 3
         && SalesOf(db, n - 1)[1].amount == Money.PlatformFee(sale.gross, sale.rate)
  }

  lemma FeeOfSale(db: Db, i: nat)
    requires PaymentsOk(db) && i < |db.transactions|
    ensures db.transactions[i].status.Completed? ==>
              |SalesOf(db, i)| == 3 && Total(FeeOf(i), db.ledger) == SalesOf(db, i)[1].amount
    ensures !db.transactions[i].status.Completed? ==> Total(FeeOf(i), db.ledger) == 0
  {
    assert TxOk(db, i);
    TotalFilter(FeeOf(i), IsSaleOf(i), db.ledger);
    var es := SalesOf(db, i);
    if db.transactions[i].status.Completed? {
      assert es == [es[0], es[1], es[2]];
      SalesAreTheirOwn(db, i);
      TotalThree(FeeOf(i), es[0], es[1], es[2]);
    }
  }

  lemma SalesAreTheirOwn(db: Db, i: nat)
    ensures forall k :: 0 <= k < |SalesOf(db, i)| ==> IsSaleOf(i)(SalesOf(db, i)[k])
  {
    FilterOnly(IsSaleOf(i), db.ledger);
  }

  lemma {:induction false} FilterOnly<T>(p: T -> bool, xs: seq<T>)
    ensures forall k :: 0 <= k < |Filter(p, xs)| ==> p(Filter(p, xs)[k])
  {
    if |xs| > 0 {
      FilterOnly(p, xs[..|xs| - 1]);
    }
  }

  lemma {:induction false} FeesBelow(db: Db, n: nat) returns (sales: seq<Money.Sale>)
    requires PaymentsOk(db) && n <= |db.transactions|
    ensures SalesAre(db, n, sales)
    ensures Total(FeeBelow(n), db.ledger) == Money.FeesCharged(sales)
    ensures forall k :: 0 <= k < |sales| ==> sales[k].gross > 0 && 0 <= sales[k].rate <= Money.FULL_RATE
  {
    if n == 0 {
      sales := [];
      TotalZero(FeeBelow(0), db.ledger);
    } else {
      var i := n - 1;
      sales := FeesBelow(db, i);
      forall k | 0 <= k < |db.ledger|
        ensures FeeBelow(n)(db.ledger[k]) == FeeBelow(i)(db.ledger[k]) + FeeOf(i)(db.ledger[k])
      {
        FeeIsBelowOrOf(i, db.ledger[k]);
      }
      TotalSum(FeeBelow(n), FeeBelow(i), FeeOf(i), db.ledger);
      FeeOfSale(db, i);
      if db.transactions[i].status.Completed? {
        var rate := RateCharged(db, i);
        var before := sales;
        sales := before + [Money.Sale(db.transactions[i].amount, rate)];
        assert sales[..|sales| - 1] == before;
      }
    }
  }

  lemma FeeIsBelowOrOf(i: nat, e: LedgerEntry)
    ensures FeeBelow(i + 1)(e) == FeeBelow(i)(e) + FeeOf(i)(e)
  {
    match e.reference
    case SelcomPaymentRef(id) => assert IsSaleOf(i)(e) == (IsSale(e) && id == i);
    case TransactionRef(id) => assert IsSaleOf(i)(e) == (IsSale(e) && id == i);
    case _ => assert !IsSaleOf(i)(e);
  }

  lemma RateCharged(db: Db, i: nat) returns (rate: int)
    requires PaymentsOk(db) && i < |db.transactions| && db.transactions[i].status.Completed?
    ensures db.transactions[i].amount > 0 && 0 <= rate <= Money.FULL_RATE
    ensures exists k :: 0 <= k < |db.terms| && db.terms[k].tenant == db.transactions[i].tenant
                        && db.terms[k].rate == rate
    ensures |SalesOf(db, i)| == 3 && SalesOf(db, i)[1].amount == Money.PlatformFee(db.transactions[i].amount, rate)
  {
    var tx := db.transactions[i];
    assert TxOk(db, i);
    assert RateSeen(db.terms, tx.tenant, tx.amount, SalesOf(db, i)[1].amount);
    var k :| 0 <= k < |db.terms| && db.terms[k].tenant == tx.tenant
             && SalesOf(db, i)[1].amount == Money.PlatformFee(tx.amount, db.terms[k].rate);
    rate := db.terms[k].rate;
  }

  /** Over every run, the PLATFORM_FEE entries of the ledger add up to the fees of one sale
      per completed payment, so they are within half a cent a payment of the exact
      commission at the rates charged. */
  lemma {:induction false} FeesOverRuns(calls: seq<Call>) returns (sales: seq<Money.Sale>)
    ensures FeesWithin(Run(START, calls).db, sales)
  {
    Reachable(calls);
    sales := FeesOf(Run(START, calls).db);
  }

  predicate FeesWithin(db: Db, sales: seq<Money.Sale>) {
    && SalesAre(db, |db.transactions|, sales)
    && Total(FeeIn(), db.ledger) == Money.FeesCharged(sales)
    && 2 * Money.Abs(Money.FULL_RATE * Total(FeeIn(), db.ledger) - Money.ExactFees(sales))
       <= Money.FULL_RATE * |sales|
  }

  lemma FeesOf(db: Db) returns (sales: seq<Money.Sale>)
    requires PaymentsOk(db)
    ensures FeesWithin(db, sales)
  {
    forall k | 0 <= k < |db.ledger|
      ensures FeeIn()(db.ledger[k]) == FeeBelow(|db.transactions|)(db.ledger[k])
    {
      assert SaleKnown(db, db.ledger[k]);
    }
    TotalSame(FeeIn(), FeeBelow(|db.transactions|), db.ledger);
    sales := FeesBelow(db, |db.transactions|);
    Money.FeesDrift(sales);
  }
}
