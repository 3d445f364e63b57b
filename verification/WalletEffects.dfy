/** What each wallet operation answers and leaves behind, field by field: when it goes
    through, what the wallet holds afterwards, and exactly what it writes. */
module WalletEffects {
  import opened Basics
  import opened Records
  import opened WalletRules
  import Money

  /** One wallet is replaced, entries and logs are appended, and nothing else changes. */
  ghost predicate Becomes(db: Db, db': Db, t: TenantId, wallet: Buckets, entries: seq<LedgerEntry>,
                          logs: seq<Settlement>)
  {
    && WalletOf(db', t) == wallet && (forall u :: u != t ==> WalletOf(db', u) == WalletOf(db, u))
    && db' == db.(wallets := db'.wallets, ledger := db.ledger + entries, settlements := db.settlements + logs)
  }

  lemma ReserveEffect(db: Db, t: TenantId, amount: int)
    requires WalletOf(db, t).NonNegative()
    ensures var r, w := Reserve(db, t, amount), WalletOf(db, t);
            && (r.Ok? <==> 0 < amount <= w.available)
            && (r.Ok? ==> Becomes(db, r.value, t,
                                  w.(available := w.available - amount, reserved := w.reserved + amount), [], []))
  {
  }

  lemma ReleaseEffect(db: Db, t: TenantId, amount: int)
    requires WalletOf(db, t).NonNegative()
    ensures var r, w := Release(db, t, amount), WalletOf(db, t);
            && (r.Ok? <==> 0 < amount <= w.reserved)
            && (r.Ok? ==> Becomes(db, r.value, t,
                                  w.(available := w.available + amount, reserved := w.reserved - amount), [], []))
  {
  }

  lemma DisbursementEffect(db: Db, t: TenantId, amount: int, id: nat)
    requires WalletOf(db, t).NonNegative()
    ensures var r, w := CompleteDisbursement(db, t, amount, id), WalletOf(db, t);
            && (r.Ok? <==> 0 < amount <= w.reserved)
            && (r.Ok? ==>
                  var total := w.totalDisbursed + amount;
                  Becomes(db, r.value, t, w.(reserved := w.reserved - amount, totalDisbursed := total),
                          [LedgerEntry(t, Disbursement, Credit, Some(TotalDisbursed), amount, Some(total),
                                       WithdrawalRef(id))], []))
  {
  }

  lemma DisbursementReversalEffect(db: Db, t: TenantId, amount: int, id: nat)
    requires WalletOf(db, t).NonNegative()
    ensures var r, w := ReverseDisbursement(db, t, amount, id), WalletOf(db, t);
            && (r.Ok? <==> 0 < amount <= w.totalDisbursed)
            && (r.Ok? ==>
                  var available := w.available + amount;
                  Becomes(db, r.value, t, w.(available := available, totalDisbursed := w.totalDisbursed - amount),
                          [LedgerEntry(t, DisbursementReversal, Credit, Some(Available), amount, Some(available),
                                       WithdrawalRef(id))], []))
  {
  }

  /** Without an amount the whole of pending is settled. */
  lemma SettlementEffect(db: Db, t: TenantId, amount: Option<int>)
    requires WalletOf(db, t).NonNegative()
    ensures var r, w := SettlePending(db, t, amount), WalletOf(db, t);
            var settled := match amount { case Some(x) => x case None => w.pending };
            && (r.Ok? <==> 0 < settled <= w.pending)
            && (r.Ok? ==> Becomes(db, r.value, t,
                                  w.(available := w.available + settled, pending := w.pending - settled),
                                  [], [Settlement(t, settled)]))
  {
  }

  lemma RefundEffect(db: Db, t: TenantId, amount: int, ref: Reference)
    requires WalletOf(db, t).NonNegative()
    ensures var r, w := RecordRefund(db, t, amount, ref), WalletOf(db, t);
            && (r.Ok? <==> 0 < amount <= w.available)
            && (r.Ok? ==>
                  var available := w.available - amount;
                  Becomes(db, r.value, t, w.(available := available),
                          [LedgerEntry(t, Refund, Debit, Some(Available), amount, Some(available), ref)], []))
  {
  }

  lemma ReversalEffect(db: Db, t: TenantId, amount: int, ref: Reference)
    requires WalletOf(db, t).NonNegative()
    ensures var r, w := RecordReversal(db, t, amount, ref), WalletOf(db, t);
            && (r.Ok? <==> 0 < amount <= w.pending)
            && (r.Ok? ==>
                  var pending := w.pending - amount;
                  Becomes(db, r.value, t, w.(pending := pending),
                          [LedgerEntry(t, Reversal, Debit, Some(Pending), amount, Some(pending), ref)], []))
  {
  }

  /** A reason must have something in it besides white space. */
  lemma AdjustmentEffect(db: Db, t: TenantId, b: Bucket, dir: Direction, amount: int, reason: string, ref: Reference)
    requires WalletOf(db, t).NonNegative()
    ensures var r, w := CreateAdjustment(db, t, b, dir, amount, reason, ref), WalletOf(db, t);
            var balance := if dir.Credit? then w.Get(b) + amount else w.Get(b) - amount;
            && (r.Ok? <==>
                  && amount > 0 && balance >= 0
                  && exists k :: 0 <= k < |reason| && reason[k] !in {' ', '\t', '\n', '\r'})
            && (r.Ok? ==> Becomes(db, r.value, t, w.Set(b, balance),
                                  [LedgerEntry(t, Adjustment, dir, Some(b), amount, Some(balance), ref)], []))
  {
    var w := WalletOf(db, t);
    var delta := if dir.Credit? then amount else -amount;
    BlankIff(reason);
    SetIsPlus(w, b, delta);
    assert w.Set(b, w.Get(b) + delta).Get(b) == w.Get(b) + delta;
  }

  /** A credit splits the gross at the rate in force: three entries, of which only the
      tenant's share moves a bucket. */
  lemma CollectionEffect(db: Db, t: TenantId, gross: int, ref: Reference)
    requires WalletOf(db, t).NonNegative() && TermsOk(db.terms)
    ensures var r, w, rate := ProcessCollection(db, t, gross, ref), WalletOf(db, t), ActiveRate(db.terms, t);
            && (r.Ok? <==> gross > 0 && rate.Some?)
            && (r.Ok? ==>
                  var fee := Money.PlatformFee(gross, rate.value);
                  var share := gross - fee;
                  var pending := w.pending + share;
                  Becomes(db, r.value, t, w.(pending := pending),
                          [LedgerEntry(t, Collection, Credit, None, gross, None, ref),
                           LedgerEntry(t, PlatformFee, Debit, None, fee, None, ref),
                           LedgerEntry(t, TenantShare, Credit, Some(Pending), share, Some(pending), ref)], []))
  {
    ActiveRateFinds(db.terms, t);
    if gross > 0 && ActiveRate(db.terms, t).Some? {
      Money.FeeSplit(gross, ActiveRate(db.terms, t).value);
    }
  }
}
