/** The invariant of the whole database, and the few kinds of write that all
    operations are made of. */
module Invariants {
  import opened Basics
  import opened Records
  import opened WalletRules
  import opened PayoutRules
  import opened Books
  import opened Lifecycle
  import opened PaymentRules
  import opened Sales

  // --------------------------------------------- a withdrawal's entries

  predicate IsPayout(e: LedgerEntry) {
    e.entryType.Disbursement? || e.entryType.DisbursementReversal?
  }

  function IsPayoutOf(id: nat): LedgerEntry -> bool {
    (e: LedgerEntry) => IsPayout(e) && e.reference == WithdrawalRef(id)
  }

  function PayoutsOf(db: Db, id: nat): seq<LedgerEntry> {
    Filter(IsPayoutOf(id), db.ledger)
  }

  predicate Paying(e: LedgerEntry, w: Withdrawal) {
    e.entryType.Disbursement? && e.tenant == w.tenant && e.amount == w.amount && e.bucket == Some(TotalDisbursed)
  }

  predicate Returning(e: LedgerEntry, w: Withdrawal) {
    e.entryType.DisbursementReversal? && e.tenant == w.tenant && e.amount == w.amount && e.bucket == Some(Available)
  }

  /** One DISBURSEMENT of the principal iff disbursed, followed by one
      DISBURSEMENT_REVERSAL iff reversed; otherwise no entry at all. */
  predicate PayoutEntriesOk(w: Withdrawal, es: seq<LedgerEntry>) {
    if w.status.Success? then |es| == 1 && Paying(es[0], w)
    else if w.status.Reversed? then |es| == 2 && Paying(es[0], w) && Returning(es[1], w)
    else es == []
  }

  predicate PayoutKnown(db: Db, e: LedgerEntry) {
    IsPayout(e) ==> e.reference.WithdrawalRef? && e.reference.id < |db.withdrawals|
  }

  ghost predicate PayoutLedgerOk(db: Db) {
    && (forall id :: 0 <= id < |db.withdrawals| ==> PayoutEntriesOk(db.withdrawals[id], PayoutsOf(db, id)))
    && (forall k :: 0 <= k < |db.ledger| ==> PayoutKnown(db, db.ledger[k]))
  }

  lemma {:induction false} PayoutLedgerGrows(db: Db, db': Db, entries: seq<LedgerEntry>)
    requires PayoutLedgerOk(db)
    requires db'.ledger == db.ledger + entries && |db.withdrawals| <= |db'.withdrawals|
    requires forall k :: 0 <= k < |entries| ==> PayoutKnown(db', entries[k])
    requires forall id :: 0 <= id < |db'.withdrawals| ==>
               PayoutEntriesOk(db'.withdrawals[id],
                               (if id < |db.withdrawals| then PayoutsOf(db, id) else [])
                                   + Filter(IsPayoutOf(id), entries))
    ensures PayoutLedgerOk(db')
  {
    forall id | 0 <= id < |db'.withdrawals|
      ensures PayoutEntriesOk(db'.withdrawals[id], PayoutsOf(db', id))
    {
      FilterConcat(IsPayoutOf(id), db.ledger, entries);
      if id >= |db.withdrawals| {
        forall k | 0 <= k < |db.ledger|
          ensures !IsPayoutOf(id)(db.ledger[k])
        {
          assert PayoutKnown(db, db.ledger[k]);
        }
        FilterNone(IsPayoutOf(id), db.ledger);
      }
    }
    forall k | 0 <= k < |db'.ledger|
      ensures PayoutKnown(db', db'.ledger[k])
    {
      if k < |db.ledger| {
        assert PayoutKnown(db, db.ledger[k]);
      }
    }
  }

  predicate WasDisbursed(s: WithdrawalStatus) {
    s.Success? || s.Reversed?
  }

  /** Entries that are not payouts concern no withdrawal. */
  lemma {:induction false} OtherEntriesKeepPayouts(db: Db, db': Db, entries: seq<LedgerEntry>)
    requires PayoutLedgerOk(db)
    requires db'.ledger == db.ledger + entries && |db.withdrawals| <= |db'.withdrawals|
    requires forall k :: 0 <= k < |entries| ==> !IsPayout(entries[k])
    requires forall id :: 0 <= id < |db.withdrawals| ==> SameRequest(db.withdrawals[id], db'.withdrawals[id])
    requires forall id :: 0 <= id < |db.withdrawals| ==>
               db'.withdrawals[id].status == db.withdrawals[id].status
               || !(WasDisbursed(db'.withdrawals[id].status) || WasDisbursed(db.withdrawals[id].status))
    requires forall id :: |db.withdrawals| <= id < |db'.withdrawals| ==> !WasDisbursed(db'.withdrawals[id].status)
    ensures PayoutLedgerOk(db')
  {
    forall id | 0 <= id < |db'.withdrawals|
      ensures PayoutEntriesOk(db'.withdrawals[id],
                              (if id < |db.withdrawals| then PayoutsOf(db, id) else [])
                                  + Filter(IsPayoutOf(id), entries))
    {
      FilterNone(IsPayoutOf(id), entries);
      if id < |db.withdrawals| {
        assert PayoutEntriesOk(db.withdrawals[id], PayoutsOf(db, id));
        assert PayoutsOf(db, id) + [] == PayoutsOf(db, id);
      }
    }
    PayoutLedgerGrows(db, db', entries);
  }

  // ------------------------------------------------------ the invariant

  ghost predicate Inv(db: Db) {
    && WalletsNonNegative(db)
    && Reconstructs(db) && LedgerOk(db)
    && LifecycleOk(db) && PayoutLedgerOk(db)
    && PaymentsOk(db)
  }

  /** How the database may change over time: tables only grow, rows only move on. */
  ghost predicate Later(db: Db, db': Db) {
    && PayoutsLater(db, db') && PaymentsLater(db, db')
    && db.ledger <= db'.ledger && db.settlements <= db'.settlements
  }

  lemma LaterTransitive(a: Db, b: Db, c: Db)
    requires Later(a, b) && Later(b, c)
    ensures Later(a, c)
  {
    PayoutsLaterTransitive(a, b, c);
    PaymentsLaterTransitive(a, b, c);
  }

  lemma EmptyInv()
    ensures Inv(EMPTY_DB)
  {
  }

  // ------------------------------------------------- the kinds of write

  /** What a status change leaves alone. */
  lemma ShiftFrame(db: Db, id: nat, row: Withdrawal, actor: Option<ActorId>)
    requires id < |db.withdrawals| && row.amount > 0
    requires Shift(db, id, row, actor).Ok?
    ensures var db' := Shift(db, id, row, actor).value;
            && db'.ledger == db.ledger + BookEntries(db, row.tenant, row.status, row.amount, id)
            && db'.settlements == db.settlements
            && PaymentsUntouched(db, db')
            && (WalletsNonNegative(db) ==> WalletsNonNegative(db'))
  {
    BookPosts(db, row.tenant, row.status, row.amount, id);
  }

  lemma ShiftKeepsPayoutLedger(db: Db, id: nat, row: Withdrawal, db': Db)
    requires PayoutLedgerOk(db)
    requires id < |db.withdrawals| && LegalShift(db.withdrawals[id], row)
    requires db'.withdrawals == db.withdrawals[id := row]
    requires db'.ledger == db.ledger + BookEntries(db, row.tenant, row.status, row.amount, id)
    ensures PayoutLedgerOk(db')
  {
    var entries := BookEntries(db, row.tenant, row.status, row.amount, id);
    forall k | 0 <= k < |db'.withdrawals|
      ensures PayoutEntriesOk(db'.withdrawals[k], PayoutsOf(db, k) + Filter(IsPayoutOf(k), entries))
    {
      assert PayoutEntriesOk(db.withdrawals[k], PayoutsOf(db, k));
      if k == id {
        FilterAll(IsPayoutOf(k), entries);
      } else {
        FilterNone(IsPayoutOf(k), entries);
        assert PayoutsOf(db, k) + [] == PayoutsOf(db, k);
      }
    }
    PayoutLedgerGrows(db, db', entries);
  }

  lemma ShiftKeeps(db: Db, id: nat, row: Withdrawal, actor: Option<ActorId>)
    requires Inv(db)
    requires id < |db.withdrawals| && LegalShift(db.withdrawals[id], row)
    requires Shift(db, id, row, actor).Ok?
    ensures Inv(Shift(db, id, row, actor).value) && Later(db, Shift(db, id, row, actor).value)
  {
    var db' := Shift(db, id, row, actor).value;
    ShiftFrame(db, id, row, actor);
    ShiftKeepsBooks(db, id, row, actor);
    ShiftKeepsLifecycle(db, id, row, actor);
    ShiftKeepsPayoutLedger(db, id, row, db');
    OtherEntriesKeepPayments(db, db', BookEntries(db, row.tenant, row.status, row.amount, id));
  }

  lemma WriteKeeps(db: Db, id: nat, row: Withdrawal)
    requires Inv(db)
    requires id < |db.withdrawals| && LegalWrite(db.withdrawals[id], row)
    ensures Inv(Write(db, id, row)) && Later(db, Write(db, id, row))
  {
    var db' := Write(db, id, row);
    WriteKeepsLifecycle(db, id, row);
    RelabelKeepsBooks(db, id, row, db');
    assert db'.ledger == db.ledger + [];
    OtherEntriesKeepPayments(db, db', []);
    OtherEntriesKeepPayouts(db, db', []);
  }

  /** A wallet operation away from withdrawals and payments. */
  lemma {:induction false} PostKeeps(db: Db, t: TenantId, d: Buckets, entries: seq<LedgerEntry>, logs: seq<Settlement>)
    requires Inv(db)
    requires Post(db, t, d, entries, logs).Ok?
    requires var db' := Post(db, t, d, entries, logs).value; Reconstructs(db') && LedgerOk(db')
    requires forall k :: 0 <= k < |entries| ==> !IsSale(entries[k]) && !IsPayout(entries[k])
    ensures Inv(Post(db, t, d, entries, logs).value) && Later(db, Post(db, t, d, entries, logs).value)
  {
    var db' := Post(db, t, d, entries, logs).value;
    OtherEntriesKeepPayments(db, db', entries);
    OtherEntriesKeepPayouts(db, db', entries);
    LifecycleUntouched(db, db');
  }

  lemma LifecycleUntouched(db: Db, db': Db)
    requires LifecycleOk(db)
    requires db'.withdrawals == db.withdrawals && db'.events == db.events
    ensures LifecycleOk(db') && PayoutsLater(db, db')
  {
    forall id | 0 <= id < |db'.withdrawals|
      ensures WithdrawalOk(db', id)
    {
      assert WithdrawalOk(db, id);
      assert EventsOf(db', id) == EventsOf(db, id);
    }
  }

  /** A write to payments that leaves wallets, ledger and withdrawals alone. */
  lemma PaymentWriteKeeps(db: Db, db': Db)
    requires Inv(db) && PaymentsOk(db') && PaymentsLater(db, db')
    requires db' == db.(transactions := db'.transactions, subscriptions := db'.subscriptions, terms := db'.terms,
                        spent := db'.spent)
    ensures Inv(db') && Later(db, db')
  {
    LifecycleUntouched(db, db');
    BooksUntouched(db, db');
    assert db'.ledger == db.ledger + [];
    OtherEntriesKeepPayouts(db, db', []);
  }

  lemma BooksUntouched(db: Db, db': Db)
    requires Reconstructs(db) && LedgerOk(db)
    requires db'.wallets == db.wallets && db'.ledger == db.ledger && db'.settlements == db.settlements
    requires db'.withdrawals == db.withdrawals
    ensures Reconstructs(db') && LedgerOk(db')
  {
    forall t, b
      ensures ReconstructsAt(db', t, b)
    {
      assert ReconstructsAt(db, t, b);
    }
  }

  /** Crediting a payment. */
  lemma FinalizeKeeps(db: Db, flow: TransactionType, i: nat, ref: Reference)
    requires Inv(db) && i < |db.transactions|
    requires db.transactions[i].flow == Some(flow) && !Terminal(db.transactions[i].status)
    requires ref == SelcomPaymentRef(i) || ref == TransactionRef(i)
    requires Finalize(db, flow, i, ref).Ok?
    ensures Inv(Finalize(db, flow, i, ref).value) && Later(db, Finalize(db, flow, i, ref).value)
  {
    var tx := db.transactions[i];
    var db' := Finalize(db, flow, i, ref).value;
    var credited := ProcessCollection(db, tx.tenant, tx.amount, ref).value;
    FinalizeKeepsPayments(db, flow, i, ref);
    CollectionKeepsBooks(db, tx.tenant, tx.amount, ref);
    BooksUntouched(credited, db');
    LifecycleUntouched(db, db');
    var fee := Money.PlatformFee(tx.amount, ActiveRate(db.terms, tx.tenant).value);
    OtherEntriesKeepPayouts(db, db', CollectionEntries(tx.tenant, tx.amount, fee,
                                                       WalletOf(db, tx.tenant).pending + tx.amount - fee, ref));
  }

  lemma OpenKeeps(db: Db, row: Withdrawal, actor: Option<ActorId>)
    requires Inv(db)
    requires RowOk(row) && row.status.Draft? && !KeyTaken(db, row.key)
    requires Reserve(db, row.tenant, row.amount).Ok?
    ensures var db' := Reserve(db, row.tenant, row.amount).value.(
                         withdrawals := db.withdrawals + [row],
                         events := db.events + [Event(|db.withdrawals|, None, Draft, actor)]);
            Inv(db') && Later(db, db')
  {
    var reserved := Reserve(db, row.tenant, row.amount).value;
    var db' := reserved.(withdrawals := db.withdrawals + [row],
                         events := db.events + [Event(|db.withdrawals|, None, Draft, actor)]);
    assert db'.ledger == db.ledger + [] == db.ledger;
    assert db'.settlements == db.settlements;
    OpenKeepsBooks(db, row, db');
    OpenKeepsLifecycle(db, row, actor, db');
    OtherEntriesKeepPayments(db, db', []);
    OtherEntriesKeepPayouts(db, db', []);
  }
}
