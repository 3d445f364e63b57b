/** The database session, and the services that move money through wallets, step by
    step: each method updates the session in place and is proved against WalletRules. */
module WalletServices {
  import opened Basics
  import opened Records
  import WalletRules
  import Money

  /** One transaction on the database: services update it in place, and whoever opened
      it commits by leaving it or rolls back by restoring what it was. */
  class Database {
    var wallets: map<TenantId, Buckets>
    var ledger: seq<LedgerEntry>
    var settlements: seq<Settlement>
    var withdrawals: seq<Withdrawal>
    var events: seq<Event>
    var terms: seq<Terms>
    var transactions: seq<Transaction>
    var subscriptions: seq<Subscription>
    var spent: set<nat>

    function State(): Db
      reads this
    {
      Db(wallets, ledger, settlements, withdrawals, events, terms, transactions, subscriptions, spent)
    }

    constructor ()
      ensures State() == EMPTY_DB
    {
      wallets, ledger, settlements := map[], [], [];
      withdrawals, events := [], [];
      terms, transactions, subscriptions, spent := [], [], [], {};
    }

    method Rollback(before: Db)
      modifies this
      ensures State() == before
    {
      wallets, ledger, settlements := before.wallets, before.ledger, before.settlements;
      withdrawals, events := before.withdrawals, before.events;
      terms, transactions := before.terms, before.transactions;
      subscriptions, spent := before.subscriptions, before.spent;
    }
  }

  /** A method agrees with its specification: it returns in the specified state, or
      raises the specified error (and leaves the rest to its caller's rollback). */
  ghost predicate Agrees<T>(r: Result<T>, spec: Result<Db>, now: Db) {
    match r
    case Ok(_) => spec == Ok(now)
    case Raised(e) => spec == Raised(e)
  }

  /** Recognizes a finished posting by what it left behind. */
  lemma {:induction false} PostedAs(before: Db, now: Db, t: TenantId, d: Buckets, entries: seq<LedgerEntry>,
                                    logs: seq<Settlement>)
    requires WalletOf(before, t).Plus(d).NonNegative()
    requires now.wallets == before.wallets[t := WalletOf(before, t).Plus(d)]
    requires now.ledger == before.ledger + entries && now.settlements == before.settlements + logs
    requires now == before.(wallets := now.wallets, ledger := now.ledger, settlements := now.settlements)
    ensures WalletRules.Post(before, t, d, entries, logs) == Ok(now)
  {
  }

  /** Recognizes a finished credit by what it left behind. */
  lemma CreditedAs(before: Db, now: Db, t: TenantId, gross: int, ref: Reference)
    requires gross > 0 && WalletRules.ActiveRate(before.terms, t).Some? && WalletOf(before, t).NonNegative()
    requires var fee := Money.PlatformFee(gross, WalletRules.ActiveRate(before.terms, t).value);
             var pending := WalletOf(before, t).pending + gross - fee;
             && pending >= 0
             && now.wallets == before.wallets[t := WalletOf(before, t).(pending := pending)]
             && now.ledger == before.ledger + WalletRules.CollectionEntries(t, gross, fee, pending, ref)
    requires now == before.(wallets := now.wallets, ledger := now.ledger)
    ensures WalletRules.ProcessCollection(before, t, gross, ref) == Ok(now)
  {
    var share := gross - Money.PlatformFee(gross, WalletRules.ActiveRate(before.terms, t).value);
    var w := WalletOf(before, t);
    assert w.Plus(Buckets(0, share, 0, 0, 0)) == w.(pending := w.pending + share);
    assert before.settlements + [] == before.settlements;
  }

  /** A single-bucket posting raises exactly when that bucket would go negative. */
  lemma {:induction false} SingleBucket(before: Db, t: TenantId, b: Bucket, x: int, entries: seq<LedgerEntry>)
    requires WalletRules.WalletsNonNegative(before)
    ensures var w := WalletOf(before, t);
            && (w.Get(b) + x < 0 ==>
                WalletRules.Post(before, t, EMPTY_WALLET.Set(b, x), entries, []) == Raised(DomainValidation))
            && (w.Get(b) + x >= 0 ==>
                  WalletRules.Post(before, t, EMPTY_WALLET.Set(b, x), entries, [])
                  == Ok(before.(wallets := before.wallets[t := w.Set(b, w.Get(b) + x)],
                                ledger := before.ledger + entries)))
  {
    var w := WalletOf(before, t);
    WalletRules.SetIsPlus(w, b, x);
    assert w.NonNegative();
    assert before.settlements + [] == before.settlements;
    var w' := w.Set(b, w.Get(b) + x);
    assert w'.Get(b) == w.Get(b) + x;
  }

  class WalletService {
    const db: Database

    constructor (db: Database)
      ensures this.db == db
    {
      this.db := db;
    }

    /** get_or_create_wallet and the row lock. */
    method LockedWallet(t: TenantId)
      modifies db`wallets
      ensures t in db.wallets
      ensures db.wallets == old(db.wallets)[t := WalletOf(old(db.State()), t)]
    {
      if t !in db.wallets {
        db.wallets := db.wallets[t := EMPTY_WALLET];
      } else {
        assert db.wallets == db.wallets[t := db.wallets[t]];
      }
    }

    method MoveBucket(t: TenantId, b: Bucket, delta: int) returns (r: Result<int>)
      requires t in db.wallets
      modifies db`wallets
      ensures r == if old(db.wallets)[t].Get(b) + delta < 0 then Raised(DomainValidation)
                   else Ok(old(db.wallets)[t].Get(b) + delta)
      ensures db.wallets == if r.Ok? then old(db.wallets)[t := old(db.wallets)[t].Set(b, r.value)] else old(db.wallets)
    {
      var newValue := db.wallets[t].Get(b) + delta;
      if newValue < 0 {
        return Raised(DomainValidation);
      }
      db.wallets := db.wallets[t := db.wallets[t].Set(b, newValue)];
      return Ok(newValue);
    }

    method ProcessCollection(t: TenantId, gross: int, ref: Reference) returns (r: Result<()>)
      requires WalletRules.WalletsNonNegative(db.State())
      modifies db
      ensures Agrees(r, WalletRules.ProcessCollection(old(db.State()), t, gross, ref), db.State())
    {
      if gross <= 0 {
        return Raised(DomainValidation);
      }
      var active := WalletRules.ActiveRate(db.terms, t);
      if active.None? {
        return Raised(DomainValidation);
      }
      var platformFee := Money.PlatformFee(gross, active.value);
      var tenantShare := gross - platformFee;
      LockedWallet(t);
      var newPending :- MoveBucket(t, Pending, tenantShare);
      db.ledger := db.ledger + [LedgerEntry(t, Collection, Credit, None, gross, None, ref)];
      db.ledger := db.ledger + [LedgerEntry(t, PlatformFee, Debit, None, platformFee, None, ref)];
      db.ledger := db.ledger + [LedgerEntry(t, TenantShare, Credit, Some(Pending), tenantShare, Some(newPending), ref)];
      assert db.ledger == old(db.ledger) + WalletRules.CollectionEntries(t, gross, platformFee, newPending, ref);
      CreditedAs(old(db.State()), db.State(), t, gross, ref);
      return Ok(());
    }

    method CreateAdjustment(t: TenantId, b: Bucket, dir: Direction, amount: int, reason: string, ref: Reference)
      returns (r: Result<()>)
      requires WalletRules.WalletsNonNegative(db.State())
      modifies db
      ensures Agrees(r, WalletRules.CreateAdjustment(old(db.State()), t, b, dir, amount, reason, ref), db.State())
    {
      if amount <= 0 {
        return Raised(DomainValidation);
      }
      if WalletRules.Blank(reason) {
        return Raised(DomainValidation);
      }
      var signedDelta := if dir.Credit? then amount else -amount;
      SingleBucket(db.State(), t, b, signedDelta,
                   [LedgerEntry(t, Adjustment, dir, Some(b), amount,
                                Some(WalletOf(db.State(), t).Get(b) + signedDelta), ref)]);
      LockedWallet(t);
      var newBalance :- MoveBucket(t, b, signedDelta);
      assert db.wallets == old(db.wallets)[t := old(WalletOf(db.State(), t)).Set(b, newBalance)];
      db.ledger := db.ledger + [LedgerEntry(t, Adjustment, dir, Some(b), amount, Some(newBalance), ref)];
      return Ok(());
    }

    method SettlePending(t: TenantId, amount: Option<int>) returns (r: Result<()>)
      requires WalletRules.WalletsNonNegative(db.State())
      modifies db
      ensures Agrees(r, WalletRules.SettlePending(old(db.State()), t, amount), db.State())
    {
      LockedWallet(t);
      var pending := db.wallets[t].pending;
      var settleAmount := if amount.None? then pending else amount.value;
      if settleAmount <= 0 {
        return Raised(DomainValidation);
      }
      if settleAmount > pending {
        return Raised(DomainValidation);
      }
      var debited := MoveBucket(t, Pending, -settleAmount);
      if debited.Raised? {
        return debited.Outcome();
      }
      var credited := MoveBucket(t, Available, settleAmount);
      if credited.Raised? {
        return credited.Outcome();
      }
      db.settlements := db.settlements + [Settlement(t, settleAmount)];
      PostedAs(old(db.State()), db.State(), t, Buckets(settleAmount, -settleAmount, 0, 0, 0),
               [], [Settlement(t, settleAmount)]);
      return Ok(());
    }

    method ReserveForWithdrawal(t: TenantId, amount: int) returns (r: Result<()>)
      requires WalletRules.WalletsNonNegative(db.State())
      modifies db
      ensures Agrees(r, WalletRules.Reserve(old(db.State()), t, amount), db.State())
    {
      if amount <= 0 {
        return Raised(DomainValidation);
      }
      LockedWallet(t);
      var _ :- MoveBucket(t, Available, -amount);
      var credited := MoveBucket(t, Reserved, amount);
      if credited.Raised? {
        return credited.Outcome();
      }
      PostedAs(old(db.State()), db.State(), t, Buckets(-amount, 0, amount, 0, 0),
               [], []);
      return Ok(());
    }

    method ReleaseReservation(t: TenantId, amount: int) returns (r: Result<()>)
      requires WalletRules.WalletsNonNegative(db.State())
      modifies db
      ensures Agrees(r, WalletRules.Release(old(db.State()), t, amount), db.State())
    {
      if amount <= 0 {
        return Raised(DomainValidation);
      }
      LockedWallet(t);
      var _ :- MoveBucket(t, Reserved, -amount);
      var credited := MoveBucket(t, Available, amount);
      if credited.Raised? {
        return credited.Outcome();
      }
      PostedAs(old(db.State()), db.State(), t, Buckets(amount, 0, -amount, 0, 0),
               [], []);
      return Ok(());
    }

    method CompleteDisbursement(t: TenantId, amount: int, id: nat) returns (r: Result<()>)
      requires WalletRules.WalletsNonNegative(db.State())
      modifies db
      ensures Agrees(r, WalletRules.CompleteDisbursement(old(db.State()), t, amount, id), db.State())
    {
      if amount <= 0 {
        return Raised(DomainValidation);
      }
      LockedWallet(t);
      var _ :- MoveBucket(t, Reserved, -amount);
      var credited := MoveBucket(t, TotalDisbursed, amount);
      if credited.Raised? {
        return credited.Outcome();
      }
      db.ledger := db.ledger
                   + [LedgerEntry(t, Disbursement, Credit, Some(TotalDisbursed), amount, Some(credited.value),
                                  WithdrawalRef(id))];
      PostedAs(old(db.State()), db.State(), t, Buckets(0, 0, -amount, 0, amount),
               [LedgerEntry(t, Disbursement, Credit, Some(TotalDisbursed), amount, Some(credited.value),
                            WithdrawalRef(id))], []);
      return Ok(());
    }

    method ReverseDisbursement(t: TenantId, amount: int, id: nat) returns (r: Result<()>)
      requires WalletRules.WalletsNonNegative(db.State())
      modifies db
      ensures Agrees(r, WalletRules.ReverseDisbursement(old(db.State()), t, amount, id), db.State())
    {
      if amount <= 0 {
        return Raised(DomainValidation);
      }
      LockedWallet(t);
      var _ :- MoveBucket(t, TotalDisbursed, -amount);
      var credited := MoveBucket(t, Available, amount);
      if credited.Raised? {
        return credited.Outcome();
      }
      db.ledger := db.ledger
                   + [LedgerEntry(t, DisbursementReversal, Credit, Some(Available), amount, Some(credited.value),
                                  WithdrawalRef(id))];
      PostedAs(old(db.State()), db.State(), t, Buckets(amount, 0, 0, 0, -amount),
               [LedgerEntry(t, DisbursementReversal, Credit, Some(Available), amount, Some(credited.value),
                            WithdrawalRef(id))], []);
      return Ok(());
    }

    method RecordRefund(t: TenantId, amount: int, ref: Reference) returns (r: Result<()>)
      requires WalletRules.WalletsNonNegative(db.State())
      modifies db
      ensures Agrees(r, WalletRules.RecordRefund(old(db.State()), t, amount, ref), db.State())
    {
      if amount <= 0 {
        return Raised(DomainValidation);
      }
      LockedWallet(t);
      var newAvailable :- MoveBucket(t, Available, -amount);
      db.ledger := db.ledger + [LedgerEntry(t, Refund, Debit, Some(Available), amount, Some(newAvailable), ref)];
      PostedAs(old(db.State()), db.State(), t, Buckets(-amount, 0, 0, 0, 0),
               [LedgerEntry(t, Refund, Debit, Some(Available), amount, Some(newAvailable), ref)], []);
      return Ok(());
    }

    method RecordReversal(t: TenantId, amount: int, ref: Reference) returns (r: Result<()>)
      requires WalletRules.WalletsNonNegative(db.State())
      modifies db
      ensures Agrees(r, WalletRules.RecordReversal(old(db.State()), t, amount, ref), db.State())
    {
      if amount <= 0 {
        return Raised(DomainValidation);
      }
      LockedWallet(t);
      var newPending :- MoveBucket(t, Pending, -amount);
      db.ledger := db.ledger + [LedgerEntry(t, Reversal, Debit, Some(Pending), amount, Some(newPending), ref)];
      PostedAs(old(db.State()), db.State(), t, Buckets(0, -amount, 0, 0, 0),
               [LedgerEntry(t, Reversal, Debit, Some(Pending), amount, Some(newPending), ref)], []);
      return Ok(());
    }
  }

  // ----------------------------------------------------- commercial terms

  lemma {:induction false} DeactivatedFirst(terms: seq<Terms>, t: TenantId, i: nat)
    requires i <= |terms|
    requires forall k :: 0 <= k < i ==> !(terms[k].active && terms[k].tenant == t)
    requires i < |terms| ==> terms[i].active && terms[i].tenant == t
    ensures WalletRules.Deactivated(terms, t) == if i < |terms| then terms[i := terms[i].(active := false)] else terms
  {
    if |terms| > 0 && i > 0 {
      assert !(terms[0].active && terms[0].tenant == t);
      DeactivatedFirst(terms[1..], t, i - 1);
      assert terms == [terms[0]] + terms[1..];
    }
  }

  class CommercialTermsService {
    const db: Database

    constructor (db: Database)
      ensures this.db == db
    {
      this.db := db;
    }

    method SetCommissionRate(t: TenantId, rate: int) returns (r: Result<()>)
      modifies db
      ensures Agrees(r, WalletRules.SetCommissionRate(old(db.State()), t, rate), db.State())
    {
      if rate < 0 || rate > Money.FULL_RATE {
        return Raised(DomainValidation);
      }
      var current := 0;
      while current < |db.terms| && !(db.terms[current].active && db.terms[current].tenant == t)
        invariant 0 <= current <= |db.terms|
        invariant forall k :: 0 <= k < current ==> !(db.terms[k].active && db.terms[k].tenant == t)
      {
        current := current + 1;
      }
      DeactivatedFirst(db.terms, t, current);
      if current < |db.terms| {
        db.terms := db.terms[current := db.terms[current].(active := false)];
      }
      db.terms := db.terms + [Terms(t, rate, true)];
      return Ok(());
    }
  }
}
