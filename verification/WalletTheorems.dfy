/** Whole-run guarantees of the wallets and the ledger. */
module WalletTheorems {
  import opened Basics
  import opened Records
  import opened WalletRules
  import opened PayoutRules
  import opened Books
  import opened Lifecycle
  import opened Invariants
  import opened Platform

  /** In every reachable state each balance is non-negative and is exactly what the
      ledger, the settlement logs and the withdrawals' statuses say it is. */
  lemma {:induction false} BalancesReconstructed(calls: seq<Call>, t: TenantId)
    ensures var db := Run(START, calls).db;
            var wallet, ws := WalletOf(db, t), db.withdrawals;
            && wallet.NonNegative()
            && wallet.available == Net(db, t, Available) + Settled(db, t) - Total(LiveAmount(t), ws)
            && wallet.pending == Net(db, t, Pending) - Settled(db, t)
            && wallet.reserved == Net(db, t, Reserved) + Total(HeldAmount(t), ws)
            && wallet.frozen == Net(db, t, Frozen)
            && wallet.totalDisbursed == Net(db, t, TotalDisbursed) - Total(ReversedAmount(t), ws)
  {
    Reachable(calls);
    BucketEquations(Run(START, calls).db, t);
  }

  /** Over every run, the five buckets together hold exactly what came in less what
      went out. */
  lemma {:induction false} MoneyConservedAlways(calls: seq<Call>, t: TenantId)
    ensures var db := Run(START, calls).db;
            WalletTotal(WalletOf(db, t)) == Total(ExternalIn(t), db.ledger)
  {
    Reachable(calls);
    MoneyConserved(Run(START, calls).db, t);
  }

  /** The wallet model documents a balance as ledger credits minus debits. It is that
      exactly when the other sources cancel out, bucket by bucket. */
  lemma {:induction false} LedgerAloneIff(calls: seq<Call>, t: TenantId)
    ensures var db := Run(START, calls).db;
            var wallet, ws := WalletOf(db, t), db.withdrawals;
            && (wallet.available == Net(db, t, Available) <==> Settled(db, t) == Total(LiveAmount(t), ws))
            && (wallet.pending == Net(db, t, Pending) <==> Settled(db, t) == 0)
            && (wallet.reserved == Net(db, t, Reserved) <==> Total(HeldAmount(t), ws) == 0)
            && (wallet.totalDisbursed == Net(db, t, TotalDisbursed) <==> Total(ReversedAmount(t), ws) == 0)
  {
    BalancesReconstructed(calls, t);
  }

  /** The documented equation fails at the first settlement: from any database that
      satisfies it, crediting x > 0 cents to pending keeps it, and settling them breaks
      it in both buckets the settlement touches. */
  lemma LedgerAloneFails(db: Db, t: TenantId, x: int, reason: string, credited: Db, settled: Db)
    requires WalletOf(db, t).NonNegative()
    requires forall b :: WalletOf(db, t).Get(b) == Net(db, t, b)
    requires x > 0 && !Blank(reason)
    requires CreateAdjustment(db, t, Pending, Credit, x, reason, NoReference) == Ok(credited)
    requires SettlePending(credited, t, Some(x)) == Ok(settled)
    ensures forall b :: WalletOf(credited, t).Get(b) == Net(credited, t, b)
    ensures WalletOf(settled, t).Get(Available) == Net(settled, t, Available) + x
    ensures WalletOf(settled, t).Get(Pending) == Net(settled, t, Pending) - x
  {
    var d := EMPTY_WALLET.Set(Pending, x);
    var e := LedgerEntry(t, Adjustment, Credit, Some(Pending), x,
                         Some(WalletOf(db, t).Get(Pending) + x), NoReference);
    forall b
      ensures WalletOf(credited, t).Get(b) == Net(credited, t, b)
    {
      TotalConcat(EntryIn(t, b), db.ledger, [e]);
      TotalOne(EntryIn(t, b), e);
    }
    assert settled.ledger == credited.ledger + [];
    assert settled.ledger == credited.ledger;
    assert WalletOf(settled, t) == WalletOf(credited, t).Plus(Buckets(x, -x, 0, 0, 0));
  }

  /** Both calls of LedgerAloneFails always go through. */
  lemma LedgerAloneFailsFrom(db: Db, t: TenantId, x: int, reason: string)
    requires WalletOf(db, t).NonNegative()
    requires x > 0 && !Blank(reason)
    ensures var credited := CreateAdjustment(db, t, Pending, Credit, x, reason, NoReference);
            credited.Ok? && SettlePending(credited.value, t, Some(x)).Ok?
  {
    var d := EMPTY_WALLET.Set(Pending, x);
    assert WalletOf(db, t).Plus(d).NonNegative();
  }

  // --------------------------------------------------- no hold gets stuck

  /** Releasing or completing a held withdrawal succeeds exactly when the manual
      adjustments of reserved have not eaten into the other holds and this one. */
  lemma HoldMovesIff(db: Db, id: nat, to: WithdrawalStatus, actor: Option<ActorId>)
    requires Inv(db) && id < |db.withdrawals| && Held(db.withdrawals[id].status)
    requires Voided(to) || to.Success?
    ensures var w := db.withdrawals[id];
            ShiftTo(db, id, to, actor).Ok?
            <==> Adjusted(db, w.tenant, Reserved) + Total(HeldAmount(w.tenant), db.withdrawals) >= w.amount
  {
    var w := db.withdrawals[id];
    RowIsOk(db, id);
    HoldEquations(db, w.tenant);
    BookPosts(db, w.tenant, to, w.amount, id);
  }

  /** While adjustments of reserved are not net negative, no hold can get stuck. */
  lemma HoldsNeverStick(db: Db, id: nat, to: WithdrawalStatus, actor: Option<ActorId>)
    requires Inv(db) && id < |db.withdrawals| && Held(db.withdrawals[id].status)
    requires Voided(to) || to.Success?
    requires Adjusted(db, db.withdrawals[id].tenant, Reserved) >= 0
    ensures ShiftTo(db, id, to, actor).Ok?
  {
    var t := db.withdrawals[id].tenant;
    HoldMovesIff(db, id, to, actor);
    forall k | 0 <= k < |db.withdrawals|
      ensures 0 <= HeldAmount(t)(db.withdrawals[k])
    {
      RowIsOk(db, k);
    }
    TotalAtLeast(HeldAmount(t), db.withdrawals, id);
  }

  lemma ReversalMovesIff(db: Db, id: nat, actor: Option<ActorId>)
    requires Inv(db) && id < |db.withdrawals| && db.withdrawals[id].status.Success?
    ensures var w := db.withdrawals[id];
            ShiftTo(db, id, Reversed, actor).Ok?
            <==> Adjusted(db, w.tenant, TotalDisbursed) + Total(SuccessAmount(w.tenant), db.withdrawals) >= w.amount
  {
    var w := db.withdrawals[id];
    RowIsOk(db, id);
    HoldEquations(db, w.tenant);
    BookPosts(db, w.tenant, Reversed, w.amount, id);
  }

  /** While adjustments of total_disbursed are not net negative, every success can be reversed. */
  lemma ReversalsNeverStick(db: Db, id: nat, actor: Option<ActorId>)
    requires Inv(db) && id < |db.withdrawals| && db.withdrawals[id].status.Success?
    requires Adjusted(db, db.withdrawals[id].tenant, TotalDisbursed) >= 0
    ensures ShiftTo(db, id, Reversed, actor).Ok?
  {
    var t := db.withdrawals[id].tenant;
    ReversalMovesIff(db, id, actor);
    forall k | 0 <= k < |db.withdrawals|
      ensures 0 <= SuccessAmount(t)(db.withdrawals[k])
    {
      RowIsOk(db, k);
    }
    TotalAtLeast(SuccessAmount(t), db.withdrawals, id);
  }

  /** One DISBURSEMENT entry per disbursed withdrawal and one reversal per reversed one,
      always of the principal, over every run. */
  lemma {:induction false} DisbursedExactlyOnce(calls: seq<Call>, id: nat)
    requires id < |Run(START, calls).db.withdrawals|
    ensures var db := Run(START, calls).db;
            var w, es := db.withdrawals[id], PayoutsOf(db, id);
            && (w.status.Success? <==> |es| == 1) && (w.status.Reversed? <==> |es| == 2)
            && (|es| > 0 ==> Paying(es[0], w)) && (|es| == 2 ==> Returning(es[1], w)) && |es| <= 2
  {
    Reachable(calls);
    var db := Run(START, calls).db;
    assert PayoutEntriesOk(db.withdrawals[id], PayoutsOf(db, id));
  }

  /** The ledger and the settlement logs are append-only, so no recorded split is
      ever altered, by a rate change or anything else. */
  lemma {:induction false} LedgerOnlyGrows(w: World, calls: seq<Call>)
    requires WorldInv(w)
    ensures w.db.ledger <= Run(w, calls).db.ledger
    ensures w.db.settlements <= Run(w, calls).db.settlements
  {
    RunKeeps(w, calls);
  }
}
