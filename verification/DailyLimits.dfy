/** The daily withdrawal limits over whole runs, and where they end. */
module DailyLimits {
  import opened Basics
  import opened Records
  import opened WalletRules
  import opened PayoutRules
  import opened Lifecycle
  import opened Invariants
  import opened Platform
  import opened PayoutTheorems

  /** The k-th UTC day, counted in microseconds. */
  predicate OnDay(at: Time, k: int) {
    k * 86_400_000_000 <= at < (k + 1) * 86_400_000_000
  }

  function DayNumber(at: Time): (k: int)
    ensures OnDay(at, k) && forall n :: OnDay(at, n) ==> n == k
  {
    at / 86_400_000_000
  }

  /** Midnight, as the limits compute it, is where the day of that number starts. */
  lemma DayStartIs(now: Time)
    ensures DayStart(now) == DayNumber(now) * 86_400_000_000
  {
  }

  /** A withdrawal's weight in the totals of one UTC day: its amount, or one. */
  function DayWeight(t: TenantId, k: int, counting: bool): Withdrawal -> int {
    (w: Withdrawal) =>
      if w.tenant == t && OnDay(w.createdAt, k) && w.status !in {Failed, Rejected, Cancelled}
      then (if counting then 1 else w.amount) else 0
  }

  /** Its weight in the totals from the start of that day on. */
  function SinceWeight(t: TenantId, k: int, counting: bool): Withdrawal -> int {
    (w: Withdrawal) =>
      if w.tenant == t && k * 86_400_000_000 <= w.createdAt && w.status !in {Failed, Rejected, Cancelled}
      then (if counting then 1 else w.amount) else 0
  }

  /** What daily_totals counts at a moment is what was stored since that day's start. */
  lemma {:induction false} CountedSince(ws: seq<Withdrawal>, t: TenantId, now: Time)
    ensures Total(CountedAmount(t, DayStart(now)), ws) == Total(SinceWeight(t, DayNumber(now), false), ws)
    ensures Total(CountedOne(t, DayStart(now)), ws) == Total(SinceWeight(t, DayNumber(now), true), ws)
  {
    DayStartIs(now);
    TotalSame(CountedAmount(t, DayStart(now)), SinceWeight(t, DayNumber(now), false), ws);
    TotalSame(CountedOne(t, DayStart(now)), SinceWeight(t, DayNumber(now), true), ws);
  }

  function LimitOf(cfg: Settings, counting: bool): Option<int> {
    if counting then cfg.dailyCount else cfg.dailyLimit
  }

  function Max(a: int, b: int): int {
    if a < b then b else a
  }

  /** What counts on one day counts from the start of that day on. */
  lemma {:induction false} DayWithinSince(ws: seq<Withdrawal>, t: TenantId, day: int, counting: bool)
    requires forall k :: 0 <= k < |ws| ==> ws[k].amount > 0
    ensures Total(DayWeight(t, day, counting), ws) <= Total(SinceWeight(t, day, counting), ws)
  {
    TotalMonotone(DayWeight(t, day, counting), ws, SinceWeight(t, day, counting), ws);
  }

  /** Voided withdrawals stay voided, so a day's totals never rise except by a request. */
  lemma DayTotalsFall(db: Db, db': Db, t: TenantId, day: int, counting: bool)
    requires Inv(db) && PayoutsLater(db, db') && |db'.withdrawals| == |db.withdrawals|
    ensures Total(DayWeight(t, day, counting), db'.withdrawals) <= Total(DayWeight(t, day, counting), db.withdrawals)
  {
    var f := DayWeight(t, day, counting);
    forall k | 0 <= k < |db.withdrawals|
      ensures f(db'.withdrawals[k]) <= f(db.withdrawals[k])
    {
      assert RowLater(db.withdrawals[k], db'.withdrawals[k]);
      RowIsOk(db, k);
    }
    TotalMonotone(f, db'.withdrawals, f, db.withdrawals);
  }

  // ------------------------------------------------------ across midnight

  /** A request is stored on the day its transaction started, and checked against the day
      it reads the clock. */
  predicate Straddles(call: Call) {
    && call.op.Payout? && call.op.payout.Request?
    && DayNumber(call.now - call.op.payout.waited) != DayNumber(call.now)
  }

  /** What a committed request across midnight adds, unchecked, to the day it is stored on. */
  function StraddleWeight(db: Db, call: Call, t: TenantId, day: int, counting: bool): nat {
    if Requests(db, call) && Straddles(call) && call.op.payout.tenant == t
       && DayNumber(call.now - call.op.payout.waited) == day && call.op.payout.amount > 0
    then (if counting then 1 else call.op.payout.amount) else 0
  }

  function Straddled(w: World, calls: seq<Call>, t: TenantId, day: int, counting: bool): nat {
    if |calls| == 0 then 0 else
    var n := |calls| - 1;
    Straddled(w, calls[..n], t, day, counting) + StraddleWeight(Run(w, calls[..n]).db, calls[n], t, day, counting)
  }

  lemma RequestOnDay(db: Db, call: Call, t: TenantId, day: int, counting: bool, limit: int, straddled: nat)
    requires Inv(db) && Requests(db, call) && LimitOf(call.cfg, counting) == Some(limit)
    requires Total(DayWeight(t, day, counting), db.withdrawals) <= Max(0, limit) + straddled
    ensures Total(DayWeight(t, day, counting), After(db, call).withdrawals)
            <= Max(0, limit) + straddled + StraddleWeight(db, call, t, day, counting)
  {
    var row := RequestAdds(db, call);
    OneMore(db, row, call.cfg, call.now, t, day, counting, limit, Max(0, limit) + straddled);
  }

  /** One more row on a day: checked on that day it stays within the limit, and otherwise
      it adds its weight. */
  lemma OneMore(db: Db, row: Withdrawal, cfg: Settings, now: Time, t: TenantId, day: int, counting: bool, limit: int,
                bound: int)
    requires Inv(db) && row.amount > 0 && LimitOf(cfg, counting) == Some(limit) && limit <= bound
    requires WithinLimits(db, cfg, row.tenant, row.amount, now)
    requires Total(DayWeight(t, day, counting), db.withdrawals) <= bound
    ensures Total(DayWeight(t, day, counting), db.withdrawals + [row])
            <= bound + if DayNumber(row.createdAt) == DayNumber(now) then 0 else DayWeight(t, day, counting)(row)
  {
    var f := DayWeight(t, day, counting);
    TotalConcat(f, db.withdrawals, [row]);
    TotalOne(f, row);
    if DayNumber(row.createdAt) == DayNumber(now) {
      CheckedOnDay(db, cfg, row.tenant, row.amount, now, counting, limit);
    }
  }

  /** A request that goes through was within the limits, and stores one row on the day its
      transaction started. */
  lemma RequestAdds(db: Db, call: Call) returns (row: Withdrawal)
    requires Requests(db, call)
    ensures After(db, call).withdrawals == db.withdrawals + [row]
    ensures var op := call.op.payout;
            && row.tenant == op.tenant && row.amount == op.amount > 0 && row.createdAt == call.now - op.waited
            && WithinLimits(db, call.cfg, op.tenant, op.amount, call.now)
  {
    row := After(db, call).withdrawals[|db.withdrawals|];
  }

  /** What is checked against today fits into today. */
  lemma CheckedOnDay(db: Db, cfg: Settings, t: TenantId, amount: int, now: Time, counting: bool, limit: int)
    requires Inv(db) && WithinLimits(db, cfg, t, amount, now) && LimitOf(cfg, counting) == Some(limit)
    ensures Total(DayWeight(t, DayNumber(now), counting), db.withdrawals) + (if counting then 1 else amount) <= limit
  {
    forall k | 0 <= k < |db.withdrawals|
      ensures db.withdrawals[k].amount > 0
    {
      RowIsOk(db, k);
    }
    DayWithinSince(db.withdrawals, t, DayNumber(now), counting);
    CountedSince(db.withdrawals, t, now);
  }

  lemma DayTotalStep(w: World, call: Call, t: TenantId, day: int, counting: bool, limit: int, straddled: nat)
    requires WorldInv(w) && LimitOf(call.cfg, counting) == Some(limit)
    requires Total(DayWeight(t, day, counting), w.db.withdrawals) <= Max(0, limit) + straddled
    ensures Total(DayWeight(t, day, counting), Next(w, call).db.withdrawals)
            <= Max(0, limit) + straddled + StraddleWeight(w.db, call, t, day, counting)
  {
    NextKeeps(w, call);
    NextIsStep(w, call);
    if Requests(w.db, call) {
      RequestOnDay(w.db, call, t, day, counting, limit, straddled);
    } else {
      StepElsewhere(w.db, call);
      DayTotalsFall(w.db, Next(w, call).db, t, day, counting);
    }
  }

  lemma {:induction false} DayTotalNext(calls: seq<Call>, t: TenantId, day: int, counting: bool, limit: int)
    requires |calls| > 0 && LimitOf(calls[|calls| - 1].cfg, counting) == Some(limit)
    requires var before := calls[..|calls| - 1];
             Total(DayWeight(t, day, counting), Run(START, before).db.withdrawals)
             <= Max(0, limit) + Straddled(START, before, t, day, counting)
    ensures Total(DayWeight(t, day, counting), Run(START, calls).db.withdrawals)
            <= Max(0, limit) + Straddled(START, calls, t, day, counting)
  {
    var before := calls[..|calls| - 1];
    Reachable(before);
    DayTotalStep(Run(START, before), calls[|calls| - 1], t, day, counting, limit,
                 Straddled(START, before, t, day, counting));
  }

  /** With one of the limits fixed, over every run, a day's withdrawals that were not voided
      stay within it, but for what was requested across the midnight that ends the day. */
  lemma {:induction false} DayTotalBounded(calls: seq<Call>, t: TenantId, day: int, counting: bool, limit: int)
    requires forall k :: 0 <= k < |calls| ==> LimitOf(calls[k].cfg, counting) == Some(limit)
    ensures Total(DayWeight(t, day, counting), Run(START, calls).db.withdrawals)
            <= Max(0, limit) + Straddled(START, calls, t, day, counting)
  {
    if |calls| > 0 {
      var n := |calls| - 1;
      DayTotalBounded(calls[..n], t, day, counting, limit);
      assert LimitOf(calls[n].cfg, counting) == Some(limit);
      DayTotalNext(calls, t, day, counting, limit);
    }
  }

  lemma {:induction false} NoneStraddled(calls: seq<Call>, t: TenantId, day: int, counting: bool)
    requires forall k :: 0 <= k < |calls| && Straddles(calls[k]) ==> !Requests(Run(START, calls[..k]).db, calls[k])
    ensures Straddled(START, calls, t, day, counting) == 0
  {
    if |calls| > 0 {
      var n := |calls| - 1;
      forall k | 0 <= k < n
        ensures calls[..n][..k] == calls[..k] && calls[..n][k] == calls[k]
      {
      }
      NoneStraddled(calls[..n], t, day, counting);
    }
  }

  /** With the daily limits fixed and no committed request across midnight, in every
      reachable state and for every tenant and UTC day, the day's withdrawals that were
      not voided stay within both limits. */
  lemma {:induction false} DailyLimitsHold(calls: seq<Call>, limit: int, count: int, t: TenantId, day: int)
    requires limit >= 0 && count >= 0
    requires forall k :: 0 <= k < |calls| ==>
               calls[k].cfg.dailyLimit == Some(limit) && calls[k].cfg.dailyCount == Some(count)
    requires forall k :: 0 <= k < |calls| && Straddles(calls[k]) ==> !Requests(Run(START, calls[..k]).db, calls[k])
    ensures Total(DayWeight(t, day, false), Run(START, calls).db.withdrawals) <= limit
    ensures Total(DayWeight(t, day, true), Run(START, calls).db.withdrawals) <= count
  {
    DayTotalBounded(calls, t, day, false, limit);
    DayTotalBounded(calls, t, day, true, count);
    NoneStraddled(calls, t, day, false);
    NoneStraddled(calls, t, day, true);
  }

  // ------------------------------------------------------------ refusals

  /** Whether what the tenant has stored since the start of a day leaves room for more. */
  predicate LeavesRoom(db: Db, cfg: Settings, t: TenantId, amount: int, k: int) {
    && (cfg.dailyLimit.Some? ==>
          Total(SinceWeight(t, k, false), db.withdrawals) + amount <= cfg.dailyLimit.value)
    && (cfg.dailyCount.Some? ==>
          Total(SinceWeight(t, k, true), db.withdrawals) + 1 <= cfg.dailyCount.value)
  }

  /** The limits let a request through exactly when it is between the smallest and the
      largest amount and the day it reads the clock on has room for it. */
  lemma WithinLimitsIff(db: Db, cfg: Settings, t: TenantId, amount: int, now: Time, k: int)
    requires OnDay(now, k)
    ensures WithinLimits(db, cfg, t, amount, now) <==>
              && (cfg.minAmount.Some? ==> cfg.minAmount.value <= amount)
              && (cfg.maxAmount.Some? ==> amount <= cfg.maxAmount.value)
              && LeavesRoom(db, cfg, t, amount, k)
  {
    assert k == DayNumber(now);
    CountedSince(db.withdrawals, t, now);
  }

  /** A full day refuses: what the tenant has stored since its start, and not voided,
      leaves no room under one of the limits. */
  lemma FullDayRefuses(db: Db, call: Call, k: int)
    requires call.op.Payout? && call.op.payout.Request?
    requires k * 86_400_000_000 <= call.now < (k + 1) * 86_400_000_000
    requires var t, amount, ws := call.op.payout.tenant, call.op.payout.amount, db.withdrawals;
             || (call.cfg.dailyLimit.Some? && Total(SinceWeight(t, k, false), ws) + amount > call.cfg.dailyLimit.value)
             || (call.cfg.dailyCount.Some? && Total(SinceWeight(t, k, true), ws) + 1 > call.cfg.dailyCount.value)
    ensures StepDb(db, call) == Raised(DomainValidation)
  {
    WithinLimitsIff(db, call.cfg, call.op.payout.tenant, call.op.payout.amount, call.now, k);
  }
}
