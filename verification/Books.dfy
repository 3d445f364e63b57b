/** Why every wallet bucket has the value it has. */
module Books {
  import opened Basics
  import opened Records
  import opened WalletRules
  import opened PayoutRules

  // ------------------------------------- the four sources of a balance

  /** What a settlement log moved into bucket b. */
  function LogIn(t: TenantId, b: Bucket): Settlement -> int {
    (s: Settlement) =>
      if s.tenant != t then 0 else if b.Available? then s.amount else if b.Pending? then -s.amount else 0
  }

  /** What a withdrawal's status alone says about bucket b, beyond the ledger. */
  function RowIn(t: TenantId, b: Bucket): Withdrawal -> int {
    (w: Withdrawal) =>
      if w.tenant != t then 0
      else if b.Available? && !Voided(w.status) then -w.amount
      else if b.Reserved? && Held(w.status) then w.amount
      else if b.TotalDisbursed? && w.status.Reversed? then -w.amount
      else 0
  }

  function Explained(db: Db, t: TenantId, b: Bucket): int {
    Net(db, t, b) + Total(LogIn(t, b), db.settlements) + Total(RowIn(t, b), db.withdrawals)
  }

  predicate ReconstructsAt(db: Db, t: TenantId, b: Bucket) {
    WalletOf(db, t).Get(b) == Explained(db, t, b)
  }

  ghost predicate Reconstructs(db: Db) {
    forall t, b :: ReconstructsAt(db, t, b)
  }

  /** A change of tenant t's wallet is justified when the new entries, logs and
      rows account for it, and account for nothing of anyone else's. */
  predicate JustifiedAt(u: TenantId, b: Bucket, t: TenantId, d: Buckets, entries: seq<LedgerEntry>,
                        logs: seq<Settlement>,
                        before: seq<Withdrawal>, after: seq<Withdrawal>)
  {
    Total(EntryIn(u, b), entries) + Total(LogIn(u, b), logs)
    + Total(RowIn(u, b), after) - Total(RowIn(u, b), before)
    == if u == t then d.Get(b) else 0
  }

  ghost predicate Justified(t: TenantId, d: Buckets, entries: seq<LedgerEntry>, logs: seq<Settlement>,
                            before: seq<Withdrawal>, after: seq<Withdrawal>)
  {
    forall u, b :: JustifiedAt(u, b, t, d, entries, logs, before, after)
  }

  lemma {:induction false} JustifiedPostKeeps(db: Db, t: TenantId, d: Buckets, entries: seq<LedgerEntry>,
                                              logs: seq<Settlement>,
                           after: seq<Withdrawal>, db': Db)
    requires Reconstructs(db)
    requires Justified(t, d, entries, logs, db.withdrawals, after)
    requires db'.ledger == db.ledger + entries && db'.settlements == db.settlements + logs && db'.withdrawals == after
    requires forall u :: WalletOf(db', u) == if u == t then WalletOf(db, t).Plus(d) else WalletOf(db, u)
    ensures Reconstructs(db')
  {
    forall u, b
      ensures ReconstructsAt(db', u, b)
    {
      TotalConcat(EntryIn(u, b), db.ledger, entries);
      TotalConcat(LogIn(u, b), db.settlements, logs);
      assert ReconstructsAt(db, u, b);
      assert JustifiedAt(u, b, t, d, entries, logs, db.withdrawals, after);
    }
  }

  // ------------------------------------------------ the ledger's vocabulary

  /** Which bucket each type of entry moves, and which way; only adjustments may
      move any bucket either way. */
  predicate EntryOk(e: LedgerEntry) {
    match e.entryType
    case Collection => e.bucket.None?
    case PlatformFee => e.bucket.None?
    case TenantShare => e.bucket == Some(Pending) && e.direction.Credit?
    case Refund => e.bucket == Some(Available) && e.direction.Debit?
    case Reversal => e.bucket == Some(Pending) && e.direction.Debit?
    case Disbursement => e.bucket == Some(TotalDisbursed) && e.direction.Credit?
    case DisbursementReversal => e.bucket == Some(Available) && e.direction.Credit?
    case Adjustment => e.bucket.Some?
  }

  function AdjustmentIn(t: TenantId, b: Bucket): LedgerEntry -> int {
    (e: LedgerEntry) => if e.tenant == t && e.bucket == Some(b) && e.entryType.Adjustment? then Signed(e) else 0
  }

  /** What the ledger says was disbursed or, with `back`, returned by a reversal. */
  function PaidIn(t: TenantId, back: bool): LedgerEntry -> int {
    (e: LedgerEntry) =>
      if e.tenant == t && (if back then e.entryType.DisbursementReversal? else e.entryType.Disbursement?) then e.amount
      else 0
  }

  /** What the statuses say: disbursed, whether or not reversed later; or reversed. */
  function PaidRow(t: TenantId, back: bool): Withdrawal -> int {
    (w: Withdrawal) =>
      if w.tenant == t && (w.status.Reversed? || (!back && w.status.Success?)) then w.amount else 0
  }

  ghost predicate LedgerOk(db: Db) {
    && (forall k :: 0 <= k < |db.ledger| ==> EntryOk(db.ledger[k]))
    && (forall t, back :: Total(PaidIn(t, back), db.ledger) == Total(PaidRow(t, back), db.withdrawals))
  }

  lemma {:induction false} LedgerGrows(db: Db, db': Db, entries: seq<LedgerEntry>)
    requires LedgerOk(db)
    requires db'.ledger == db.ledger + entries
    requires forall k :: 0 <= k < |entries| ==> EntryOk(entries[k])
    requires forall t, back :: Total(PaidIn(t, back), entries)
                               == Total(PaidRow(t, back), db'.withdrawals) - Total(PaidRow(t, back), db.withdrawals)
    ensures LedgerOk(db')
  {
    forall t, back
      ensures Total(PaidIn(t, back), db'.ledger) == Total(PaidRow(t, back), db'.withdrawals)
    {
      TotalConcat(PaidIn(t, back), db.ledger, entries);
    }
  }

  // ------------------------------------- status changes and their bookings

  predicate Edge(from: WithdrawalStatus, to: WithdrawalStatus) {
    match from
    case Draft => to.PendingApproval? || to.Approved? || to.Cancelled?
    case PendingApproval => to.Approved? || to.Rejected? || to.Cancelled?
    case Approved => to.Processing? || to.Failed?
    case Processing => to.Success? || to.Ambiguous? || to.Failed?
    case Ambiguous => to.Success? || to.Ambiguous? || to.Failed?
    case Success => to.Reversed?
    case _ => false
  }

  predicate Moves(to: WithdrawalStatus) {
    Voided(to) || to.Success? || to.Reversed?
  }

  function BookDelta(to: WithdrawalStatus, a: int): Buckets
    requires Moves(to)
  {
    if Voided(to) then Buckets(a, 0, -a, 0, 0)
    else if to.Success? then Buckets(0, 0, -a, 0, a)
    else Buckets(a, 0, 0, 0, -a)
  }

  /** The entry, if any, that reaching a status writes. */
  function BookEntries(db: Db, t: TenantId, to: WithdrawalStatus, a: int, id: nat): seq<LedgerEntry> {
    if to.Success? then
      [LedgerEntry(t, Disbursement, Credit, Some(TotalDisbursed), a,
                   Some(WalletOf(db, t).totalDisbursed + a), WithdrawalRef(id))]
    else if to.Reversed? then
      [LedgerEntry(t, DisbursementReversal, Credit, Some(Available), a,
                   Some(WalletOf(db, t).available + a), WithdrawalRef(id))]
    else []
  }

  lemma BookPosts(db: Db, t: TenantId, to: WithdrawalStatus, a: int, id: nat)
    requires a > 0
    ensures Book(db, t, to, a, id)
            == if Moves(to) then Post(db, t, BookDelta(to, a), BookEntries(db, t, to, a, id), []) else Ok(db)
  {
  }

  lemma BookingJustified(db: Db, id: nat, row: Withdrawal, u: TenantId, b: Bucket)
    requires id < |db.withdrawals|
    requires Edge(db.withdrawals[id].status, row.status) && Moves(row.status)
    requires row.tenant == db.withdrawals[id].tenant && row.amount == db.withdrawals[id].amount
    ensures JustifiedAt(u, b, row.tenant, BookDelta(row.status, row.amount),
                        BookEntries(db, row.tenant, row.status, row.amount, id), [],
                        db.withdrawals, db.withdrawals[id := row])
  {
    var entries := BookEntries(db, row.tenant, row.status, row.amount, id);
    TotalUpdate(RowIn(u, b), db.withdrawals, id, row);
    if |entries| > 0 {
      TotalOne(EntryIn(u, b), entries[0]);
    }
  }

  lemma BookingCounted(db: Db, id: nat, row: Withdrawal, u: TenantId, back: bool)
    requires id < |db.withdrawals|
    requires Edge(db.withdrawals[id].status, row.status)
    requires row.tenant == db.withdrawals[id].tenant && row.amount == db.withdrawals[id].amount
    ensures Total(PaidIn(u, back), BookEntries(db, row.tenant, row.status, row.amount, id))
            == Total(PaidRow(u, back), db.withdrawals[id := row]) - Total(PaidRow(u, back), db.withdrawals)
  {
    var entries := BookEntries(db, row.tenant, row.status, row.amount, id);
    TotalUpdate(PaidRow(u, back), db.withdrawals, id, row);
    if |entries| > 0 {
      TotalOne(PaidIn(u, back), entries[0]);
    }
  }

  /** Rewriting a row without changing whose it is, its amount, or what its status
      says about the wallet leaves every balance explained. */
  lemma RelabelKeepsBooks(db: Db, id: nat, row: Withdrawal, db': Db)
    requires Reconstructs(db) && LedgerOk(db)
    requires id < |db.withdrawals|
    requires row.tenant == db.withdrawals[id].tenant && row.amount == db.withdrawals[id].amount
    requires row.status == db.withdrawals[id].status || (Held(row.status) && Held(db.withdrawals[id].status))
    requires db'.wallets == db.wallets && db'.ledger == db.ledger && db'.settlements == db.settlements
    requires db'.withdrawals == db.withdrawals[id := row]
    ensures Reconstructs(db') && LedgerOk(db')
  {
    forall u, b
      ensures ReconstructsAt(db', u, b)
    {
      assert ReconstructsAt(db, u, b);
      TotalUpdate(RowIn(u, b), db.withdrawals, id, row);
    }
    forall u, back
      ensures Total(PaidIn(u, back), db'.ledger) == Total(PaidRow(u, back), db'.withdrawals)
    {
      TotalUpdate(PaidRow(u, back), db.withdrawals, id, row);
    }
  }

  lemma ShiftKeepsBooks(db: Db, id: nat, row: Withdrawal, actor: Option<ActorId>)
    requires Reconstructs(db) && LedgerOk(db)
    requires id < |db.withdrawals|
    requires Edge(db.withdrawals[id].status, row.status)
    requires row.tenant == db.withdrawals[id].tenant && row.amount == db.withdrawals[id].amount && row.amount > 0
    requires Shift(db, id, row, actor).Ok?
    ensures Reconstructs(Shift(db, id, row, actor).value) && LedgerOk(Shift(db, id, row, actor).value)
  {
    var db' := Shift(db, id, row, actor).value;
    BookPosts(db, row.tenant, row.status, row.amount, id);
    if Moves(row.status) {
      var d, entries := BookDelta(row.status, row.amount), BookEntries(db, row.tenant, row.status, row.amount, id);
      forall u, b
        ensures JustifiedAt(u, b, row.tenant, d, entries, [], db.withdrawals, db'.withdrawals)
      {
        BookingJustified(db, id, row, u, b);
      }
      JustifiedPostKeeps(db, row.tenant, d, entries, [], db'.withdrawals, db');
      forall u, back
        ensures Total(PaidIn(u, back), entries)
                == Total(PaidRow(u, back), db'.withdrawals) - Total(PaidRow(u, back), db.withdrawals)
      {
        BookingCounted(db, id, row, u, back);
      }
      LedgerGrows(db, db', entries);
    } else {
      RelabelKeepsBooks(db, id, row, db');
    }
  }

  /** Opening a withdrawal: the hold moves, and the new row explains it. */
  lemma OpenKeepsBooks(db: Db, row: Withdrawal, db': Db)
    requires Reconstructs(db) && LedgerOk(db)
    requires row.status.Draft?
    requires Reserve(db, row.tenant, row.amount).Ok?
    requires db'.wallets == Reserve(db, row.tenant, row.amount).value.wallets
    requires db'.ledger == db.ledger && db'.settlements == db.settlements
    requires db'.withdrawals == db.withdrawals + [row]
    ensures Reconstructs(db') && LedgerOk(db')
  {
    var d := Buckets(-row.amount, 0, row.amount, 0, 0);
    var reserved := Reserve(db, row.tenant, row.amount).value;
    forall u, b
      ensures JustifiedAt(u, b, row.tenant, d, [], [], db.withdrawals, db'.withdrawals)
    {
      TotalConcat(RowIn(u, b), db.withdrawals, [row]);
      TotalOne(RowIn(u, b), row);
    }
    assert Justified(row.tenant, d, [], [], db.withdrawals, db'.withdrawals);
    assert forall u :: WalletOf(db', u) == WalletOf(reserved, u);
    JustifiedPostKeeps(db, row.tenant, d, [], [], db'.withdrawals, db');
    forall u, back
      ensures Total(PaidIn(u, back), [])
              == Total(PaidRow(u, back), db'.withdrawals) - Total(PaidRow(u, back), db.withdrawals)
    {
      TotalConcat(PaidRow(u, back), db.withdrawals, [row]);
      TotalOne(PaidRow(u, back), row);
    }
    LedgerGrows(db, db', []);
  }

  /** A wallet operation that touches no withdrawal: its entries and logs explain it. */
  lemma {:induction false} PostKeepsBooks(db: Db, t: TenantId, d: Buckets, entries: seq<LedgerEntry>,
                                          logs: seq<Settlement>)
    requires Reconstructs(db) && LedgerOk(db)
    requires Post(db, t, d, entries, logs).Ok?
    requires Justified(t, d, entries, logs, [], [])
    requires forall k :: 0 <= k < |entries| ==> EntryOk(entries[k])
    requires forall k :: 0 <= k < |entries| ==>
               !entries[k].entryType.Disbursement? && !entries[k].entryType.DisbursementReversal?
    ensures Reconstructs(Post(db, t, d, entries, logs).value) && LedgerOk(Post(db, t, d, entries, logs).value)
  {
    var db' := Post(db, t, d, entries, logs).value;
    forall u, b
      ensures JustifiedAt(u, b, t, d, entries, logs, db.withdrawals, db.withdrawals)
    {
      assert JustifiedAt(u, b, t, d, entries, logs, [], []);
    }
    assert Justified(t, d, entries, logs, db.withdrawals, db.withdrawals);
    JustifiedPostKeeps(db, t, d, entries, logs, db.withdrawals, db');
    forall u, back
      ensures Total(PaidIn(u, back), entries) == 0
    {
      NoPayouts(u, back, entries);
    }
    LedgerGrows(db, db', entries);
  }

  lemma {:induction false} NoPayouts(t: TenantId, back: bool, entries: seq<LedgerEntry>)
    requires forall k :: 0 <= k < |entries| ==>
               !entries[k].entryType.Disbursement? && !entries[k].entryType.DisbursementReversal?
    ensures Total(PaidIn(t, back), entries) == 0
  {
    if |entries| > 0 {
      NoPayouts(t, back, entries[..|entries| - 1]);
    }
  }

  // ------------------------------------------------ the wallet operations

  lemma OneEntryPosted(db: Db, t: TenantId, b: Bucket, e: LedgerEntry)
    requires Reconstructs(db) && LedgerOk(db)
    requires e.tenant == t && e.bucket == Some(b)
    requires EntryOk(e) && !e.entryType.Disbursement? && !e.entryType.DisbursementReversal?
    requires Post(db, t, EMPTY_WALLET.Set(b, Signed(e)), [e], []).Ok?
    ensures var db' := Post(db, t, EMPTY_WALLET.Set(b, Signed(e)), [e], []).value; Reconstructs(db') && LedgerOk(db')
  {
    var d := EMPTY_WALLET.Set(b, Signed(e));
    forall u, c
      ensures JustifiedAt(u, c, t, d, [e], [], [], [])
    {
      TotalOne(EntryIn(u, c), e);
      assert EMPTY_WALLET.Get(c) == 0;
    }
    PostKeepsBooks(db, t, d, [e], []);
  }

  lemma CollectionKeepsBooks(db: Db, t: TenantId, gross: int, ref: Reference)
    requires Reconstructs(db) && LedgerOk(db)
    requires ProcessCollection(db, t, gross, ref).Ok?
    ensures var db' := ProcessCollection(db, t, gross, ref).value; Reconstructs(db') && LedgerOk(db')
  {
    var fee := Money.PlatformFee(gross, ActiveRate(db.terms, t).value);
    var d := Buckets(0, gross - fee, 0, 0, 0);
    var entries := CollectionEntries(t, gross, fee, WalletOf(db, t).pending + gross - fee, ref);
    forall u, b
      ensures JustifiedAt(u, b, t, d, entries, [], [], [])
    {
      CollectionJustified(u, b, t, gross, fee, WalletOf(db, t).pending + gross - fee, ref);
    }
    PostKeepsBooks(db, t, d, entries, []);
  }

  lemma CollectionJustified(u: TenantId, b: Bucket, t: TenantId, gross: int, fee: int, balance: int, ref: Reference)
    ensures JustifiedAt(u, b, t, Buckets(0, gross - fee, 0, 0, 0), CollectionEntries(t, gross, fee, balance, ref),
                        [], [], [])
  {
    var entries := CollectionEntries(t, gross, fee, balance, ref);
    TotalThree(EntryIn(u, b), entries[0], entries[1], entries[2]);
  }

  lemma TotalThree<T>(f: T -> int, x: T, y: T, z: T)
    ensures Total(f, [x, y, z]) == f(x) + f(y) + f(z)
  {
    TotalOne(f, x);
    assert [x, y, z][..2] == [x, y];
    assert [x, y][..1] == [x];
  }

  lemma SettlementKeepsBooks(db: Db, t: TenantId, amount: Option<int>)
    requires Reconstructs(db) && LedgerOk(db)
    requires SettlePending(db, t, amount).Ok?
    ensures var db' := SettlePending(db, t, amount).value; Reconstructs(db') && LedgerOk(db')
  {
    var x := if amount.Some? then amount.value else WalletOf(db, t).pending;
    var d, log := Buckets(x, -x, 0, 0, 0), Settlement(t, x);
    forall u, b
      ensures JustifiedAt(u, b, t, d, [], [log], [], [])
    {
      TotalOne(LogIn(u, b), log);
    }
    PostKeepsBooks(db, t, d, [], [log]);
  }

  lemma AdjustmentKeepsBooks(db: Db, t: TenantId, b: Bucket, dir: Direction, amount: int, reason: string,
                             ref: Reference)
    requires Reconstructs(db) && LedgerOk(db)
    requires CreateAdjustment(db, t, b, dir, amount, reason, ref).Ok?
    ensures var db' := CreateAdjustment(db, t, b, dir, amount, reason, ref).value; Reconstructs(db') && LedgerOk(db')
  {
    var delta := if dir.Credit? then amount else -amount;
    OneEntryPosted(db, t, b,
                   LedgerEntry(t, Adjustment, dir, Some(b), amount, Some(WalletOf(db, t).Get(b) + delta), ref));
  }

  lemma RefundKeepsBooks(db: Db, t: TenantId, amount: int, ref: Reference)
    requires Reconstructs(db) && LedgerOk(db)
    requires RecordRefund(db, t, amount, ref).Ok?
    ensures var db' := RecordRefund(db, t, amount, ref).value; Reconstructs(db') && LedgerOk(db')
  {
    OneEntryPosted(db, t, Available,
                   LedgerEntry(t, Refund, Debit, Some(Available), amount, Some(WalletOf(db, t).available - amount),
                               ref));
  }

  lemma ReversalKeepsBooks(db: Db, t: TenantId, amount: int, ref: Reference)
    requires Reconstructs(db) && LedgerOk(db)
    requires RecordReversal(db, t, amount, ref).Ok?
    ensures var db' := RecordReversal(db, t, amount, ref).value; Reconstructs(db') && LedgerOk(db')
  {
    OneEntryPosted(db, t, Pending,
                   LedgerEntry(t, Reversal, Debit, Some(Pending), amount, Some(WalletOf(db, t).pending - amount), ref));
  }

  // ------------------------------------------- what the invariant means

  function LiveAmount(t: TenantId): Withdrawal -> int {
    (w: Withdrawal) => if w.tenant == t && !Voided(w.status) then w.amount else 0
  }

  function HeldAmount(t: TenantId): Withdrawal -> int {
    (w: Withdrawal) => if w.tenant == t && Held(w.status) then w.amount else 0
  }

  function ReversedAmount(t: TenantId): Withdrawal -> int {
    (w: Withdrawal) => if w.tenant == t && w.status.Reversed? then w.amount else 0
  }

  lemma {:induction false} TotalNegated<T>(f: T -> int, g: T -> int, xs: seq<T>)
    requires forall i :: 0 <= i < |xs| ==> f(xs[i]) == -g(xs[i])
    ensures Total(f, xs) == -Total(g, xs)
  {
    if |xs| > 0 {
      assert f(xs[|xs| - 1]) == -g(xs[|xs| - 1]);
      TotalNegated(f, g, xs[..|xs| - 1]);
    }
  }

  lemma {:induction false} TotalZero<T>(f: T -> int, xs: seq<T>)
    requires forall i :: 0 <= i < |xs| ==> f(xs[i]) == 0
    ensures Total(f, xs) == 0
  {
    TotalNegated(f, f, xs);
  }

  /** The five balances, each from the ledger, the settlement logs and the
      statuses of the tenant's withdrawals. */
  lemma BucketEquations(db: Db, t: TenantId)
    requires Reconstructs(db)
    ensures WalletOf(db, t).available == Net(db, t, Available) + Settled(db, t) - Total(LiveAmount(t), db.withdrawals)
    ensures WalletOf(db, t).pending == Net(db, t, Pending) - Settled(db, t)
    ensures WalletOf(db, t).reserved == Net(db, t, Reserved) + Total(HeldAmount(t), db.withdrawals)
    ensures WalletOf(db, t).frozen == Net(db, t, Frozen)
    ensures WalletOf(db, t).totalDisbursed == Net(db, t, TotalDisbursed) - Total(ReversedAmount(t), db.withdrawals)
  {
    var ws, logs := db.withdrawals, db.settlements;
    assert ReconstructsAt(db, t, Available) && ReconstructsAt(db, t, Pending) && ReconstructsAt(db, t, Reserved)
        && ReconstructsAt(db, t, Frozen) && ReconstructsAt(db, t, TotalDisbursed);
    TotalNegated(RowIn(t, Available), LiveAmount(t), ws);
    TotalSame(LogIn(t, Available), SettledAmount(t), logs);
    TotalNegated(LogIn(t, Pending), SettledAmount(t), logs);
    TotalZero(RowIn(t, Pending), ws);
    TotalSame(RowIn(t, Reserved), HeldAmount(t), ws);
    TotalZero(LogIn(t, Reserved), logs);
    TotalZero(LogIn(t, Frozen), logs);
    TotalZero(RowIn(t, Frozen), ws);
    TotalNegated(RowIn(t, TotalDisbursed), ReversedAmount(t), ws);
    TotalZero(LogIn(t, TotalDisbursed), logs);
  }

  /** Manual corrections of one bucket, net. */
  function Adjusted(db: Db, t: TenantId, b: Bucket): int {
    Total(AdjustmentIn(t, b), db.ledger)
  }

  function SuccessAmount(t: TenantId): Withdrawal -> int {
    (w: Withdrawal) => if w.tenant == t && w.status.Success? then w.amount else 0
  }

  /** Reserved is the holds, total_disbursed the disbursements that stood, and
      each is off by exactly its manual adjustments. */
  lemma HoldEquations(db: Db, t: TenantId)
    requires Reconstructs(db) && LedgerOk(db)
    ensures WalletOf(db, t).reserved == Adjusted(db, t, Reserved) + Total(HeldAmount(t), db.withdrawals)
    ensures WalletOf(db, t).totalDisbursed == Adjusted(db, t, TotalDisbursed) + Total(SuccessAmount(t), db.withdrawals)
  {
    BucketEquations(db, t);
    assert forall k :: 0 <= k < |db.ledger| ==> EntryOk(db.ledger[k]);
    TotalSame(EntryIn(t, Reserved), AdjustmentIn(t, Reserved), db.ledger);
    DisbursedSplit(t, db.ledger);
    SuccessSplit(t, db.withdrawals);
  }

  lemma {:induction false} DisbursedSplit(t: TenantId, ledger: seq<LedgerEntry>)
    requires forall k :: 0 <= k < |ledger| ==> EntryOk(ledger[k])
    ensures Total(EntryIn(t, TotalDisbursed), ledger)
            == Total(AdjustmentIn(t, TotalDisbursed), ledger) + Total(PaidIn(t, false), ledger)
  {
    if |ledger| > 0 {
      assert EntryOk(ledger[|ledger| - 1]);
      DisbursedSplit(t, ledger[..|ledger| - 1]);
    }
  }

  lemma {:induction false} SuccessSplit(t: TenantId, ws: seq<Withdrawal>)
    ensures Total(PaidRow(t, false), ws) == Total(SuccessAmount(t), ws) + Total(ReversedAmount(t), ws)
  {
    if |ws| > 0 {
      SuccessSplit(t, ws[..|ws| - 1]);
    }
  }

  // --------------------------------------------------------- conservation

  /** Money that enters or leaves a tenant's wallet as a whole. */
  function ExternalIn(t: TenantId): LedgerEntry -> int {
    (e: LedgerEntry) =>
      if e.tenant != t then 0
      else match e.entryType
           case TenantShare => e.amount
           case Refund => -e.amount
           case Reversal => -e.amount
           case Adjustment => Signed(e)
           case _ => 0
  }

  function WalletTotal(w: Buckets): int {
    w.available + w.pending + w.reserved + w.frozen + w.totalDisbursed
  }

  /** Nothing is created or lost between buckets: the five of them always hold exactly
      the shares and adjustments that came in less the refunds and reversals that went
      out. Settling, reserving, releasing, disbursing and reversing only move money. */
  lemma MoneyConserved(db: Db, t: TenantId)
    requires Reconstructs(db) && LedgerOk(db)
    ensures WalletTotal(WalletOf(db, t)) == Total(ExternalIn(t), db.ledger)
  {
    BucketEquations(db, t);
    LedgerSplit(t, db.ledger);
    RowsSplit(t, db.withdrawals);
  }

  lemma {:induction false} LedgerSplit(t: TenantId, ledger: seq<LedgerEntry>)
    requires forall k :: 0 <= k < |ledger| ==> EntryOk(ledger[k])
    ensures Total(EntryIn(t, Available), ledger) + Total(EntryIn(t, Pending), ledger)
            + Total(EntryIn(t, Reserved), ledger)
            + Total(EntryIn(t, Frozen), ledger) + Total(EntryIn(t, TotalDisbursed), ledger)
            == Total(ExternalIn(t), ledger) + Total(PaidIn(t, false), ledger) + Total(PaidIn(t, true), ledger)
  {
    if |ledger| > 0 {
      assert EntryOk(ledger[|ledger| - 1]);
      EntrySplit(t, ledger[|ledger| - 1]);
      LedgerSplit(t, ledger[..|ledger| - 1]);
    }
  }

  lemma EntrySplit(t: TenantId, e: LedgerEntry)
    requires EntryOk(e)
    ensures EntryIn(t, Available)(e) + EntryIn(t, Pending)(e) + EntryIn(t, Reserved)(e)
            + EntryIn(t, Frozen)(e) + EntryIn(t, TotalDisbursed)(e)
            == ExternalIn(t)(e) + PaidIn(t, false)(e) + PaidIn(t, true)(e)
  {
    if e.bucket.Some? {
      match e.bucket.value
      case Available =>
      case Pending =>
      case Reserved =>
      case Frozen =>
      case TotalDisbursed =>
    }
  }

  lemma {:induction false} RowsSplit(t: TenantId, ws: seq<Withdrawal>)
    ensures Total(LiveAmount(t), ws) == Total(HeldAmount(t), ws) + Total(PaidRow(t, false), ws)
    ensures Total(ReversedAmount(t), ws) == Total(PaidRow(t, true), ws)
  {
    if |ws| > 0 {
      RowsSplit(t, ws[..|ws| - 1]);
    }
  }
}
