/** What each wallet operation does to the books, as a function of the database.
    WalletService (WalletService.dfy) is proved against these functions. */
module WalletRules {
  import opened Basics
  import opened Records
  import Money

  function Signed(e: LedgerEntry): int {
    if e.direction.Credit? then e.amount else -e.amount
  }

  /** What an entry says moved into bucket b of tenant t. */
  function EntryIn(t: TenantId, b: Bucket): LedgerEntry -> int {
    (e: LedgerEntry) => if e.tenant == t && e.bucket == Some(b) then Signed(e) else 0
  }

  /** Ledger credits minus debits of one bucket. */
  function Net(db: Db, t: TenantId, b: Bucket): int {
    Total(EntryIn(t, b), db.ledger)
  }

  function SettledAmount(t: TenantId): Settlement -> int {
    (s: Settlement) => if s.tenant == t then s.amount else 0
  }

  function Settled(db: Db, t: TenantId): int {
    Total(SettledAmount(t), db.settlements)
  }

  ghost predicate WalletsNonNegative(db: Db) {
    forall t :: t in db.wallets ==> db.wallets[t].NonNegative()
  }

  // ------------------------------------------------------------- posting

  /** Moves all buckets of one wallet at once, or raises if any would go negative. */
  function Post(db: Db, t: TenantId, d: Buckets, entries: seq<LedgerEntry>, logs: seq<Settlement>): (r: Result<Db>)
    ensures r.Ok? <==> WalletOf(db, t).Plus(d).NonNegative()
    ensures r.Ok? ==> forall u :: WalletOf(r.value, u) == if u == t then WalletOf(db, t).Plus(d) else WalletOf(db, u)
  {
    var w := WalletOf(db, t).Plus(d);
    if w.NonNegative() then
      Ok(db.(wallets := db.wallets[t := w], ledger := db.ledger + entries, settlements := db.settlements + logs))
    else
      Raised(DomainValidation)
  }

  lemma SetIsPlus(w: Buckets, b: Bucket, x: int)
    ensures w.Plus(EMPTY_WALLET.Set(b, x)) == w.Set(b, w.Get(b) + x)
  {
    match b
    case Available =>
    case Pending =>
    case Reserved =>
    case Frozen =>
    case TotalDisbursed =>
  }

  // ---------------------------------------------------------- operations

  function ActiveRate(terms: seq<Terms>, t: TenantId): Option<int> {
    if |terms| == 0 then None
    else if terms[0].active && terms[0].tenant == t then Some(terms[0].rate)
    else ActiveRate(terms[1..], t)
  }

  function CollectionEntries(t: TenantId, gross: int, fee: int, balance: int, ref: Reference): seq<LedgerEntry> {
    [ LedgerEntry(t, Collection, Credit, None, gross, None, ref),
      LedgerEntry(t, PlatformFee, Debit, None, fee, None, ref),
      LedgerEntry(t, TenantShare, Credit, Some(Pending), gross - fee, Some(balance), ref) ]
  }

  function ProcessCollection(db: Db, t: TenantId, gross: int, ref: Reference): Result<Db> {
    if gross <= 0 then Raised(DomainValidation) else
    match ActiveRate(db.terms, t)
    case None => Raised(DomainValidation)
    case Some(rate) =>
      var fee := Money.PlatformFee(gross, rate);
      Post(db, t, Buckets(0, gross - fee, 0, 0, 0),
           CollectionEntries(t, gross, fee, WalletOf(db, t).pending + gross - fee, ref), [])
  }

  predicate Blank(reason: string) {
    forall i :: 0 <= i < |reason| ==> reason[i] in " \t\n\r"
  }

  lemma BlankIff(reason: string)
    ensures Blank(reason) <==> forall k :: 0 <= k < |reason| ==> reason[k] in {' ', '\t', '\n', '\r'}
  {
    assert " \t\n\r" == [' ', '\t', '\n', '\r'];
  }

  function CreateAdjustment(db: Db, t: TenantId, b: Bucket, dir: Direction, amount: int,
                            reason: string, ref: Reference): Result<Db>
  {
    if amount <= 0 || Blank(reason) then Raised(DomainValidation) else
    var delta := if dir.Credit? then amount else -amount;
    Post(db, t, EMPTY_WALLET.Set(b, delta),
         [LedgerEntry(t, Adjustment, dir, Some(b), amount, Some(WalletOf(db, t).Get(b) + delta), ref)], [])
  }

  function SettlePending(db: Db, t: TenantId, amount: Option<int>): Result<Db> {
    var pending := WalletOf(db, t).pending;
    var settled := if amount.Some? then amount.value else pending;
    if settled <= 0 || settled > pending then Raised(DomainValidation)
    else Post(db, t, Buckets(settled, -settled, 0, 0, 0), [], [Settlement(t, settled)])
  }

  function Reserve(db: Db, t: TenantId, amount: int): Result<Db> {
    if amount <= 0 then Raised(DomainValidation)
    else Post(db, t, Buckets(-amount, 0, amount, 0, 0), [], [])
  }

  function Release(db: Db, t: TenantId, amount: int): Result<Db> {
    if amount <= 0 then Raised(DomainValidation)
    else Post(db, t, Buckets(amount, 0, -amount, 0, 0), [], [])
  }

  function CompleteDisbursement(db: Db, t: TenantId, amount: int, id: nat): Result<Db> {
    if amount <= 0 then Raised(DomainValidation)
    else Post(db, t, Buckets(0, 0, -amount, 0, amount),
              [LedgerEntry(t, Disbursement, Credit, Some(TotalDisbursed), amount,
                           Some(WalletOf(db, t).totalDisbursed + amount), WithdrawalRef(id))], [])
  }

  function ReverseDisbursement(db: Db, t: TenantId, amount: int, id: nat): Result<Db> {
    if amount <= 0 then Raised(DomainValidation)
    else Post(db, t, Buckets(amount, 0, 0, 0, -amount),
              [LedgerEntry(t, DisbursementReversal, Credit, Some(Available), amount,
                           Some(WalletOf(db, t).available + amount), WithdrawalRef(id))], [])
  }

  function RecordRefund(db: Db, t: TenantId, amount: int, ref: Reference): Result<Db> {
    if amount <= 0 then Raised(DomainValidation)
    else Post(db, t, Buckets(-amount, 0, 0, 0, 0),
              [LedgerEntry(t, Refund, Debit, Some(Available), amount,
                           Some(WalletOf(db, t).available - amount), ref)], [])
  }

  function RecordReversal(db: Db, t: TenantId, amount: int, ref: Reference): Result<Db> {
    if amount <= 0 then Raised(DomainValidation)
    else Post(db, t, Buckets(0, -amount, 0, 0, 0),
              [LedgerEntry(t, Reversal, Debit, Some(Pending), amount,
                           Some(WalletOf(db, t).pending - amount), ref)], [])
  }

  // ------------------------------------------------------ commercial terms

  function Deactivated(terms: seq<Terms>, t: TenantId): (r: seq<Terms>)
    ensures |r| == |terms|
  {
    if |terms| == 0 then []
    else if terms[0].active && terms[0].tenant == t then [terms[0].(active := false)] + terms[1..]
    else [terms[0]] + Deactivated(terms[1..], t)
  }

  function SetCommissionRate(db: Db, t: TenantId, rate: int): Result<Db> {
    if rate < 0 || rate > Money.FULL_RATE then Raised(DomainValidation)
    else Ok(db.(terms := Deactivated(db.terms, t) + [Terms(t, rate, true)]))
  }

  /** At most one active row per tenant, and every rate is a percentage. */
  ghost predicate TermsOk(terms: seq<Terms>) {
    && (forall i, j :: 0 <= i < j < |terms| && terms[i].active && terms[j].active ==>
        terms[i].tenant != terms[j].tenant)
    && (forall i :: 0 <= i < |terms| ==> 0 <= terms[i].rate <= Money.FULL_RATE)
  }

  /** The active row is the one get_active finds. */
  lemma {:induction false} ActiveRateFinds(terms: seq<Terms>, t: TenantId)
    ensures ActiveRate(terms, t).Some? <==>
            exists i :: 0 <= i < |terms| && terms[i].active && terms[i].tenant == t
    ensures forall i :: 0 <= i < |terms| && TermsOk(terms) && terms[i].active && terms[i].tenant == t
              ==> ActiveRate(terms, t) == Some(terms[i].rate)
    ensures ActiveRate(terms, t).Some? ==>
            exists i :: 0 <= i < |terms| && terms[i].tenant == t && terms[i].rate == ActiveRate(terms, t).value
  {
    if |terms| > 0 {
      ActiveRateFinds(terms[1..], t);
      forall i | 0 <= i < |terms[1..]|
        ensures terms[1..][i] == terms[i + 1]
      {
      }
      if terms[0].active && terms[0].tenant == t {
        assert terms[0].active;
      } else {
        if ActiveRate(terms, t).Some? {
          var i :| 0 <= i < |terms[1..]| && terms[1..][i].active && terms[1..][i].tenant == t;
          assert terms[i + 1].active && terms[i + 1].tenant == t;
          var j :| 0 <= j < |terms[1..]| && terms[1..][j].tenant == t
                   && terms[1..][j].rate == ActiveRate(terms, t).value;
          assert terms[j + 1].tenant == t;
        }
        forall i | 0 <= i < |terms| && terms[i].active && terms[i].tenant == t
          ensures ActiveRate(terms, t).Some?
          ensures TermsOk(terms) ==> ActiveRate(terms, t) == Some(terms[i].rate)
        {
          assert terms[1..][i - 1] == terms[i];
        }
      }
    }
  }

  /** Deactivation switches off the tenant's active row and edits nothing else. */
  lemma {:induction false} DeactivatedRows(terms: seq<Terms>, t: TenantId)
    ensures forall i :: 0 <= i < |terms| ==>
              var r := Deactivated(terms, t)[i];
              r.tenant == terms[i].tenant && r.rate == terms[i].rate && (r.active ==> terms[i].active)
    ensures forall i :: 0 <= i < |terms| && terms[i].tenant != t ==> Deactivated(terms, t)[i] == terms[i]
    ensures TermsOk(terms) ==> forall i :: 0 <= i < |terms| && terms[i].tenant == t ==> !Deactivated(terms, t)[i].active
  {
    if |terms| > 0 {
      DeactivatedRows(terms[1..], t);
      var r := Deactivated(terms, t);
      forall i | 0 <= i < |terms|
        ensures r[i].tenant == terms[i].tenant && r[i].rate == terms[i].rate && (r[i].active ==> terms[i].active)
        ensures terms[i].tenant != t ==> r[i] == terms[i]
        ensures TermsOk(terms) && terms[i].tenant == t ==> !r[i].active
      {
        if i > 0 {
          assert terms[1..][i - 1] == terms[i];
        }
      }
    }
  }

  /** Setting a rate: the new rate is the one in force, other tenants keep theirs,
      the history of rates is only extended, and one row per tenant stays active. */
  lemma SetCommissionRateEffect(db: Db, t: TenantId, rate: int)
    requires TermsOk(db.terms)
    requires SetCommissionRate(db, t, rate).Ok?
    ensures var db' := SetCommissionRate(db, t, rate).value;
            && TermsOk(db'.terms)
            && ActiveRate(db'.terms, t) == Some(rate)
            && (forall u :: u != t ==> ActiveRate(db'.terms, u) == ActiveRate(db.terms, u))
            && |db'.terms| == |db.terms| + 1
            && (forall i :: 0 <= i < |db.terms| ==>
                  db'.terms[i].tenant == db.terms[i].tenant && db'.terms[i].rate == db.terms[i].rate)
  {
    var terms' := SetCommissionRate(db, t, rate).value.terms;
    DeactivatedRows(db.terms, t);
    assert TermsOk(terms');
    ActiveRateFinds(terms', t);
    assert terms'[|db.terms|] == Terms(t, rate, true);
    forall u | u != t
      ensures ActiveRate(terms', u) == ActiveRate(db.terms, u)
    {
      OthersKeepTheirRate(db.terms, t, u, rate);
    }
  }

  lemma {:induction false} OthersKeepTheirRate(terms: seq<Terms>, t: TenantId, u: TenantId, rate: int)
    requires u != t
    ensures ActiveRate(Deactivated(terms, t) + [Terms(t, rate, true)], u) == ActiveRate(terms, u)
  {
    var added := Deactivated(terms, t) + [Terms(t, rate, true)];
    if |terms| > 0 {
      OthersKeepTheirRate(terms[1..], t, u, rate);
      if terms[0].active && terms[0].tenant == t {
        assert added[1..] == terms[1..] + [Terms(t, rate, true)];
        LastRowOfAnother(terms[1..], t, u, rate);
      } else {
        assert added[1..] == Deactivated(terms[1..], t) + [Terms(t, rate, true)];
      }
    }
  }

  lemma {:induction false} LastRowOfAnother(terms: seq<Terms>, t: TenantId, u: TenantId, rate: int)
    requires u != t
    ensures ActiveRate(terms + [Terms(t, rate, true)], u) == ActiveRate(terms, u)
  {
    if |terms| > 0 {
      LastRowOfAnother(terms[1..], t, u, rate);
      assert (terms + [Terms(t, rate, true)])[1..] == terms[1..] + [Terms(t, rate, true)];
    }
  }
}
