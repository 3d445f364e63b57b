/** What every withdrawal row and its event log satisfy, and how a row may
    change over time. */
module Lifecycle {
  import opened Basics
  import opened Records
  import opened WalletRules
  import opened PayoutRules
  import opened Books

  // ---------------------------------------------------------- event logs

  function IsFor(id: nat): Event -> bool {
    (e: Event) => e.withdrawal == id
  }

  function EventsOf(db: Db, id: nat): seq<Event> {
    Filter(IsFor(id), db.events)
  }

  /** es is a connected path of allowed steps from creation to `status`; the step
      out of DRAFT goes through review exactly when approval was required. */
  predicate Trail(es: seq<Event>, approvalRequired: bool, status: WithdrawalStatus)
    decreases |es|
  {
    && |es| > 0
    && es[|es| - 1].to == status
    && match es[|es| - 1].from
       case None => |es| == 1 && status.Draft?
       case Some(before) =>
         && Edge(before, status)
         && (before.Draft? && !status.Cancelled? ==> status == if approvalRequired then PendingApproval else Approved)
         && Trail(es[..|es| - 1], approvalRequired, before)
  }

  // ----------------------------------------------------------------- rows

  /** Past DRAFT, other than by cancellation, the code was confirmed; a withdrawal
      that needed approval is past review only with a recorded reviewer; one that
      did not need it never entered review. */
  predicate RowOk(w: Withdrawal) {
    && w.amount > 0
    && (w.status.Draft? ==> w.otp.confirmedAt.None? && w.reviewedBy.None?)
    && (!w.status.Draft? && !w.status.Cancelled? ==> w.otp.confirmedAt.Some?)
    && (w.status.PendingApproval? || w.status.Rejected? ==> w.approvalRequired)
    && (PastReview(w.status) && w.approvalRequired ==> w.reviewedBy.Some?)
  }

  predicate PastReview(s: WithdrawalStatus) {
    s.Approved? || s.Processing? || s.Ambiguous? || s.Success? || s.Reversed? || s.Failed? || s.Rejected?
  }

  predicate WithdrawalOk(db: Db, id: nat)
    requires id < |db.withdrawals|
  {
    && RowOk(db.withdrawals[id])
    && Trail(EventsOf(db, id), db.withdrawals[id].approvalRequired, db.withdrawals[id].status)
  }

  ghost predicate LifecycleOk(db: Db) {
    && (forall id :: 0 <= id < |db.withdrawals| ==> WithdrawalOk(db, id))
    && (forall i, j :: 0 <= i < j < |db.withdrawals| ==> db.withdrawals[i].key != db.withdrawals[j].key)
    && (forall k :: 0 <= k < |db.events| ==> db.events[k].withdrawal < |db.withdrawals|)
  }

  /** The columns written once, when the row is created. */
  predicate SameRequest(w: Withdrawal, w': Withdrawal) {
    && w'.tenant == w.tenant && w'.requestedBy == w.requestedBy && w'.destination == w.destination
    && w'.amount == w.amount && w'.currency == w.currency && w'.key == w.key
    && w'.approvalRequired == w.approvalRequired && w'.createdAt == w.createdAt
  }

  /** Progress along the lifecycle; only PROCESSING and AMBIGUOUS share a stage. */
  function Stage(s: WithdrawalStatus): nat {
    match s
    case Draft => 0
    case PendingApproval => 1
    case Approved => 2
    case Processing => 3
    case Ambiguous => 3
    case Success => 4
    case Reversed => 5
    case _ => 4
  }

  /** A later version of a row: no step back, nothing but the status once it has been
      submitted, and an ended row never changes again, except that a success may be reversed. */
  predicate RowLater(w: Withdrawal, w': Withdrawal) {
    && SameRequest(w, w')
    && Stage(w.status) <= Stage(w'.status)
    && (Stage(w.status) >= 3 ==> w' == w.(status := w'.status))
    && (Voided(w.status) || w.status.Reversed? ==> w' == w)
    && (w.status.Success? ==> w' == w || w' == w.(status := Reversed))
  }

  ghost predicate PayoutsLater(db: Db, db': Db) {
    && |db.withdrawals| <= |db'.withdrawals|
    && (forall id :: 0 <= id < |db.withdrawals| ==> RowLater(db.withdrawals[id], db'.withdrawals[id]))
    && db.events <= db'.events
  }

  lemma PayoutsLaterTransitive(a: Db, b: Db, c: Db)
    requires PayoutsLater(a, b) && PayoutsLater(b, c)
    ensures PayoutsLater(a, c)
  {
    forall id | 0 <= id < |a.withdrawals|
      ensures RowLater(a.withdrawals[id], c.withdrawals[id])
    {
      assert RowLater(a.withdrawals[id], b.withdrawals[id]);
      assert RowLater(b.withdrawals[id], c.withdrawals[id]);
    }
  }

  // ------------------------------------------------------ the three writes

  /** What a status change must respect. */
  predicate LegalShift(w: Withdrawal, row: Withdrawal) {
    && SameRequest(w, row)
    && Edge(w.status, row.status)
    && (w.status.Draft? && !row.status.Cancelled? ==>
          row.status == if row.approvalRequired then PendingApproval else Approved)
    && RowOk(row)
    && (Stage(w.status) >= 3 ==> row == w.(status := row.status))
  }

  lemma ShiftKeepsLifecycle(db: Db, id: nat, row: Withdrawal, actor: Option<ActorId>)
    requires LifecycleOk(db)
    requires id < |db.withdrawals| && LegalShift(db.withdrawals[id], row)
    requires Shift(db, id, row, actor).Ok?
    ensures LifecycleOk(Shift(db, id, row, actor).value)
    ensures PayoutsLater(db, Shift(db, id, row, actor).value)
  {
    var db' := Shift(db, id, row, actor).value;
    var w := db.withdrawals[id];
    var e := Event(id, Some(w.status), row.status, actor);
    BookPosts(db, row.tenant, row.status, row.amount, id);
    assert db'.events == db.events + [e];
    forall k | 0 <= k < |db'.withdrawals|
      ensures WithdrawalOk(db', k)
    {
      assert WithdrawalOk(db, k);
      ShiftedRow(db, db', id, row, e, k);
    }
  }

  lemma ShiftedRow(db: Db, db': Db, id: nat, row: Withdrawal, e: Event, k: nat)
    requires id < |db.withdrawals| && k < |db.withdrawals| && LegalShift(db.withdrawals[id], row)
    requires db'.withdrawals == db.withdrawals[id := row] && db'.events == db.events + [e]
    requires e.withdrawal == id && e.from == Some(db.withdrawals[id].status) && e.to == row.status
    requires WithdrawalOk(db, k)
    ensures WithdrawalOk(db', k)
  {
    EventAppended(db, db', e, k);
    if k == id {
      assert EventsOf(db', id)[..|EventsOf(db, id)|] == EventsOf(db, id);
    }
  }

  lemma EventAppended(db: Db, db': Db, e: Event, id: nat)
    requires db'.events == db.events + [e]
    ensures EventsOf(db', id) == if e.withdrawal == id then EventsOf(db, id) + [e] else EventsOf(db, id)
  {
    FilterConcat(IsFor(id), db.events, [e]);
    assert [e][..0] == [];
  }

  /** A row rewritten in place keeps its status and is not logged. */
  predicate LegalWrite(w: Withdrawal, row: Withdrawal) {
    SameRequest(w, row) && row.status == w.status && w.status.Draft? && RowOk(row)
  }

  lemma WriteKeepsLifecycle(db: Db, id: nat, row: Withdrawal)
    requires LifecycleOk(db)
    requires id < |db.withdrawals| && LegalWrite(db.withdrawals[id], row)
    ensures LifecycleOk(Write(db, id, row)) && PayoutsLater(db, Write(db, id, row))
  {
    var db' := Write(db, id, row);
    forall k | 0 <= k < |db'.withdrawals|
      ensures WithdrawalOk(db', k)
    {
      assert WithdrawalOk(db, k);
      assert EventsOf(db', k) == EventsOf(db, k);
    }
  }

  lemma OpenKeepsLifecycle(db: Db, row: Withdrawal, actor: Option<ActorId>, db': Db)
    requires LifecycleOk(db)
    requires RowOk(row) && row.status.Draft? && !KeyTaken(db, row.key)
    requires db'.withdrawals == db.withdrawals + [row]
    requires db'.events == db.events + [Event(|db.withdrawals|, None, Draft, actor)]
    ensures LifecycleOk(db') && PayoutsLater(db, db')
  {
    var id := |db.withdrawals|;
    var e := Event(id, None, Draft, actor);
    forall k | 0 <= k < |db'.withdrawals|
      ensures WithdrawalOk(db', k)
    {
      EventAppended(db, db', e, k);
      if k == id {
        FilterNone(IsFor(id), db.events);
        assert EventsOf(db', id) == [e];
      } else {
        assert WithdrawalOk(db, k);
      }
    }
  }
}
