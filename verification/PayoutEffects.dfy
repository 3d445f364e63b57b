/** What each withdrawal operation answers and leaves behind, field by field: exactly when
    it goes through, and every row, event, entry and balance it changes. */
module PayoutEffects {
  import opened Basics
  import opened Records
  import opened WalletRules
  import opened PayoutRules
  import opened Books
  import opened Lifecycle
  import opened DailyLimits

  /** A row is replaced, its wallet becomes another, one event and the given entries are
      appended, and nothing else changes. */
  ghost predicate Changes(db: Db, db': Db, id: nat, row: Withdrawal, wallet: Buckets, actor: Option<ActorId>,
                          entries: seq<LedgerEntry>)
    requires id < |db.withdrawals|
  {
    var t := db.withdrawals[id].tenant;
    && WalletOf(db', t) == wallet && (forall u :: u != t ==> WalletOf(db', u) == WalletOf(db, u))
    && db' == db.(wallets := db'.wallets, ledger := db.ledger + entries,
                  withdrawals := db.withdrawals[id := row],
                  events := db.events + [Event(id, Some(db.withdrawals[id].status), row.status, actor)])
  }

  // ----------------------------------------------------- request and codes

  /** A request goes through exactly when everything is in place, the amount is allowed,
      the day has room for it, and available covers it; it then holds the amount and
      stores one DRAFT with its code just sent. */
  lemma RequestEffect(db: Db, cfg: Settings, now: Time, op: PayoutOp, k: int)
    requires op.Request? && OnDay(now, k) && WalletOf(db, op.tenant).NonNegative()
    ensures var r, w, id := RequestWithdrawal(db, cfg, now, op), WalletOf(db, op.tenant), |db.withdrawals|;
            && (r.Ok? <==>
                  && 0 < op.amount <= w.available && op.destinationKnown && op.managedWallet
                  && cfg.disbursementEnabled && op.payoutFlag && op.email.Some? && cfg.otpSecret
                  && (cfg.minAmount.Some? ==> cfg.minAmount.value <= op.amount)
                  && (cfg.maxAmount.Some? ==> op.amount <= cfg.maxAmount.value)
                  && LeavesRoom(db, cfg, op.tenant, op.amount, k)
                  && forall n :: 0 <= n < |db.withdrawals| ==> db.withdrawals[n].key != op.key)
            && (r.Ok? ==>
                  var db' := r.value;
                  && WalletOf(db', op.tenant)
                     == w.(available := w.available - op.amount, reserved := w.reserved + op.amount)
                  && (forall u :: u != op.tenant ==> WalletOf(db', u) == WalletOf(db, u))
                  && db' == db.(wallets := db'.wallets, withdrawals := db'.withdrawals,
                                events := db.events + [Event(id, None, Draft, Some(op.actor))])
                  && db'.withdrawals
                     == db.withdrawals
                        + [Withdrawal(op.tenant, op.actor, op.destination, op.amount, "TZS", Draft, op.key,
                                      op.amount > cfg.approvalThreshold, now - op.waited, None, None, None,
                                      Otp(Some(CodeHash(id, op.code)), Some(now + cfg.otpTtl), 0, None, op.email,
                                          Some(now), 1))])
  {
    WithinLimitsIff(db, cfg, op.tenant, op.amount, now, k);
  }

  /** Only the requester is sent another code, for a DRAFT, after the cooldown, and a
      limited number of times; the new challenge replaces the old one. */
  lemma ResendEffect(db: Db, cfg: Settings, now: Time, op: PayoutOp)
    requires op.Resend?
    ensures var r, ws := ResendOtp(db, cfg, now, op), db.withdrawals;
            && (r.Ok? <==>
                  && op.id < |ws| && ws[op.id].tenant == op.tenant && ws[op.id].requestedBy == op.actor
                  && ws[op.id].status == Draft && ws[op.id].otp.sends < cfg.otpMaxSends
                  && (ws[op.id].otp.lastSentAt.Some? ==> now - ws[op.id].otp.lastSentAt.value >= cfg.otpCooldown)
                  && op.email.Some? && cfg.otpSecret)
            && (r.Ok? ==>
                  var otp := Otp(Some(CodeHash(op.id, op.code)), Some(now + cfg.otpTtl), 0, None, op.email, Some(now),
                                 ws[op.id].otp.sends + 1);
                  r.value == db.(withdrawals := ws[op.id := ws[op.id].(otp := otp)]))
  {
  }

  // ----------------------------------------------------------- review

  /** Only the requester cancels, before approval. */
  lemma CancelEffect(db: Db, op: PayoutOp)
    requires op.Cancel?
    requires op.id < |db.withdrawals| ==>
               db.withdrawals[op.id].amount > 0 && WalletOf(db, db.withdrawals[op.id].tenant).NonNegative()
    ensures var r, ws := CancelWithdrawal(db, op), db.withdrawals;
            && (r.Ok? <==>
                  && op.id < |ws| && ws[op.id].tenant == op.tenant && ws[op.id].requestedBy == op.actor
                  && ws[op.id].status in {Draft, PendingApproval}
                  && ws[op.id].amount <= WalletOf(db, op.tenant).reserved)
            && (r.Ok? ==>
                  var w, x := WalletOf(db, op.tenant), ws[op.id].amount;
                  Changes(db, r.value, op.id, ws[op.id].(status := Cancelled),
                          w.(available := w.available + x, reserved := w.reserved - x), Some(op.actor), []))
  {
  }

  /** A rejection needs a reason, and records who gave it. */
  lemma RejectEffect(db: Db, op: PayoutOp)
    requires op.Reject?
    requires op.id < |db.withdrawals| ==>
               db.withdrawals[op.id].amount > 0 && WalletOf(db, db.withdrawals[op.id].tenant).NonNegative()
    ensures var r, ws := RejectWithdrawal(db, op), db.withdrawals;
            && (r.Ok? <==>
                  && (exists k :: 0 <= k < |op.reason| && op.reason[k] !in {' ', '\t', '\n', '\r'})
                  && op.id < |ws| && ws[op.id].status == PendingApproval
                  && ws[op.id].amount <= WalletOf(db, ws[op.id].tenant).reserved)
            && (r.Ok? ==>
                  var w, x := WalletOf(db, ws[op.id].tenant), ws[op.id].amount;
                  Changes(db, r.value, op.id, ws[op.id].(status := Rejected, reviewedBy := Some(op.actor)),
                          w.(available := w.available + x, reserved := w.reserved - x), Some(op.actor), []))
  {
    BlankIff(op.reason);
  }

  /** A reversal needs a reason and a success, and returns the principal to available. */
  lemma ReverseEffect(db: Db, op: PayoutOp)
    requires op.Reverse?
    requires op.id < |db.withdrawals| ==>
               db.withdrawals[op.id].amount > 0 && WalletOf(db, db.withdrawals[op.id].tenant).NonNegative()
    ensures var r, ws := ReverseWithdrawal(db, op), db.withdrawals;
            && (r.Ok? <==>
                  && (exists k :: 0 <= k < |op.reason| && op.reason[k] !in {' ', '\t', '\n', '\r'})
                  && op.id < |ws| && ws[op.id].tenant == op.tenant && ws[op.id].status == Success
                  && ws[op.id].amount <= WalletOf(db, op.tenant).totalDisbursed)
            && (r.Ok? ==>
                  var w, x := WalletOf(db, op.tenant), ws[op.id].amount;
                  Changes(db, r.value, op.id, ws[op.id].(status := Reversed),
                          w.(available := w.available + x, totalDisbursed := w.totalDisbursed - x), op.reviewer,
                          [LedgerEntry(op.tenant, DisbursementReversal, Credit, Some(Available), x,
                                       Some(w.available + x), WithdrawalRef(op.id))]))
  {
    BlankIff(op.reason);
  }

  // ------------------------------------------------------ provider replies

  /** Whether a reported success is of this very transfer: its own transId and currency or
      none, and no amount, the principal, or the principal with its stored charge. */
  predicate OfThisTransfer(w: Withdrawal, reply: Reply) {
    && (reply.transId == None || reply.transId == Some(w.key))
    && (reply.currency == None || reply.currency == Some(w.currency))
    && (|| reply.amount == None
        || reply.amount == Some(Cents(w.amount))
        || (w.providerCharge.Some? && w.providerCharge.value >= 0
            && reply.amount == Some(Cents(w.amount + w.providerCharge.value))))
  }

  /** What a reply does to a withdrawal in flight. */
  lemma ReplyEffect(db: Db, id: nat, reply: Reply, actor: Option<ActorId>)
    requires id < |db.withdrawals| && db.withdrawals[id].status in {Processing, Ambiguous}
    requires db.withdrawals[id].amount > 0 && WalletOf(db, db.withdrawals[id].tenant).NonNegative()
    ensures var r, row := ApplyProviderResult(db, id, reply, actor), db.withdrawals[id];
            var w, x := WalletOf(db, row.tenant), row.amount;
            match reply.outcome
            case Succeeded =>
              if !OfThisTransfer(row, reply) then
                r.Ok? && Changes(db, r.value, id, row.(status := Ambiguous), w, actor, [])
              else
                && (r.Ok? <==> x <= w.reserved)
                && (r.Ok? ==>
                      var total := w.totalDisbursed + x;
                      Changes(db, r.value, id, row.(status := Success),
                              w.(reserved := w.reserved - x, totalDisbursed := total), actor,
                              [LedgerEntry(row.tenant, Disbursement, Credit, Some(TotalDisbursed), x, Some(total),
                                           WithdrawalRef(id))]))
            case StillInProgress => r == Ok(db)
            case Unknown => r.Ok? && Changes(db, r.value, id, row.(status := Ambiguous), w, actor, [])
            case Refused =>
              && (r.Ok? <==> x <= w.reserved)
              && (r.Ok? ==> Changes(db, r.value, id, row.(status := Failed),
                                    w.(available := w.available + x, reserved := w.reserved - x), actor, []))
  {
    OfThisTransferIff(db.withdrawals[id], reply);
    var to := if reply.outcome.Refused? then Failed
              else if reply.outcome.Succeeded? && OfThisTransfer(db.withdrawals[id], reply) then Success
              else Ambiguous;
    if !reply.outcome.StillInProgress? {
      StatusEffect(db, id, to, actor);
    }
  }

  lemma OfThisTransferIff(w: Withdrawal, reply: Reply)
    ensures OfThisTransfer(w, reply) <==> Explains(w, reply)
  {
  }

  /** A withdrawal leaves flight, or becomes AMBIGUOUS, with the wallet move that goes with it. */
  lemma StatusEffect(db: Db, id: nat, to: WithdrawalStatus, actor: Option<ActorId>)
    requires id < |db.withdrawals| && to in {Success, Failed, Ambiguous}
    requires db.withdrawals[id].amount > 0 && WalletOf(db, db.withdrawals[id].tenant).NonNegative()
    ensures var r, row := ShiftTo(db, id, to, actor), db.withdrawals[id];
            var w, x := WalletOf(db, row.tenant), row.amount;
            && (r.Ok? <==> to == Ambiguous || x <= w.reserved)
            && (r.Ok? ==>
                  Changes(db, r.value, id, row.(status := to),
                          if to == Ambiguous then w
                          else if to == Failed then w.(available := w.available + x, reserved := w.reserved - x)
                          else w.(reserved := w.reserved - x, totalDisbursed := w.totalDisbursed + x),
                          actor,
                          if to == Success
                          then [LedgerEntry(row.tenant, Disbursement, Credit, Some(TotalDisbursed), x,
                                            Some(w.totalDisbursed + x), WithdrawalRef(id))] else []))
  {
    assert db.ledger + [] == db.ledger;
  }
}
