/** The withdrawal services, step by step: each method updates the session in place and
    is proved against PayoutRules. */
module PayoutServices {
  import opened Basics
  import opened Records
  import opened WalletServices
  import WalletRules
  import P = PayoutRules

  /** The provider's side of the wire: what was asked of it is not undone by a rollback. */
  class Gateway {
    var calls: seq<P.PayoutCall>

    constructor ()
      ensures calls == []
    {
      calls := [];
    }

    method TransactionProcess(id: nat, transId: string, amount: int, answer: P.Process) returns (r: P.Process)
      modifies this
      ensures calls == old(calls) + [P.PayoutCall(id, transId, amount)] && r == answer
    {
      calls := calls + [P.PayoutCall(id, transId, amount)];
      r := answer;
    }
  }

  class TwoFactorService {
    const db: Database

    constructor (db: Database)
      ensures this.db == db
    {
      this.db := db;
    }

    /** issue_challenge with the send bookkeeping of its caller. */
    method IssueChallenge(id: nat, cfg: Settings, now: Time, email: string, code: string) returns (r: Result<()>)
      requires id < |db.withdrawals|
      modifies db`withdrawals
      ensures r == if cfg.otpSecret then Ok(()) else Raised(DomainValidation)
      ensures r.Ok? ==> db.withdrawals == old(db.withdrawals)[id := old(db.withdrawals[id]).(
                          otp := P.IssuedOtp(old(db.withdrawals[id].otp), id, cfg, now, email, code))]
    {
      if !cfg.otpSecret {
        return Raised(DomainValidation);
      }
      var w := db.withdrawals[id];
      db.withdrawals := db.withdrawals[id := w.(otp := w.otp.(
        codeHash := Some(CodeHash(id, code)),
        expiresAt := Some(now + cfg.otpTtl),
        attempts := 0,
        confirmedAt := None,
        sentTo := Some(email)))];
      w := db.withdrawals[id];
      db.withdrawals := db.withdrawals[id := w.(otp := w.otp.(lastSentAt := Some(now), sends := w.otp.sends + 1))];
      return Ok(());
    }

    method Verify(id: nat, code: string, email: Option<string>, cfg: Settings, now: Time) returns (r: Result<bool>)
      requires id < |db.withdrawals|
      modifies db`withdrawals
      ensures var w := old(db.withdrawals[id]);
              var compares := P.Compares(w.otp, cfg, now, email);
              && (compares && !cfg.otpSecret ==> r == Raised(DomainValidation))
              && (!compares || cfg.otpSecret ==> r == Ok(P.RightCode(w.otp, id, code, cfg, now, email)))
              && (r.Ok? ==>
                    db.withdrawals == old(db.withdrawals)[id := w.(otp :=
                      if P.RightCode(w.otp, id, code, cfg, now, email) then w.otp.(confirmedAt := Some(now))
                      else if P.WrongCode(w.otp, id, code, cfg, now, email) then w.otp.(attempts := w.otp.attempts + 1)
                      else w.otp)])
    {
      var w := db.withdrawals[id];
      if w.otp.codeHash.None? || P.Exhausted(w.otp, cfg, now) || (email.Some? && w.otp.sentTo != email) {
        assert db.withdrawals == db.withdrawals[id := w.(otp := w.otp)];
        return Ok(false);
      }
      if !cfg.otpSecret {
        return Raised(DomainValidation);
      }
      if CodeHash(id, code) == w.otp.codeHash.value {
        db.withdrawals := db.withdrawals[id := w.(otp := w.otp.(confirmedAt := Some(now)))];
        return Ok(true);
      }
      db.withdrawals := db.withdrawals[id := w.(otp := w.otp.(attempts := w.otp.attempts + 1))];
      return Ok(false);
    }
  }

  /** The row a verification leaves behind. */
  function Verified(w: Withdrawal, id: nat, cfg: Settings, now: Time, op: P.PayoutOp): Withdrawal
    requires op.Confirm?
  {
    if P.RightCode(w.otp, id, op.code, cfg, now, op.currentEmail) then w.(otp := w.otp.(confirmedAt := Some(now)))
    else if P.WrongCode(w.otp, id, op.code, cfg, now, op.currentEmail)
    then w.(otp := w.otp.(attempts := w.otp.attempts + 1)) else w
  }

  /** Writing the confirmed row and then changing its status is one change of status. */
  lemma AcceptedIs(db: Db, cfg: Settings, now: Time, op: P.PayoutOp)
    requires op.Confirm? && P.Locked(db, Some(op.tenant), op.id).Ok? && cfg.otpSecret
    requires db.withdrawals[op.id].requestedBy == op.actor && db.withdrawals[op.id].status.Draft?
    requires P.RightCode(db.withdrawals[op.id].otp, op.id, op.code, cfg, now, op.currentEmail)
    ensures var row := Verified(db.withdrawals[op.id], op.id, cfg, now, op);
            var to := if row.approvalRequired then PendingApproval else Approved;
            var moved := P.Transition(P.Write(db, op.id, row), op.id, row.(status := to), Some(op.actor));
            && P.ConfirmTwoFactor(db, cfg, now, op)
               == (if row.approvalRequired then Ok(moved)
                   else P.Submit(moved, cfg, op.id, op.submission, Some(op.actor)))
            && P.PayoutCalls(db, cfg, now, op)
               == if row.approvalRequired then [] else P.SubmitCalls(moved, cfg, op.id, op.submission)
  {
    var id, w := op.id, db.withdrawals[op.id];
    assert db.withdrawals[id := Verified(w, id, cfg, now, op)][id := P.ConfirmedRow(w, now)]
        == db.withdrawals[id := P.ConfirmedRow(w, now)];
  }

  /** Counting the attempt and then cancelling is one change of status. */
  lemma RefusedIs(db: Db, cfg: Settings, now: Time, op: P.PayoutOp)
    requires op.Confirm? && P.Locked(db, Some(op.tenant), op.id).Ok?
    requires db.withdrawals[op.id].requestedBy == op.actor && db.withdrawals[op.id].status.Draft?
    requires !P.RightCode(db.withdrawals[op.id].otp, op.id, op.code, cfg, now, op.currentEmail)
    requires P.Compares(db.withdrawals[op.id].otp, cfg, now, op.currentEmail) ==> cfg.otpSecret
    ensures var row := Verified(db.withdrawals[op.id], op.id, cfg, now, op);
            && P.ConfirmTwoFactor(db, cfg, now, op)
               == (if P.Exhausted(row.otp, cfg, op.recheckedAt)
                   then P.ShiftTo(P.Write(db, op.id, row), op.id, Cancelled, Some(op.actor))
                   else Ok(P.Write(db, op.id, row)))
            && P.PayoutCalls(db, cfg, now, op) == []
  {
    var id, row := op.id, Verified(db.withdrawals[op.id], op.id, cfg, now, op);
    assert db.withdrawals[id := row][id := row.(status := Cancelled)]
        == db.withdrawals[id := row.(status := Cancelled)];
  }

  datatype AmountMatch = PrincipalExact | PrincipalPlusStoredCharge

  class PayoutService {
    const db: Database
    const gateway: Gateway
    const wallet: WalletService
    const twoFactor: TwoFactorService

    constructor (db: Database, gateway: Gateway)
      ensures this.db == db && this.gateway == gateway && Bound()
    {
      this.db := db;
      this.gateway := gateway;
      wallet := new WalletService(db);
      twoFactor := new TwoFactorService(db);
    }

    predicate Bound() {
      wallet.db == db && twoFactor.db == db
    }

    ghost predicate Ready()
      reads db
    {
      Bound() && WalletRules.WalletsNonNegative(db.State())
    }

    // ---------------------------------------------------- state machine

    method Transition(id: nat, to: WithdrawalStatus, actor: Option<ActorId>)
      requires id < |db.withdrawals|
      modifies db`withdrawals, db`events
      ensures db.State() == P.Transition(old(db.State()), id, old(db.withdrawals[id]).(status := to), actor)
    {
      var from := db.withdrawals[id].status;
      db.withdrawals := db.withdrawals[id := db.withdrawals[id].(status := to)];
      db.events := db.events + [Event(id, Some(from), to, actor)];
    }

    /** Releases the hold, then moves to one of the voided statuses. */
    method ReleaseInto(id: nat, to: WithdrawalStatus, actor: Option<ActorId>) returns (r: Result<()>)
      requires Ready() && id < |db.withdrawals| && P.Voided(to)
      modifies db
      ensures Agrees(r, P.ShiftTo(old(db.State()), id, to, actor), db.State())
    {
      var _ :- wallet.ReleaseReservation(db.withdrawals[id].tenant, db.withdrawals[id].amount);
      Transition(id, to, actor);
      return Ok(());
    }

    method FailWithdrawal(id: nat, actor: Option<ActorId>) returns (r: Result<()>)
      requires Ready() && id < |db.withdrawals|
      modifies db
      ensures Agrees(r, P.ShiftTo(old(db.State()), id, Failed, actor), db.State())
    {
      r := ReleaseInto(id, Failed, actor);
    }

    // ----------------------------------------------------------- limits

    method EnforceWithdrawalLimits(cfg: Settings, t: TenantId, amount: int, now: Time) returns (r: Result<()>)
      ensures r == if P.WithinLimits(db.State(), cfg, t, amount, now) then Ok(()) else Raised(DomainValidation)
    {
      if cfg.minAmount.Some? && amount < cfg.minAmount.value {
        return Raised(DomainValidation);
      }
      if cfg.maxAmount.Some? && amount > cfg.maxAmount.value {
        return Raised(DomainValidation);
      }
      if cfg.dailyLimit.None? && cfg.dailyCount.None? {
        return Ok(());
      }
      var dailyTotal, dailyCount := DailyTotals(t, P.DayStart(now));
      if cfg.dailyLimit.Some? && dailyTotal + amount > cfg.dailyLimit.value {
        return Raised(DomainValidation);
      }
      if cfg.dailyCount.Some? && dailyCount + 1 > cfg.dailyCount.value {
        return Raised(DomainValidation);
      }
      return Ok(());
    }

    /** The daily_totals aggregate, both columns in one scan. */
    method DailyTotals(t: TenantId, since: Time) returns (total: int, count: int)
      ensures total == Total(P.CountedAmount(t, since), db.withdrawals)
      ensures count == Total(P.CountedOne(t, since), db.withdrawals)
    {
      total, count := 0, 0;
      for k := 0 to |db.withdrawals|
        invariant total == Total(P.CountedAmount(t, since), db.withdrawals[..k])
        invariant count == Total(P.CountedOne(t, since), db.withdrawals[..k])
      {
        assert db.withdrawals[..k + 1][..k] == db.withdrawals[..k];
        if P.Counts(db.withdrawals[k], t, since) {
          total := total + db.withdrawals[k].amount;
          count := count + 1;
        }
      }
      assert db.withdrawals[..|db.withdrawals|] == db.withdrawals;
    }

    // ---------------------------------------------------- request and OTP

    method RequestWithdrawal(cfg: Settings, now: Time, op: P.PayoutOp) returns (r: Result<()>)
      requires Ready() && op.Request?
      modifies db
      ensures Agrees(r, P.RequestWithdrawal(old(db.State()), cfg, now, op), db.State())
    {
      if op.amount <= 0 {
        return Raised(DomainValidation);
      }
      if !op.destinationKnown || !op.managedWallet || !cfg.disbursementEnabled || !op.payoutFlag {
        return Raised(DomainValidation);
      }
      if op.email.None? {
        return Raised(DomainValidation);
      }
      var _ :- EnforceWithdrawalLimits(cfg, op.tenant, op.amount, now);
      var _ :- wallet.ReserveForWithdrawal(op.tenant, op.amount);
      if P.KeyTaken(db.State(), op.key) {
        return Raised(Integrity);
      }
      var id := |db.withdrawals|;
      db.withdrawals := db.withdrawals + [P.NewRow(cfg, now, op)];
      db.events := db.events + [Event(id, None, Draft, Some(op.actor))];
      var _ :- twoFactor.IssueChallenge(id, cfg, now, op.email.value, op.code);
      assert db.withdrawals == old(db.withdrawals) + [db.withdrawals[id]];
      return Ok(());
    }

    method ResendOtp(cfg: Settings, now: Time, op: P.PayoutOp) returns (r: Result<()>)
      requires Ready() && op.Resend?
      modifies db
      ensures Agrees(r, P.ResendOtp(old(db.State()), cfg, now, op), db.State())
    {
      var w :- P.Locked(db.State(), Some(op.tenant), op.id);
      if w.requestedBy != op.actor {
        return Raised(DomainValidation);
      }
      if !w.status.Draft? {
        return Raised(DomainValidation);
      }
      if w.otp.sends >= cfg.otpMaxSends {
        return Raised(DomainValidation);
      }
      if w.otp.lastSentAt.Some? {
        var elapsed := now - w.otp.lastSentAt.value;
        var remaining := cfg.otpCooldown - elapsed;
        if remaining > 0 {
          return Raised(RateLimited);
        }
      }
      if op.email.None? {
        return Raised(DomainValidation);
      }
      r := twoFactor.IssueChallenge(op.id, cfg, now, op.email.value, op.code);
    }

    method ConfirmTwoFactor(cfg: Settings, now: Time, op: P.PayoutOp) returns (r: Result<()>)
      requires Ready() && op.Confirm?
      modifies db, gateway
      ensures Agrees(r, P.ConfirmTwoFactor(old(db.State()), cfg, now, op), db.State())
      ensures gateway.calls == old(gateway.calls) + P.PayoutCalls(old(db.State()), cfg, now, op)
    {
      var w :- P.Locked(db.State(), Some(op.tenant), op.id);
      if w.requestedBy != op.actor {
        return Raised(DomainValidation);
      }
      if !w.status.Draft? {
        return Raised(DomainValidation);
      }
      var verified :- twoFactor.Verify(op.id, op.code, op.currentEmail, cfg, now);
      assert db.State() == P.Write(old(db.State()), op.id, Verified(w, op.id, cfg, now, op));
      if verified {
        AcceptedIs(old(db.State()), cfg, now, op);
        r := AcceptCode(cfg, op);
      } else {
        RefusedIs(old(db.State()), cfg, now, op);
        r := RefuseCode(cfg, op);
      }
    }

    /** After the right code: on to review, or straight to submission. */
    method AcceptCode(cfg: Settings, op: P.PayoutOp) returns (r: Result<()>)
      requires Ready() && op.Confirm? && op.id < |db.withdrawals|
      modifies db, gateway
      ensures var row := old(db.withdrawals[op.id]);
              var to := if row.approvalRequired then PendingApproval else Approved;
              var moved := P.Transition(old(db.State()), op.id, row.(status := to), Some(op.actor));
              && Agrees(r, if row.approvalRequired then Ok(moved)
                           else P.Submit(moved, cfg, op.id, op.submission, Some(op.actor)), db.State())
              && gateway.calls
                 == old(gateway.calls)
                    + if row.approvalRequired then [] else P.SubmitCalls(moved, cfg, op.id, op.submission)
    {
      if db.withdrawals[op.id].approvalRequired {
        Transition(op.id, PendingApproval, Some(op.actor));
        return Ok(());
      }
      Transition(op.id, Approved, Some(op.actor));
      r := SubmitToSelcom(cfg, op.id, op.submission, Some(op.actor));
    }

    /** After a code that was not accepted: cancels if none can be accepted any more. */
    method RefuseCode(cfg: Settings, op: P.PayoutOp) returns (r: Result<()>)
      requires Ready() && op.Confirm? && op.id < |db.withdrawals|
      modifies db
      ensures Agrees(r, if P.Exhausted(old(db.withdrawals[op.id].otp), cfg, op.recheckedAt)
                        then P.ShiftTo(old(db.State()), op.id, Cancelled, Some(op.actor))
                        else Ok(old(db.State())), db.State())
    {
      if P.Exhausted(db.withdrawals[op.id].otp, cfg, op.recheckedAt) {
        r := ReleaseInto(op.id, Cancelled, Some(op.actor));
        return;
      }
      return Ok(());
    }

    // ----------------------------------------------------------- review

    method ApproveWithdrawal(cfg: Settings, op: P.PayoutOp) returns (r: Result<()>)
      requires Ready() && op.Approve?
      modifies db, gateway
      ensures Agrees(r, P.ApproveWithdrawal(old(db.State()), cfg, op), db.State())
      ensures gateway.calls == old(gateway.calls) + P.PayoutCalls(old(db.State()), cfg, 0, op)
    {
      var w :- P.Locked(db.State(), None, op.id);
      if !w.status.PendingApproval? {
        return Raised(DomainValidation);
      }
      db.withdrawals := db.withdrawals[op.id := w.(reviewedBy := Some(op.actor))];
      Transition(op.id, Approved, Some(op.actor));
      assert db.State()
          == P.Shift(old(db.State()), op.id, w.(reviewedBy := Some(op.actor), status := Approved),
                     Some(op.actor)).value;
      r := SubmitToSelcom(cfg, op.id, op.submission, Some(op.actor));
    }

    method RejectWithdrawal(op: P.PayoutOp) returns (r: Result<()>)
      requires Ready() && op.Reject?
      modifies db
      ensures Agrees(r, P.RejectWithdrawal(old(db.State()), op), db.State())
    {
      if WalletRules.Blank(op.reason) {
        return Raised(DomainValidation);
      }
      var w :- P.Locked(db.State(), None, op.id);
      if !w.status.PendingApproval? {
        return Raised(DomainValidation);
      }
      var _ :- wallet.ReleaseReservation(w.tenant, w.amount);
      db.withdrawals := db.withdrawals[op.id := w.(reviewedBy := Some(op.actor))];
      Transition(op.id, Rejected, Some(op.actor));
      assert db.withdrawals == old(db.withdrawals)[op.id := w.(reviewedBy := Some(op.actor), status := Rejected)];
      return Ok(());
    }

    method CancelWithdrawal(op: P.PayoutOp) returns (r: Result<()>)
      requires Ready() && op.Cancel?
      modifies db
      ensures Agrees(r, P.CancelWithdrawal(old(db.State()), op), db.State())
    {
      var w :- P.Locked(db.State(), Some(op.tenant), op.id);
      if w.requestedBy != op.actor {
        return Raised(DomainValidation);
      }
      if !w.status.Draft? && !w.status.PendingApproval? {
        return Raised(DomainValidation);
      }
      r := ReleaseInto(op.id, Cancelled, Some(op.actor));
    }

    method ReverseWithdrawal(op: P.PayoutOp) returns (r: Result<()>)
      requires Ready() && op.Reverse?
      modifies db
      ensures Agrees(r, P.ReverseWithdrawal(old(db.State()), op), db.State())
    {
      if WalletRules.Blank(op.reason) {
        return Raised(DomainValidation);
      }
      var w :- P.Locked(db.State(), Some(op.tenant), op.id);
      if !w.status.Success? {
        return Raised(DomainValidation);
      }
      var _ :- wallet.ReverseDisbursement(w.tenant, w.amount, op.id);
      Transition(op.id, Reversed, op.reviewer);
      return Ok(());
    }

    // -------------------------------------------------------- submission

    method SubmitToSelcom(cfg: Settings, id: nat, sub: P.Submission, actor: Option<ActorId>) returns (r: Result<()>)
      requires Ready() && id < |db.withdrawals|
      modifies db, gateway
      ensures Agrees(r, P.Submit(old(db.State()), cfg, id, sub, actor), db.State())
      ensures gateway.calls == old(gateway.calls) + P.SubmitCalls(old(db.State()), cfg, id, sub)
    {
      if !db.withdrawals[id].status.Approved? {
        return Ok(());
      }
      if !cfg.disbursementEnabled {
        r := FailWithdrawal(id, actor);
        return;
      }
      if cfg.production && !cfg.productionPayouts {
        r := FailWithdrawal(id, actor);
        return;
      }
      if !sub.destinationComplete {
        r := FailWithdrawal(id, actor);
        return;
      }
      match sub.lookup {
        case LookupUnreachable => return Ok(());
        case LookupFault => return Raised(ProviderFault);
        case LookupRefused => r := FailWithdrawal(id, actor);
        case Account(name, charge) =>
          if name.None? || name.value == "" {
            r := FailWithdrawal(id, actor);
            return;
          }
          db.withdrawals := db.withdrawals[id := db.withdrawals[id].(verifiedName := name, providerCharge := charge)];
          Transition(id, Processing, actor);
          assert db.State()
              == P.Shift(old(db.State()), id, P.Submitted(old(db.withdrawals[id]), sub.lookup), actor).value;
          r := Process(id, sub, actor);
      }
    }

    /** The transfer itself, for a withdrawal just moved to PROCESSING. */
    method Process(id: nat, sub: P.Submission, actor: Option<ActorId>) returns (r: Result<()>)
      requires Ready() && id < |db.withdrawals|
      modifies db, gateway
      ensures Agrees(r, match sub.process
                        case ProcessUnreachable => P.ReconcileLocked(old(db.State()), id, sub.query, actor)
                        case ProcessRefused => P.ShiftTo(old(db.State()), id, Failed, actor)
                        case ProcessFault => Raised(ProviderFault)
                        case Processed(reply) => P.ApplyProviderResult(old(db.State()), id, reply, actor),
                     db.State())
      ensures gateway.calls
              == old(gateway.calls) + [P.PayoutCall(id, old(db.withdrawals[id].key), old(db.withdrawals[id].amount))]
    {
      var answer := gateway.TransactionProcess(id, db.withdrawals[id].key, db.withdrawals[id].amount, sub.process);
      match answer {
        case ProcessUnreachable => r := ReconcileLocked(id, sub.query, actor);
        case ProcessRefused => r := FailWithdrawal(id, actor);
        case ProcessFault => return Raised(ProviderFault);
        case Processed(reply) => r := ApplyProviderResult(id, reply, actor);
      }
    }

    method MatchProviderAmount(reported: Reported, principal: int, charge: Option<int>)
      returns (form: Option<AmountMatch>)
      ensures form.Some? <==> P.AmountExplained(reported, principal, charge)
      ensures form == Some(PrincipalExact) <==> reported == Cents(principal)
    {
      if reported == Cents(principal) {
        return Some(PrincipalExact);
      }
      if charge.Some? && charge.value >= 0 && reported == Cents(principal + charge.value) {
        return Some(PrincipalPlusStoredCharge);
      }
      return None;
    }

    method ApplyProviderResult(id: nat, reply: P.Reply, actor: Option<ActorId>) returns (r: Result<()>)
      requires Ready() && id < |db.withdrawals|
      modifies db
      ensures Agrees(r, P.ApplyProviderResult(old(db.State()), id, reply, actor), db.State())
    {
      var w := db.withdrawals[id];
      if !w.status.Processing? && !w.status.Ambiguous? {
        return Ok(());
      }
      match reply.outcome {
        case Succeeded => r := ApplySuccess(id, reply, actor);
        case StillInProgress => return Ok(());
        case Unknown =>
          Transition(id, Ambiguous, actor);
          return Ok(());
        case Refused => r := FailWithdrawal(id, actor);
      }
    }

    /** A reported success: finalized only when transId, currency and amount all fit. */
    method ApplySuccess(id: nat, reply: P.Reply, actor: Option<ActorId>) returns (r: Result<()>)
      requires Ready() && id < |db.withdrawals|
      modifies db
      ensures Agrees(r, P.ShiftTo(old(db.State()), id,
                                  if P.Explains(old(db.withdrawals[id]), reply) then Success else Ambiguous, actor),
                     db.State())
    {
      var w := db.withdrawals[id];
      if reply.transId.Some? && reply.transId.value != w.key {
        Transition(id, Ambiguous, actor);
        return Ok(());
      }
      if reply.currency.Some? && reply.currency.value != w.currency {
        Transition(id, Ambiguous, actor);
        return Ok(());
      }
      if reply.amount.Some? {
        var form := MatchProviderAmount(reply.amount.value, w.amount, w.providerCharge);
        if form.None? {
          Transition(id, Ambiguous, actor);
          return Ok(());
        }
      }
      var _ :- wallet.CompleteDisbursement(w.tenant, w.amount, id);
      Transition(id, Success, actor);
      return Ok(());
    }

    // ---------------------------------------------------- reconciliation

    method ReconcileLocked(id: nat, query: P.Query, actor: Option<ActorId>) returns (r: Result<()>)
      requires Ready() && id < |db.withdrawals|
      modifies db
      ensures Agrees(r, P.ReconcileLocked(old(db.State()), id, query, actor), db.State())
    {
      match query {
        case NoAnswer => return Ok(());
        case QueryFault => return Raised(ProviderFault);
        case Answer(reply) => r := ApplyProviderResult(id, reply, actor);
      }
    }

    method ReconcileWithdrawal(op: P.PayoutOp) returns (r: Result<()>)
      requires Ready() && op.Reconcile?
      modifies db
      ensures Agrees(r, P.ReconcileWithdrawal(old(db.State()), op), db.State())
    {
      var w :- P.Locked(db.State(), None, op.id);
      r := ReconcileLocked(op.id, op.query, None);
    }

    method ReconcileIfPending(op: P.PayoutOp) returns (r: Result<bool>)
      requires Ready() && op.ReconcileIfPending?
      modifies db
      ensures Agrees(r, P.ReconcilePending(old(db.State()), op), db.State())
      ensures r.Ok? ==> (r.value <==> P.InFlight(old(db.withdrawals)[op.id].status))
    {
      var w :- P.Locked(db.State(), None, op.id);
      if !w.status.Processing? && !w.status.Ambiguous? {
        return Ok(false);
      }
      var _ :- ReconcileLocked(op.id, op.query, None);
      return Ok(true);
    }

    method ApplyDisbursementResult(op: P.PayoutOp) returns (r: Result<()>)
      requires Ready() && op.ApplyDisbursement?
      modifies db
      ensures Agrees(r, P.ApplyDisbursementResult(old(db.State()), op), db.State())
    {
      var w :- P.Locked(db.State(), None, op.id);
      if !w.status.Processing? {
        return Ok(());
      }
      if op.succeeded {
        var _ :- wallet.CompleteDisbursement(w.tenant, w.amount, op.id);
        Transition(op.id, Success, None);
        return Ok(());
      }
      r := FailWithdrawal(op.id, None);
    }
  }
}
