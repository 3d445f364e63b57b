/** One service call, as the routes run it: the call's service method inside a
    transaction that is committed if it returns and rolled back if it raises. */
module Backend {
  import opened Basics
  import opened Records
  import opened WalletServices
  import opened PayoutServices
  import opened PaymentServices
  import opened Platform
  import Invariants
  import PayoutRules
  import PaymentRules
  import PayoutTheorems

  class Api {
    const db: Database
    const gateway: Gateway
    const wallet: WalletService
    const terms: CommercialTermsService
    const payouts: PayoutService
    const collections: CollectionService
    const portal: CaptivePortalService
    const subscriptions: SubscriptionService
    const activation: CaptivePortalActivationService

    constructor (db: Database, gateway: Gateway)
      ensures Bound() && this.db == db && this.gateway == gateway
    {
      this.db, this.gateway := db, gateway;
      wallet := new WalletService(db);
      terms := new CommercialTermsService(db);
      payouts := new PayoutService(db, gateway);
      collections := new CollectionService(db);
      portal := new CaptivePortalService(db);
      subscriptions := new SubscriptionService(db);
      activation := new CaptivePortalActivationService(db);
    }

    predicate Bound() {
      && wallet.db == db && terms.db == db
      && payouts.db == db && payouts.gateway == gateway && payouts.Bound()
      && collections.db == db && collections.Bound() && portal.db == db && portal.Bound()
      && subscriptions.db == db && activation.db == db && activation.Bound()
    }

    /** The state afterwards is the platform's step, whatever the call; and every call of
        transaction_process it made is on the provider's log even if it was rolled back. */
    method Handle(call: Call) returns (r: Result<()>)
      requires Bound() && Invariants.Inv(db.State())
      modifies db, gateway
      ensures r.Ok? <==> StepDb(old(db.State()), call).Ok?
      ensures db.State() == StepDb(old(db.State()), call).Or(old(db.State()))
      ensures gateway.calls == old(gateway.calls) + PayoutTheorems.CallsMade(old(db.State()), call)
    {
      var before := db.State();
      match call.op {
        case Payout(op) => r := HandlePayout(call.cfg, call.now, op);
        case Payment(op) => r := HandlePayment(call.cfg, call.now, op);
        case Adjust(t, b, dir, amount, reason, ref) => r := wallet.CreateAdjustment(t, b, dir, amount, reason, ref);
        case SettleOp(t, amount) => r := wallet.SettlePending(t, amount);
        case RefundOp(t, amount, ref) => r := wallet.RecordRefund(t, amount, ref);
        case ReversalOp(t, amount, ref) => r := wallet.RecordReversal(t, amount, ref);
      }
      if r.Raised? {
        db.Rollback(before);
      }
    }

    method HandlePayout(cfg: Settings, now: Time, op: PayoutRules.PayoutOp) returns (r: Result<()>)
      requires Bound() && Invariants.Inv(db.State())
      modifies db, gateway
      ensures Agrees(r, PayoutRules.PayoutStep(old(db.State()), cfg, now, op), db.State())
      ensures gateway.calls == old(gateway.calls) + PayoutRules.PayoutCalls(old(db.State()), cfg, now, op)
    {
      match op {
        case Request(_, _, _, _, _, _, _, _, _, _, _) => r := payouts.RequestWithdrawal(cfg, now, op);
        case Resend(_, _, _, _, _) => r := payouts.ResendOtp(cfg, now, op);
        case Confirm(_, _, _, _, _, _, _) => r := payouts.ConfirmTwoFactor(cfg, now, op);
        case Approve(_, _, _) => r := payouts.ApproveWithdrawal(cfg, op);
        case Reject(_, _, _) => r := payouts.RejectWithdrawal(op);
        case Cancel(_, _, _) => r := payouts.CancelWithdrawal(op);
        case Reverse(_, _, _, _) => r := payouts.ReverseWithdrawal(op);
        case Reconcile(_, _) => r := payouts.ReconcileWithdrawal(op);
        case ReconcileIfPending(_, _) =>
          var reconciled := payouts.ReconcileIfPending(op);
          r := reconciled.Outcome();
        case ApplyDisbursement(_, _) => r := payouts.ApplyDisbursementResult(op);
      }
    }

    method HandlePayment(cfg: Settings, now: Time, op: PaymentRules.PaymentOp) returns (r: Result<()>)
      requires Bound() && Invariants.Inv(db.State())
      modifies db
      ensures Agrees(r, PaymentRules.PaymentStep(old(db.State()), cfg, now, op), db.State())
    {
      match op {
        case SetRate(t, rate) => r := terms.SetCommissionRate(t, rate);
        case InitiateCollection(_, _, _, _, _, _, _, _) => r := collections.InitiateCollection(cfg, now, op);
        case InitiateCaptive(_, _, _, _, _, _, _) =>
          var answer := portal.InitiatePayment(cfg, now, op);
          r := answer.Outcome();
        case ReconcileVia(asked, i, answer) =>
          if asked.CollectionFlow? {
            r := collections.provider.Reconcile(cfg, now, i, answer);
          } else {
            r := portal.provider.Reconcile(cfg, now, i, answer);
          }
        case FinalizeCaptive(i) => r := portal.FinalizePayment(i);
        case AttemptActivation(i, meets) =>
          var status := activation.Activate(now, i, meets);
          r := status.Outcome();
        case RecordFailure(i) =>
          var status := activation.RecordFailure(i);
          r := status.Outcome();
        case ActivateByStaff(t, j, found) => r := subscriptions.Activate(now, t, j, found);
      }
    }
  }
}
