/**
 The payment commands in place. A method whose name ends in Tx is the body of a
 database transaction: when it throws, what it has written so far is undone by
 the method that opened the transaction.
 */
module PaymentDb {
  import opened Prelude
  import opened Ledger
  import opened Payments
  import opened LedgerDb
  import Policy

  lemma PollIsCommand(s: State, pid: nat, ref: string, outcome: Outcome)
    ensures Next(s, DoStatusPoll(pid, ref, outcome)) == match StatusPoll(s, pid, ref, outcome) { case Ok(s') => s' case Err(_) => s }
  {
  }

  class Database {
    const ledger: LedgerTables
    var payments: seq<Payment>
    var history: seq<Change>
    var attempts: seq<Attempt>
    var reversals: seq<Reversal>
    var requests: seq<ApprovalRef>
    var events: seq<WebhookEvent>
    var records: map<(nat, string), nat>
    var outbox: seq<Notice>
    var orphans: seq<Orphan>

    constructor (wallets: seq<Wallet>)
      ensures fresh(ledger) && Snapshot() == Initial(wallets)
    {
      ledger := new LedgerTables(wallets);
      payments, history, attempts, reversals, requests, events, records, outbox, orphans := [], [], [], [], [], [], map[], [], [];
    }

    function Snapshot(): State
      reads this, ledger
    {
      State(ledger.Snapshot(), payments, history, attempts, reversals, requests, events, records, outbox, orphans)
    }

    /** Inside a transaction: committed work is as specified, and a throw carries the specified code. */
    ghost predicate InTx(r: Result<()>, spec: Result<State>)
      reads this, ledger
    {
      match spec
      case Ok(s) => r.Ok? && Snapshot() == s
      case Err(c) => r == Err(c)
    }

    /** A whole transaction: on a throw nothing has changed. */
    ghost predicate Did(r: Result<()>, spec: Result<State>, was: State)
      reads this, ledger
    {
      InTx(r, spec) && (r.Err? ==> Snapshot() == was)
    }

    method Rollback(s: State)
      modifies this, ledger
      ensures Snapshot() == s
    {
      ledger.Restore(s.books);
      payments, history, attempts, reversals := s.payments, s.history, s.attempts, s.reversals;
      requests, events, records, outbox, orphans := s.requests, s.events, s.records, s.outbox, s.orphans;
    }

    method EnqueueOutbox(kind: NoticeKind, ref: nat)
      modifies this`outbox
      ensures Snapshot() == Notify(old(Snapshot()), kind, ref)
    {
      outbox := outbox + [Notice(kind, ref)];
    }

    method TransitionPayment(pid: nat, to: Status) returns (r: Result<()>)
      modifies this`payments, this`history
      ensures Did(r, Transition(old(Snapshot()), pid, to), old(Snapshot()))
    {
      if pid >= |payments| {
        return Err("PAYMENT_NOT_FOUND");
      }
      var from := payments[pid].status;
      if !CanTransition(from, to) {
        return Err("ILLEGAL_TRANSITION");
      }
      if from != to {
        history := history + [Change(pid, Some(from), to)];
        payments := payments[pid := payments[pid].(status := to, version := payments[pid].version + 1)];
      }
      return Ok(());
    }

    /** Creates a DRAFT payment under the idempotency guard; a completed record is replayed. */
    method CreatePayment(tenant: nat, wallet: nat, amount: int, fee: int, key: string, number: string, facts: Facts)
      returns (r: Result<Created>)
      modifies this`payments, this`history, this`records
      ensures match Payments.CreatePayment(old(Snapshot()), tenant, wallet, amount, fee, key, number, facts)
              case Ok((s, created)) => r == Ok(created) && Snapshot() == s
              case Err(c) => r == Err(c) && Snapshot() == old(Snapshot())
    {
      if amount <= 0 {
        return Err("INVALID_AMOUNT");
      }
      if (tenant, key) in records {
        return Ok(Created(records[(tenant, key)], true));
      }
      if wallet >= |ledger.wallets| || ledger.wallets[wallet].tenant != tenant {
        return Err("WALLET_NOT_FOUND");
      }
      if !ledger.wallets[wallet].active {
        return Err("WALLET_FROZEN");
      }
      if KeyTaken(payments, tenant, key) {
        return Err("23505");
      }
      var pid := |payments|;
      payments := payments + [Payment(tenant, number, Some(wallet), amount, fee, amount + fee, key, facts, Draft, 1, "")];
      history := history + [Change(pid, None, Draft)];
      records := records[(tenant, key) := pid];
      return Ok(Created(pid, false));
    }

    /** Reserves the total, then queues; a denial is caught and fails the payment instead. */
    method QueuePaymentTx(tenant: nat, pid: nat) returns (r: Result<()>)
      modifies this, ledger
      ensures InTx(r, QueuePayment(old(Snapshot()), tenant, pid))
    {
      if pid >= |payments| {
        return Err("PAYMENT_NOT_FOUND");
      }
      if payments[pid].wallet.None? {
        return Err("WALLET_NOT_FOUND");
      }
      var reserved :- ledger.ReserveFunds(tenant, pid, payments[pid].wallet.value, payments[pid].total);
      if !reserved {
        var _ :- TransitionPayment(pid, Failed);
        EnqueueOutbox(FailedNotice, pid);
        return Ok(());
      }
      var _ :- TransitionPayment(pid, Queued);
      EnqueueOutbox(QueuedNotice, pid);
      return Ok(());
    }

    method SubmitPaymentTx(tenant: nat, pid: nat, rules: seq<Policy.Rule>, payeeApproved: bool, amlHit: bool) returns (r: Result<()>)
      modifies this, ledger
      ensures InTx(r, Payments.SubmitPayment(old(Snapshot()), tenant, pid, rules, payeeApproved, amlHit))
    {
      if !(pid < |payments| && payments[pid].tenant == tenant) {
        return Err("PAYMENT_NOT_FOUND");
      }
      if payments[pid].status !in {Draft, Validating, Rejected, Failed} {
        return Err("INVALID_STATE");
      }
      if payments[pid].wallet.None? {
        return Err("NO_WALLET");
      }
      if !payeeApproved {
        return Err("PAYEE_NOT_APPROVED");
      }
      var _ :- TransitionPayment(pid, Validating);
      if amlHit {
        var flags := payments[pid].facts.riskFlags + [Policy.AML_FLAG];
        payments := payments[pid := payments[pid].(facts := payments[pid].facts.(riskFlags := flags))];
      }
      assert Snapshot() == Flagged(Transition(old(Snapshot()), pid, Validating).value, pid, amlHit);
      r := DecideSubmissionTx(tenant, pid, rules, amlHit);
    }

    method DecideSubmissionTx(tenant: nat, pid: nat, rules: seq<Policy.Rule>, amlHit: bool) returns (r: Result<()>)
      requires pid < |payments|
      modifies this, ledger
      ensures InTx(r, DecideSubmission(old(Snapshot()), tenant, pid, rules, amlHit))
    {
      var ctx := ContextOf(payments[pid]);
      var decided := rules;
      var steps := Policy.EvaluatePolicy(decided, ctx);
      if |steps| == 0 && amlHit {
        decided := [Policy.AML_RULE];
        steps := Policy.EvaluatePolicy(decided, ctx);
      }
      assert decided == Policy.SubmissionRules(rules, ctx, amlHit);
      if |steps| > 0 {
        var valid := Policy.ValidateRules(decided);
        if !valid {
          return Err("INVALID_RULES");
        }
        requests := requests + [ApprovalRef(pid, steps)];
        var _ :- TransitionPayment(pid, PendingApproval);
        EnqueueOutbox(ApprovalRequested, pid);
        return Ok(());
      }
      r := QueuePaymentTx(tenant, pid);
    }

    method SubmitPayment(tenant: nat, pid: nat, rules: seq<Policy.Rule>, payeeApproved: bool, amlHit: bool) returns (r: Result<()>)
      modifies this, ledger
      ensures Did(r, Payments.SubmitPayment(old(Snapshot()), tenant, pid, rules, payeeApproved, amlHit), old(Snapshot()))
    {
      var was := Snapshot();
      r := SubmitPaymentTx(tenant, pid, rules, payeeApproved, amlHit);
      if r.Err? {
        Rollback(was);
      }
    }

    method ApproveQueuedPayment(tenant: nat, pid: nat) returns (r: Result<()>)
      modifies this, ledger
      ensures Did(r, ApproveQueued(old(Snapshot()), tenant, pid), old(Snapshot()))
    {
      var was := Snapshot();
      if !(pid < |payments| && payments[pid].tenant == tenant) {
        return Err("PAYMENT_NOT_FOUND");
      }
      if payments[pid].status != PendingApproval {
        return Err("INVALID_STATE");
      }
      r := TransitionPayment(pid, Approved);
      if r.Ok? {
        r := QueuePaymentTx(tenant, pid);
      }
      if r.Err? {
        Rollback(was);
      }
    }

    method CancelPayment(tenant: nat, pid: nat) returns (r: Result<()>)
      modifies this, ledger
      ensures Did(r, Payments.CancelPayment(old(Snapshot()), tenant, pid), old(Snapshot()))
    {
      if !(pid < |payments| && payments[pid].tenant == tenant) {
        return Err("PAYMENT_NOT_FOUND");
      }
      if payments[pid].status !in {Draft, Rejected, Failed, Queued} {
        return Err("INVALID_STATE");
      }
      var _ :- TransitionPayment(pid, Cancelled);
      EnqueueOutbox(CancelledNotice, pid);
      return Ok(());
    }

    /** No check of the amount's sign here: the funding journal refuses what is not positive and everything is undone. */
    method FundWallet(tenant: nat, wallet: nat, amount: int) returns (r: Result<()>)
      modifies this, ledger
      ensures Did(r, Payments.FundWallet(old(Snapshot()), tenant, wallet, amount), old(Snapshot()))
    {
      if wallet >= |ledger.wallets| || ledger.wallets[wallet].tenant != tenant {
        return Err("WALLET_NOT_FOUND");
      }
      var _ :- ledger.CreditWallet(tenant, wallet, FundingRef, amount);
      EnqueueOutbox(Funded, wallet);
      return Ok(());
    }

    /** Applies or releases the reservation when it is still held. */
    method ConsumeHoldTx(pid: nat, apply: bool) returns (r: Result<()>)
      modifies ledger
      ensures InTx(r, ConsumeHold(old(Snapshot()), pid, apply))
    {
      var found := FindReservation(ledger.reservations, pid);
      if found.Some? && ledger.reservations[found.value].status == Held {
        if apply {
          r := ledger.ApplyReservation(found.value);
        } else {
          r := ledger.ReleaseReservation(found.value);
        }
        return;
      }
      return Ok(());
    }

    method ApplyProviderSuccessTx(pid: nat, ref: string) returns (r: Result<()>)
      modifies this, ledger
      ensures InTx(r, ApplyProviderSuccess(old(Snapshot()), pid, ref))
    {
      if pid >= |payments| {
        return Err("PAYMENT_NOT_FOUND");
      }
      var payment := payments[pid];
      if payment.status == Success {
        return Ok(());
      }
      if payment.status !in {Processing, ProviderPending, Queued} {
        return Err("INVALID_STATE");
      }
      var _ :- ConsumeHoldTx(pid, true);
      ghost var s1 := Snapshot();
      var _ :- TransitionPayment(pid, Success);
      payments := payments[pid := payments[pid].(providerRef := ref)];
      assert MarkSuccess(s1, pid, ref) == Ok(Snapshot());
      var _ :- ledger.PostPaymentSuccessJournal(payment.tenant, pid, payment.wallet, payment.amount, payment.fee);
      EnqueueOutbox(Succeeded, pid);
      return Ok(());
    }

    method ApplyProviderFailureTx(pid: nat) returns (r: Result<()>)
      modifies this, ledger
      ensures InTx(r, ApplyProviderFailure(old(Snapshot()), pid))
    {
      if pid >= |payments| {
        return Err("PAYMENT_NOT_FOUND");
      }
      if payments[pid].status in {Failed, Cancelled, Status.Reversed} {
        return Ok(());
      }
      var _ :- ConsumeHoldTx(pid, false);
      var _ :- TransitionPayment(pid, Failed);
      EnqueueOutbox(FailedNotice, pid);
      return Ok(());
    }

    /** The attempts table holds references up to its column's width. */
    method InsertAttempt(pid: nat, ref: string) returns (r: Result<()>)
      modifies this`attempts
      ensures r.Ok? <==> |ref| <= REFERENCE_WIDTH
      ensures r.Ok? ==> Snapshot() == RecordAttempt(old(Snapshot()), pid, ref)
      ensures r.Err? ==> r.code == "22001"
    {
      if |ref| > REFERENCE_WIDTH {
        return Err("22001");
      }
      attempts := attempts + [Attempt(pid, ref)];
      return Ok(());
    }

    /** The answer is what the provider call returns or throws. */
    method ExecutePaymentTx(tenant: nat, pid: nat, answer: ProviderAnswer) returns (r: Result<()>)
      modifies this, ledger
      ensures InTx(r, Payments.ExecutePayment(old(Snapshot()), tenant, pid, answer))
    {
      if !(pid < |payments| && payments[pid].tenant == tenant) {
        return Err("PAYMENT_NOT_FOUND");
      }
      if payments[pid].status != Queued {
        return Ok(());
      }
      var ref := "ZF-" + payments[pid].number;
      var _ :- TransitionPayment(pid, Processing);
      if answer.Threw? {
        var _ :- InsertAttempt(pid, ref);
        r := TransitionPayment(pid, ProviderPending);
        return;
      }
      if answer.ref.Some? {
        ref := answer.ref.value;
      }
      var _ :- InsertAttempt(pid, ref);
      match answer.status {
        case PSuccess => r := ApplyProviderSuccessTx(pid, ref);
        case PFailed => r := ApplyProviderFailureTx(pid);
        case PReversed => r := TransitionPayment(pid, Status.Reversed);
        case PPending => r := TransitionPayment(pid, ProviderPending);
        case PUnknown => r := TransitionPayment(pid, ProviderPending);
      }
    }

    method ExecutePayment(tenant: nat, pid: nat, answer: ProviderAnswer) returns (r: Result<()>)
      modifies this, ledger
      ensures Did(r, Payments.ExecutePayment(old(Snapshot()), tenant, pid, answer), old(Snapshot()))
    {
      var was := Snapshot();
      r := ExecutePaymentTx(tenant, pid, answer);
      if r.Err? {
        Rollback(was);
      }
    }

    method IngestWebhook(id: string, ref: string, outcome: Outcome) returns (accepted: bool)
      modifies this`events
      ensures Snapshot() == Payments.IngestWebhook(old(Snapshot()), id, ref, outcome)
      ensures accepted <==> !EventSeen(old(events), id)
    {
      if EventSeen(events, id) {
        return false;
      }
      events := events + [WebhookEvent(id, ref, outcome, Received)];
      return true;
    }

    method SetEventStatus(e: nat, status: EventStatus)
      requires e < |events|
      modifies this`events
      ensures Snapshot() == MarkEvent(old(Snapshot()), e, status)
    {
      events := events[e := events[e].(status := status)];
    }

    /** One reconciliation item per source and unknown reference. */
    method AddOrphan(source: OrphanSource, ref: string)
      modifies this`orphans
      ensures Snapshot() == RecordOrphan(old(Snapshot()), source, ref)
    {
      if Orphan(source, ref) !in orphans {
        orphans := orphans + [Orphan(source, ref)];
      }
    }

    /** The event of an unknown or a payment's reference; CollectionDb tells those of collections apart first. */
    method ProcessWebhookEvent(e: nat) returns (r: Result<()>)
      modifies this, ledger
      ensures Did(r, Payments.ProcessWebhookEvent(old(Snapshot()), e), old(Snapshot()))
    {
      if e >= |events| {
        return Err("NOT_FOUND");
      }
      var event := events[e];
      if event.status == Processed {
        return Ok(());
      }
      if event.ref == "" {
        SetEventStatus(e, EventFailed);
        return Ok(());
      }
      var found := FindAttempt(attempts, event.ref);
      if found.None? {
        SetEventStatus(e, Unmatched);
        AddOrphan(FromWebhook, event.ref);
        return Ok(());
      }
      var was := Snapshot();
      var pid := attempts[found.value].payment;
      match event.outcome {
        case ReportsSuccess => r := ApplyProviderSuccessTx(pid, event.ref);
        case ReportsFailure => r := ApplyProviderFailureTx(pid);
        case ReportsReversal =>
          if pid < |payments| {
            payments := payments[pid := payments[pid].(status := Status.Reversed)];
          }
          r := Ok(());
        case ReportsUnknown => r := Ok(());
      }
      if r.Err? {
        Rollback(was);
        return;
      }
      if e < |events| {
        SetEventStatus(e, Processed);
      }
    }

    method StatusPoll(pid: nat, ref: string, outcome: Outcome) returns (r: Result<()>)
      modifies this, ledger
      ensures Did(r, Payments.StatusPoll(old(Snapshot()), pid, ref, outcome), old(Snapshot()))
    {
      var was := Snapshot();
      match outcome {
        case ReportsSuccess => r := ApplyProviderSuccessTx(pid, ref);
        case ReportsFailure => r := ApplyProviderFailureTx(pid);
        case ReportsReversal => r := TransitionPayment(pid, Status.Reversed);
        case ReportsUnknown => r := Ok(());
      }
      if r.Err? {
        Rollback(was);
      }
    }

    /** A poll as one more command of a run. */
    method PollInRun(pid: nat, ref: string, outcome: Outcome, ghost start: State, ghost polls: seq<Command>) returns (r: Result<()>)
      requires Snapshot() == Run(start, polls)
      modifies this, ledger
      ensures Snapshot() == Run(start, polls + [DoStatusPoll(pid, ref, outcome)])
    {
      ghost var was, poll := Snapshot(), DoStatusPoll(pid, ref, outcome);
      RunExtends(start, polls, poll);
      PollIsCommand(was, pid, ref, outcome);
      r := StatusPoll(pid, ref, outcome);
    }

    /** What the monitor's query selects: at most limit PROVIDER_PENDING payments. */
    predicate IsStuck(stuck: seq<nat>)
      reads this
    {
      forall k | 0 <= k < |stuck| :: stuck[k] < |payments| && payments[stuck[k]].status == ProviderPending
    }

    /**
     One pass over the stuck payments with the provider's answers (None: unreachable).
     It is a run of status polls; where no PROVIDER_PENDING payment has a reference, it polls nobody.
     */
    method MonitorStuckPayments(stuck: seq<nat>, answers: seq<Option<Outcome>>) returns (updated: nat, ghost polls: seq<Command>)
      requires IsStuck(stuck) && |answers| == |stuck|
      modifies this, ledger
      ensures Snapshot() == Run(old(Snapshot()), polls)
      ensures forall k | 0 <= k < |polls| :: polls[k].DoStatusPoll?
      ensures PendingUnreferenced(old(payments)) ==> updated == 0 && polls == []
    {
      updated, polls := 0, [];
      var read := payments;
      ghost var start := Snapshot();
      for k := 0 to |stuck|
        invariant Snapshot() == Run(start, polls)
        invariant forall i | 0 <= i < |polls| :: polls[i].DoStatusPoll?
        invariant PendingUnreferenced(read) ==> updated == 0 && polls == []
      {
        var payment := read[stuck[k]];
        if payment.providerRef != "" && answers[k].Some? {
          var polled := PollInRun(stuck[k], payment.providerRef, answers[k].value, start, polls);
          polls := polls + [DoStatusPoll(stuck[k], payment.providerRef, answers[k].value)];
          if polled.Ok? {
            updated := updated + 1;
          }
        }
      }
    }

    method RequestReversalTx(tenant: nat, pid: nat, answer: ProviderAnswer) returns (r: Result<()>)
      modifies this, ledger
      ensures InTx(r, Payments.RequestReversal(old(Snapshot()), tenant, pid, answer))
    {
      if !(pid < |payments| && payments[pid].tenant == tenant) {
        return Err("PAYMENT_NOT_FOUND");
      }
      var payment := payments[pid];
      if payment.status !in {Success, ProviderPending} {
        return Err("INVALID_STATE");
      }
      if payment.providerRef == "" {
        return Err("NO_PROVIDER_REF");
      }
      if ReversalProcessed(reversals, pid) {
        return Ok(());
      }
      if answer.Threw? {
        return Err("PROVIDER_ERROR");
      }
      reversals := reversals + [Reversal(pid, answer.status == PSuccess)];
      if answer.status == PSuccess {
        var _ :- TransitionPayment(pid, Status.Reversed);
        var _ :- ledger.PostReversalJournal(tenant, pid, payment.wallet, payment.amount);
        EnqueueOutbox(ReversedNotice, pid);
        return Ok(());
      }
      r := TransitionPayment(pid, ProviderPending);
    }

    method RequestReversal(tenant: nat, pid: nat, answer: ProviderAnswer) returns (r: Result<()>)
      modifies this, ledger
      ensures Did(r, Payments.RequestReversal(old(Snapshot()), tenant, pid, answer), old(Snapshot()))
    {
      var was := Snapshot();
      r := RequestReversalTx(tenant, pid, answer);
      if r.Err? {
        Rollback(was);
      }
    }

    /** A replayed approval of an already REVERSED payment is a no-op. */
    method ExecuteApprovedReversal(tenant: nat, pid: nat, answer: ProviderAnswer) returns (r: Result<()>)
      modifies this, ledger
      ensures Has(old(Snapshot()), tenant, pid) && old(payments)[pid].status == Status.Reversed ==> r.Ok? && Snapshot() == old(Snapshot())
      ensures !(Has(old(Snapshot()), tenant, pid) && old(payments)[pid].status == Status.Reversed) ==>
                Did(r, Payments.RequestReversal(old(Snapshot()), tenant, pid, answer), old(Snapshot()))
    {
      if !(pid < |payments| && payments[pid].tenant == tenant) {
        return Err("PAYMENT_NOT_FOUND");
      }
      if payments[pid].status == Status.Reversed {
        return Ok(());
      }
      r := RequestReversal(tenant, pid, answer);
    }
  }
}
