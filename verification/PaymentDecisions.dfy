/**
 Creating, submitting, approving, cancelling, funding and reversing, row by row
 (packages/payments-core/src/payments.ts and reversal.ts): when each commits and
 what it leaves, in every reachable state.
 */
module PaymentDecisions {
  import opened Prelude
  import Sums
  import opened Ledger
  import opened Movements
  import opened Payments
  import opened PaymentInvariant
  import opened PaymentTheorems
  import opened PaymentOutcomes
  import ProviderCalls
  import PaymentGuarantees
  import Policy

  /** Tables that neither a decision nor a reversal writes. */
  predicate Untouched(s: State, s': State) {
    s'.attempts == s.attempts && s'.events == s.events && s'.records == s.records && s'.orphans == s.orphans
  }

  // --------------------------------------------------------------------- creation

  /** A new payment is a DRAFT for amount and fee on an active wallet of the tenant, under a key that no payment of the tenant has; a recorded key is answered with its payment. */
  lemma CreatedIff(s: State, tenant: nat, wallet: nat, amount: int, fee: int, key: string, number: string, facts: Facts)
    ensures var r, pid := CreatePayment(s, tenant, wallet, amount, fee, key, number, facts), |s.payments|;
      if amount <= 0 then r == Err("INVALID_AMOUNT")
      else if (tenant, key) in s.records then r == Ok((s, Created(s.records[(tenant, key)], true)))
      else
        && (r.Ok? <==>
              && wallet < |s.books.wallets| && s.books.wallets[wallet].tenant == tenant && s.books.wallets[wallet].active
              && forall i | 0 <= i < |s.payments| :: !(s.payments[i].tenant == tenant && s.payments[i].key == key))
        && (r.Ok? ==>
              r.value == (s.(payments := s.payments + [Payment(tenant, number, Some(wallet), amount, fee, amount + fee, key, facts, Draft, 1, "")],
                             history := s.history + [Change(pid, None, Draft)],
                             records := s.records[(tenant, key) := pid]),
                          Created(pid, false)))
  {
  }

  /** The payment of a batch row is QUEUED on the tenant's float without a fee, under a free key. */
  lemma MaterializedIff(s: State, tenant: nat, amount: int, key: string, number: string, facts: Facts)
    ensures MaterializeRow(s, tenant, amount, key, number, facts) ==
      if exists i :: 0 <= i < |s.payments| && s.payments[i].tenant == tenant && s.payments[i].key == key then Err("23505")
      else Ok(s.(payments := s.payments + [Payment(tenant, number, None, amount, 0, amount, key, facts, Queued, 1, "")]))
  {
  }

  /** The system chart opens the tenant's four accounts and no other. */
  lemma ChartIs(s: State, tenant: nat, a: Account)
    ensures var s' := EnsureSystemChart(s, tenant);
      && s' == s.(books := s.books.(accounts := s'.books.accounts))
      && (a in s'.books.accounts <==> a in s.books.accounts || a == Clearing(tenant) || a == FloatLiability(tenant) || a == FeeRevenue(tenant) || a == ProviderSettlement(tenant))
  {
  }

  // --------------------------------------------------------------------- queueing

  /** Queued with its total set aside, or failed with a denial on record. */
  ghost predicate QueuedOrFailed(s: State, s': State, tenant: nat, pid: nat, via: Status)
    requires pid < |s.payments| && s.payments[pid].wallet.Some?
  {
    var p, w := s.payments[pid], s.payments[pid].wallet.value;
    var enough := Covers(s.books, tenant, w, p.total);
    && RowMoves(s, s', pid, p, [via, if enough then Queued else Failed])
    && (if enough then SetAside(s.books, s'.books, pid, w, p.total) else Denied(s.books, s'.books, pid, w, p.total))
    && s'.outbox == s.outbox + [Notice(if enough then QueuedNotice else FailedNotice, pid)]
    && s'.requests == s.requests && s'.reversals == s.reversals && Untouched(s, s')
  }

  lemma QueuedIs(s: State, tenant: nat, pid: nat)
    requires pid < |s.payments| && s.payments[pid].wallet.Some? && s.payments[pid].status in {Validating, Approved}
    requires !HasReservation(s.books, pid)
    ensures var p, w, r := s.payments[pid], s.payments[pid].wallet.value, QueuePayment(s, tenant, pid);
      var enough := Covers(s.books, tenant, w, p.total);
      && (r.Ok? <==> w < |s.books.wallets| && p.total >= 0)
      && (r.Ok? ==>
            && (if enough then SetAside(s.books, r.value.books, pid, w, p.total) else Denied(s.books, r.value.books, pid, w, p.total))
            && r.value == s.(payments := s.payments[pid := p.(status := if enough then Queued else Failed, version := p.version + 1)],
                             history := s.history + [Change(pid, Some(p.status), if enough then Queued else Failed)],
                             books := r.value.books,
                             outbox := s.outbox + [Notice(if enough then QueuedNotice else FailedNotice, pid)]))
  {
    var p := s.payments[pid];
    ReservedIff(s.books, tenant, pid, p.wallet.value, p.total);
    assert CanTransition(p.status, Queued) && CanTransition(p.status, Failed);
  }

  lemma NotReservedYet(s: State, pid: nat)
    requires Reachable(s) && pid < |s.payments| && s.payments[pid].status in {Draft, PendingApproval}
    ensures !HasReservation(s.books, pid)
  {
    HoldFollowsStatus(s, pid);
  }

  /** The wallet of a payment exists, whatever its status. */
  lemma FundingWalletExists(s: State, pid: nat)
    requires Reachable(s) && pid < |s.payments| && s.payments[pid].wallet.Some?
    ensures s.payments[pid].wallet.value < |s.books.wallets|
  {
    ReachableInv(s);
  }

  /** Approval queues the payment exactly when its wallet has the total, and fails it otherwise; a negative total is refused. */
  lemma ApprovedIs(s: State, tenant: nat, pid: nat)
    requires Reachable(s) && Has(s, tenant, pid) && s.payments[pid].status == PendingApproval && s.payments[pid].wallet.Some?
    ensures var r := ApproveQueued(s, tenant, pid);
      && (r.Ok? <==> s.payments[pid].total >= 0)
      && (r.Ok? ==> QueuedOrFailed(s, r.value, tenant, pid, Approved))
  {
    NotReservedYet(s, pid);
    FundingWalletExists(s, pid);
    QueuedIs(Transition(s, pid, Approved).value, tenant, pid);
  }

  lemma NotApprovable(s: State, tenant: nat, pid: nat)
    ensures !Has(s, tenant, pid) ==> ApproveQueued(s, tenant, pid) == Err("PAYMENT_NOT_FOUND")
    ensures Has(s, tenant, pid) && s.payments[pid].status != PendingApproval ==> ApproveQueued(s, tenant, pid) == Err("INVALID_STATE")
  {
  }

  // ------------------------------------------------------------------- submission

  /** What the policy is asked about a payment: its amount and facts, and the watchlist flag after a hit. */
  function Asked(p: Payment, amlHit: bool): Policy.Context {
    Policy.Context(p.amount, p.facts.product, p.facts.channel, p.facts.branch, p.facts.department,
                   p.facts.riskFlags + if amlHit then ["aml_watchlist_hit"] else [])
  }

  /** The submission waits for approval under a request with these steps; the flag of a hit is kept on the payment. */
  predicate WaitsForApproval(s: State, s': State, pid: nat, amlHit: bool, steps: seq<Policy.StepRequirement>)
    requires pid < |s.payments|
  {
    var p := s.payments[pid];
    && RowMoves(s, s', pid, p.(facts := p.facts.(riskFlags := Asked(p, amlHit).riskFlags)), [Validating, PendingApproval])
    && s'.requests == s.requests + [ApprovalRef(pid, steps)]
    && s'.outbox == s.outbox + [Notice(ApprovalRequested, pid)]
    && s'.books == s.books && s'.reversals == s.reversals && Untouched(s, s')
  }

  /** The flagged payment while it is being validated. */
  function Validated(s: State, pid: nat, amlHit: bool): State
    requires pid < |s.payments| && s.payments[pid].status == Draft
  {
    Flagged(Transition(s, pid, Validating).value, pid, amlHit)
  }

  lemma ValidatedIs(s: State, pid: nat, amlHit: bool)
    requires pid < |s.payments| && s.payments[pid].status == Draft
    ensures var p := s.payments[pid];
      && Validated(s, pid, amlHit) == s.(
           payments := s.payments[pid := p.(status := Validating, version := p.version + 1, facts := p.facts.(riskFlags := Asked(p, amlHit).riskFlags))],
           history := s.history + [Change(pid, Some(Draft), Validating)])
      && ContextOf(Validated(s, pid, amlHit).payments[pid]) == Asked(p, amlHit)
  {
    var p := s.payments[pid];
    assert p.facts.riskFlags + [] == p.facts.riskFlags;
    assert p.facts.(riskFlags := p.facts.riskFlags) == p.facts;
  }

  /** Every rule rules the payment out. */
  predicate NoRule(rules: seq<Policy.Rule>, ctx: Policy.Context) {
    forall i | 0 <= i < |rules| :: Policy.Excluded(rules[i], ctx)
  }

  /** The steps that count: what the rules demand, or the synthetic approver after a hit that no rule covers. */
  lemma StepsAsked(rules: seq<Policy.Rule>, ctx: Policy.Context, amlHit: bool)
    requires amlHit ==> "aml_watchlist_hit" in ctx.riskFlags
    ensures var decided := Policy.SubmissionRules(rules, ctx, amlHit);
      var steps := Policy.Evaluate(decided, ctx);
      && (!NoRule(rules, ctx) ==> decided == rules && steps != [])
      && (NoRule(rules, ctx) && amlHit ==> Policy.ValidRules(decided) && steps == [Policy.StepRequirement(1, Policy.Parallel, ["APPROVER"], 1)])
      && (NoRule(rules, ctx) && !amlHit ==> steps == [])
    ensures forall k: nat | Policy.Decides(rules, ctx, k) :: Policy.Demand(rules[k], Policy.Evaluate(rules, ctx))
  {
    Policy.DecisionIs(rules, ctx);
    if amlHit {
      Policy.WatchlistHitNeedsApproval(rules, ctx);
    }
  }

  lemma SubmitIs(s: State, tenant: nat, pid: nat, rules: seq<Policy.Rule>, amlHit: bool)
    requires Has(s, tenant, pid) && s.payments[pid].status == Draft && s.payments[pid].wallet.Some?
    ensures SubmitPayment(s, tenant, pid, rules, true, amlHit) == DecideSubmission(Validated(s, pid, amlHit), tenant, pid, rules, amlHit)
  {
  }

  lemma DecideIs(s: State, tenant: nat, pid: nat, rules: seq<Policy.Rule>, amlHit: bool, ctx: Policy.Context)
    requires pid < |s.payments| && s.payments[pid].status == Validating && ctx == ContextOf(s.payments[pid])
    requires Policy.Evaluate(Policy.SubmissionRules(rules, ctx, amlHit), ctx) != []
    ensures var p, r, decided := s.payments[pid], DecideSubmission(s, tenant, pid, rules, amlHit), Policy.SubmissionRules(rules, ctx, amlHit);
      && (r.Ok? <==> Policy.ValidRules(decided))
      && (r.Ok? ==>
            r.value == s.(payments := s.payments[pid := p.(status := PendingApproval, version := p.version + 1)],
                          history := s.history + [Change(pid, Some(Validating), PendingApproval)],
                          requests := s.requests + [ApprovalRef(pid, Policy.Evaluate(decided, ctx))],
                          outbox := s.outbox + [Notice(ApprovalRequested, pid)]))
  {
  }

  /** From the validated payment to the request. */
  lemma RequestMade(s: State, tenant: nat, pid: nat, rules: seq<Policy.Rule>, amlHit: bool)
    requires Has(s, tenant, pid) && s.payments[pid].status == Draft && s.payments[pid].wallet.Some?
    requires Policy.Evaluate(Policy.SubmissionRules(rules, Asked(s.payments[pid], amlHit), amlHit), Asked(s.payments[pid], amlHit)) != []
    ensures var ctx, r := Asked(s.payments[pid], amlHit), SubmitPayment(s, tenant, pid, rules, true, amlHit);
      var decided := Policy.SubmissionRules(rules, ctx, amlHit);
      && (r.Ok? <==> Policy.ValidRules(decided))
      && (r.Ok? ==> WaitsForApproval(s, r.value, pid, amlHit, Policy.Evaluate(decided, ctx)))
  {
    ValidatedIs(s, pid, amlHit);
    SubmitIs(s, tenant, pid, rules, amlHit);
    DecideIs(Validated(s, pid, amlHit), tenant, pid, rules, amlHit, Asked(s.payments[pid], amlHit));
  }

  /** A submission that some rule or a watchlist hit stops: it waits for exactly the steps demanded, and no money moves. */
  lemma StoppedSubmission(s: State, tenant: nat, pid: nat, rules: seq<Policy.Rule>, amlHit: bool)
    requires Has(s, tenant, pid) && s.payments[pid].status == Draft && s.payments[pid].wallet.Some?
    requires !NoRule(rules, Asked(s.payments[pid], amlHit)) || amlHit
    ensures var ctx, r := Asked(s.payments[pid], amlHit), SubmitPayment(s, tenant, pid, rules, true, amlHit);
      && (r.Ok? <==> NoRule(rules, ctx) || Policy.ValidRules(rules))
      && (r.Ok? ==> |r.value.requests| > 0 && WaitsForApproval(s, r.value, pid, amlHit, r.value.requests[|r.value.requests| - 1].steps))
      && (r.Ok? ==>
            var steps := r.value.requests[|r.value.requests| - 1].steps;
            if NoRule(rules, ctx) then steps == [Policy.StepRequirement(1, Policy.Parallel, ["APPROVER"], 1)]
            else forall k: nat | Policy.Decides(rules, ctx, k) :: Policy.Demand(rules[k], steps))
  {
    var ctx := Asked(s.payments[pid], amlHit);
    assert amlHit ==> ctx.riskFlags[|ctx.riskFlags| - 1] == "aml_watchlist_hit";
    StepsAsked(rules, ctx, amlHit);
    RequestMade(s, tenant, pid, rules, amlHit);
  }

  /** One that nothing stops goes straight to the queue, if the wallet has its total. */
  lemma FreeSubmission(s: State, tenant: nat, pid: nat, rules: seq<Policy.Rule>)
    requires Reachable(s) && Has(s, tenant, pid) && s.payments[pid].status == Draft && s.payments[pid].wallet.Some?
    requires NoRule(rules, Asked(s.payments[pid], false))
    ensures var r := SubmitPayment(s, tenant, pid, rules, true, false);
      && (r.Ok? <==> s.payments[pid].total >= 0)
      && (r.Ok? ==> QueuedOrFailed(s, r.value, tenant, pid, Validating))
  {
    NotReservedYet(s, pid);
    FundingWalletExists(s, pid);
    ValidatedIs(s, pid, false);
    StepsAsked(rules, Asked(s.payments[pid], false), false);
    QueuedIs(Validated(s, pid, false), tenant, pid);
  }

  /** The submissions that are refused outright. */
  lemma RefusedSubmissions(s: State, tenant: nat, pid: nat, rules: seq<Policy.Rule>, payeeApproved: bool, amlHit: bool)
    ensures var r := SubmitPayment(s, tenant, pid, rules, payeeApproved, amlHit);
      && (!Has(s, tenant, pid) ==> r == Err("PAYMENT_NOT_FOUND"))
      && (Has(s, tenant, pid) && s.payments[pid].status !in {Draft, Validating, Rejected, Failed} ==> r == Err("INVALID_STATE"))
      && (Has(s, tenant, pid) && s.payments[pid].status == Draft && s.payments[pid].wallet.None? ==> r == Err("NO_WALLET"))
      && (Has(s, tenant, pid) && s.payments[pid].status == Draft && s.payments[pid].wallet.Some? && !payeeApproved ==> r == Err("PAYEE_NOT_APPROVED"))
  {
  }

  // ------------------------------------------------------- cancelling and funding

  /** A payment that has not reached the provider can be cancelled; no money moves. */
  lemma CancelledIff(s: State, tenant: nat, pid: nat)
    requires Has(s, tenant, pid)
    ensures var r := CancelPayment(s, tenant, pid);
      && (r.Ok? <==> s.payments[pid].status in {Draft, Failed, Queued})
      && (r.Ok? ==>
            && RowMoves(s, r.value, pid, s.payments[pid], [Cancelled])
            && r.value == s.(payments := r.value.payments, history := r.value.history, outbox := s.outbox + [Notice(CancelledNotice, pid)]))
  {
  }

  /** A wallet of the tenant is funded with a positive amount, once the tenant's float account exists. */
  lemma FundedIff(s: State, tenant: nat, wallet: nat, amount: int)
    ensures var r := FundWallet(s, tenant, wallet, amount);
      && (r.Ok? <==> wallet < |s.books.wallets| && s.books.wallets[wallet].tenant == tenant && amount > 0 && FloatLiability(tenant) in s.books.accounts)
      && (r.Ok? ==>
            && Banked(s.books, r.value.books, tenant, wallet, FundingRef, amount)
            && r.value == s.(books := r.value.books, outbox := s.outbox + [Notice(Funded, wallet)]))
  {
    CreditedIff(s.books, tenant, wallet, FundingRef, amount);
  }

  // --------------------------------------------------------------------- reversal

  /** The payment is REVERSED, with one processed reversal, one reversal journal and one notice. */
  ghost predicate Reverses(s: State, s': State, tenant: nat, pid: nat)
    requires pid < |s.payments|
  {
    var p := s.payments[pid];
    && RowMoves(s, s', pid, p, [Status.Reversed])
    && s'.reversals == s.reversals + [Reversal(pid, true)]
    && OneJournalMore(s.books, s'.books, p.wallet) && IsReversalJournal(s'.books.journals[|s.books.journals|], tenant, pid, p.wallet, p.amount)
    && s'.outbox == s.outbox + [Notice(ReversedNotice, pid)]
    && s'.requests == s.requests && Untouched(s, s')
  }

  lemma {:induction false} NoReversalRow(rs: seq<Reversal>, pid: nat)
    requires ReversalCount(rs, pid) == 0
    ensures !ReversalProcessed(rs, pid)
  {
    if |rs| > 0 {
      Sums.SumDominates(|rs| - 1, IsReversal(rs, pid));
      Sums.SumAgree(|rs| - 1, IsReversal(rs, pid), IsReversal(rs[..|rs| - 1], pid));
      NoReversalRow(rs[..|rs| - 1], pid);
    }
  }

  lemma SuccessNotReversed(s: State, pid: nat)
    requires Reachable(s) && pid < |s.payments| && s.payments[pid].status == Success
    ensures !ReversalProcessed(s.reversals, pid)
  {
    ReachableInv(s);
    assert Fits(s.payments[pid], TallyOf(s, pid));
    NoReversalRow(s.reversals, pid);
  }

  /** A confirmed reversal of a SUCCESS payment with a provider reference commits exactly when its journal can be posted. */
  lemma ReversedIff(s: State, tenant: nat, pid: nat, ref: Option<string>)
    requires Reachable(s) && Has(s, tenant, pid) && s.payments[pid].status == Success
    ensures var p, r := s.payments[pid], RequestReversal(s, tenant, pid, Answered(PSuccess, ref));
      && (p.providerRef == "" ==> r == Err("NO_PROVIDER_REF"))
      && (p.providerRef != "" ==>
            (r.Ok? <==> Clearing(tenant) in s.books.accounts && p.amount > 0
                        && (if p.wallet.Some? then Mirrored(s.books, tenant, p.wallet.value) else FloatLiability(tenant) in s.books.accounts)))
      && (r.Ok? ==> Reverses(s, r.value, tenant, pid))
  {
    SuccessNotReversed(s, pid);
    ReversalPostedIff(s.books, tenant, pid, s.payments[pid].wallet, s.payments[pid].amount);
  }

  /** What a success leaves can be reversed: the reference is there, and the journal's accounts and amount are. */
  lemma SucceededCanBeReversed(s: State, s': State, pid: nat, path: seq<Status>, ref: string, answered: Option<string>)
    requires Reachable(s') && pid < |s.payments| && 1 <= |path| <= 2 && Succeeds(s, s', pid, path, ref) && ref != ""
    requires ProviderCalls.CanBook(s.books, s.payments[pid].tenant, s.payments[pid].wallet, s.payments[pid].amount, s.payments[pid].fee)
    ensures var r := RequestReversal(s', s.payments[pid].tenant, pid, Answered(PSuccess, answered));
      r.Ok? && Reverses(s', r.value, s.payments[pid].tenant, pid)
  {
    ReversedIff(s', s.payments[pid].tenant, pid, answered);
  }

  /** So after a SUCCESS report that commits, a reversal the provider confirms commits too. */
  lemma ReportedSuccessCanBeReversed(s: State, e: nat, pid: nat, answered: Option<string>)
    requires Reachable(s) && IsAbout(s, e, pid) && s.events[e].outcome == ReportsSuccess
    requires pid < |s.payments| && s.payments[pid].status == ProviderPending && ProcessWebhookEvent(s, e).Ok?
    ensures var tenant, s' := s.payments[pid].tenant, Next(s, DoProcessEvent(e));
      var r := RequestReversal(s', tenant, pid, Answered(PSuccess, answered));
      r.Ok? && Reverses(s', r.value, tenant, pid)
  {
    SuccessReport(s, e, pid);
    ReachableNext(s, DoProcessEvent(e));
    SucceededCanBeReversed(s, Next(s, DoProcessEvent(e)), pid, [Success], s.events[e].ref, answered);
  }
}
