/**
 What holds in every run of the payment machine: any sequence of commands, with
 execution jobs, callbacks, polls and events duplicated and reordered at will.
 */
module PaymentTheorems {
  import opened Prelude
  import opened Sums
  import opened Ledger
  import opened Payments
  import opened PaymentInvariant
  import opened PaymentSteps
  import Policy
  import LedgerDb

  ghost predicate Unfunded(wallets: seq<Wallet>) {
    forall w | 0 <= w < |wallets| :: wallets[w].available == 0 && wallets[w].reserved == 0
  }

  lemma InitialInv(wallets: seq<Wallet>)
    requires Unfunded(wallets)
    ensures Inv(Initial(wallets))
  {
    var s := Initial(wallets);
    forall q: nat ensures TallyOf(s, q) == BLANK {
    }
    forall w | 0 <= w < |wallets| ensures Drift(s, w) == 0 {
    }
  }

  lemma {:induction false} RunKeepsInv(s: State, cs: seq<Command>)
    requires Inv(s)
    ensures Inv(Run(s, cs))
  {
    if |cs| > 0 {
      RunKeepsInv(s, cs[..|cs| - 1]);
      NextKeepsInv(Run(s, cs[..|cs| - 1]), cs[|cs| - 1]);
    }
  }

  /** A state some run leads to. */
  ghost predicate Reachable(s: State) {
    exists wallets, cs: seq<Command> :: Unfunded(wallets) && s == Run(Initial(wallets), cs)
  }

  lemma ReachableInv(s: State)
    requires Reachable(s)
    ensures Inv(s)
  {
    var wallets, cs: seq<Command> :| Unfunded(wallets) && s == Run(Initial(wallets), cs);
    InitialInv(wallets);
    RunKeepsInv(Initial(wallets), cs);
  }

  lemma ReachableNext(s: State, c: Command)
    requires Reachable(s)
    ensures Reachable(Next(s, c))
  {
    var wallets, cs: seq<Command> :| Unfunded(wallets) && s == Run(Initial(wallets), cs);
    RunExtends(Initial(wallets), cs, c);
  }

  // ------------------------------------------------------------ money and books

  function FeeTerm(s: State, w: nat): nat -> int {
    (i: nat) => if i < |s.payments| && s.payments[i].wallet == Some(w) && Journals(s.books.journals, PaymentJournal, i) > 0
                then s.payments[i].fee else 0
  }

  function PrincipalTerm(s: State, w: nat): nat -> int {
    (i: nat) => if i < |s.payments| && s.payments[i].wallet == Some(w) && Journals(s.books.journals, ReversalJournal, i) > 0
                then s.payments[i].amount else 0
  }

  /** Fees of the wallet's payments that have a success journal. */
  function FeesBooked(s: State, w: nat): int { Sum(|s.payments|, FeeTerm(s, w)) }

  /** Principals of the wallet's payments that have a reversal journal. */
  function PrincipalsReversed(s: State, w: nat): int { Sum(|s.payments|, PrincipalTerm(s, w)) }

  /** The journal account of a wallet and its row differ by exactly the fees booked and the principals reversed. */
  lemma WalletGap(s: State, w: nat)
    requires Reachable(s) && w < |s.books.wallets|
    ensures Balance(s.books.journals, WalletAccount(w)) - (s.books.wallets[w].available + s.books.wallets[w].reserved)
         == FeesBooked(s, w) + PrincipalsReversed(s, w)
  {
    ReachableInv(s);
    assert Drift(s, w) == 0;
    SumAdds(|s.payments|, FeeTerm(s, w), PrincipalTerm(s, w), GapTerm(s.payments, s.books.journals, w));
  }

  /** Funds are never overdrawn, what is reserved is what is held, and the ledger replays to every recorded and live balance. */
  lemma WalletsBacked(s: State, w: nat)
    requires Reachable(s) && w < |s.books.wallets|
    ensures s.books.wallets[w].available >= 0
    ensures s.books.wallets[w].reserved == HeldTotal(s.books.reservations, w) >= 0
    ensures Replays(s.books)
  {
    ReachableInv(s);
    SumDominates(|s.books.reservations|, HeldOf(s.books.reservations, w));
  }

  /** Every journal ever posted balances and is made of pure entries. */
  lemma JournalsBalance(s: State)
    requires Reachable(s)
    ensures AllBalanced(s.books.journals)
  {
    ReachableInv(s);
  }

  /** The health check finds every tenant healthy, whatever has happened. */
  lemma EveryTenantHealthy(s: State, tenant: nat, h: LedgerDb.TenantHealth)
    requires Reachable(s) && LedgerDb.Summarises(h, s.books.journals, tenant, |s.books.journals|)
    ensures h.Healthy()
  {
    JournalsBalance(s);
    LedgerDb.HealthyIffBalanced(h, s.books.journals, tenant);
  }

  /** The one reservation of a payment. */
  ghost predicate OnlyReservation(s: State, pid: nat, r: nat)
    requires r < |s.books.reservations|
  {
    && s.books.reservations[r].payment == pid
    && forall k | 0 <= k < |s.books.reservations| && s.books.reservations[k].payment == pid :: k == r
  }

  /** A wallet-funded payment in flight has exactly one reservation, held for its total on its wallet. */
  lemma InFlightIsHeld(s: State, pid: nat) returns (r: nat)
    requires Reachable(s) && pid < |s.payments| && s.payments[pid].wallet.Some?
    requires s.payments[pid].status in {Queued, ProviderPending}
    ensures r < |s.books.reservations| && OnlyReservation(s, pid, r)
    ensures s.books.reservations[r] == Reservation(pid, s.payments[pid].wallet.value, s.payments[pid].total, Held)
  {
    ReachableInv(s);
    assert Fits(s.payments[pid], TallyOf(s, pid));
    r := FindReservation(s.books.reservations, pid).value;
    assert ReservationFits(s.payments, s.books.reservations[r]);
    assert OnePerPayment(s.books.reservations);
  }

  /** SUCCESS means the reservation was applied; FAILED means nothing is held; before queueing there is none. */
  lemma HoldFollowsStatus(s: State, pid: nat)
    requires Reachable(s) && pid < |s.payments|
    ensures var p, hold := s.payments[pid], HoldStatus(s.books.reservations, pid);
      && (p.status == Success && p.wallet.Some? ==> hold == Some(Applied))
      && (p.status == Failed ==> hold != Some(Held))
      && (p.status in {Draft, PendingApproval} ==> hold.None?)
      && (p.wallet.None? ==> hold.None?)
  {
    ReachableInv(s);
    assert Fits(s.payments[pid], TallyOf(s, pid));
  }

  // ------------------------------------------------------------------ once only

  /** At most one committed provider call, one APPLY, one success journal and one success event per payment; SUCCESS has all of them. */
  lemma OnceOnly(s: State, pid: nat)
    requires Reachable(s) && pid < |s.payments|
    ensures var p := s.payments[pid];
      var calls, journals := AttemptCount(s.attempts, pid), Journals(s.books.journals, PaymentJournal, pid);
      && calls <= 1 && journals <= 1
      && Applies(s.books.entries, pid) == (if p.wallet.Some? then journals else 0)
      && SuccessNotices(s.outbox, pid) == journals
      && (p.status == Success ==> calls == 1 && journals == 1)
      && (journals == 1 ==> p.status in {Success, Reversed})
      && (p.status == Queued ==> calls == 0)
      && p.version == 1 + Changes(s.history, pid)
  {
    ReachableInv(s);
    assert Fits(s.payments[pid], TallyOf(s, pid));
  }

  /** Nothing is ever stored as VALIDATING, APPROVED, REJECTED or PROCESSING: they exist only inside a command. */
  lemma StoredStatuses(s: State, pid: nat)
    requires Reachable(s) && pid < |s.payments|
    ensures s.payments[pid].status in {Draft, PendingApproval, Queued, ProviderPending, Success, Failed, Reversed, Cancelled}
    ensures LegalHistory(s.history)
  {
    ReachableInv(s);
    assert Fits(s.payments[pid], TallyOf(s, pid));
  }

  /** One table edge, or two through a status that is never stored, or the webhook override. */
  ghost predicate Follows(from: Status, to: Status) {
    || from == to
    || to in Successors(from)
    || to == Reversed
    || (Validating in Successors(from) && to in Successors(Validating))
    || (Approved in Successors(from) && to in Successors(Approved))
    || (Processing in Successors(from) && to in Successors(Processing))
  }

  /** A transition concerns one payment and follows an edge. */
  lemma TransitionFollows(s: State, pid: nat, to: Status, q: nat)
    requires Transition(s, pid, to).Ok? && q < |s.payments|
    ensures q < |Transition(s, pid, to).value.payments|
    ensures Transition(s, pid, to).value.payments[q].status == if q == pid then to else s.payments[q].status
    ensures q == pid ==> CanTransition(s.payments[q].status, to)
  {
  }

  lemma QueueFollows(s: State, tenant: nat, pid: nat, q: nat)
    requires QueuePayment(s, tenant, pid).Ok? && q < |s.payments|
    ensures var s' := QueuePayment(s, tenant, pid).value;
      && q < |s'.payments|
      && (q != pid ==> s'.payments[q].status == s.payments[q].status)
      && (q == pid ==> s'.payments[q].status in {Queued, Failed} && CanTransition(s.payments[q].status, s'.payments[q].status))
  {
    var p := s.payments[pid];
    var (books, reserved) := ReserveFunds(s.books, tenant, pid, p.wallet.value, p.total).value;
    TransitionFollows(s.(books := books), pid, if reserved then Queued else Failed, q);
  }

  lemma SubmitFollows(s: State, tenant: nat, pid: nat, rules: seq<Policy.Rule>, payeeApproved: bool, amlHit: bool, q: nat)
    requires SubmitPayment(s, tenant, pid, rules, payeeApproved, amlHit).Ok? && q < |s.payments|
    ensures var s' := SubmitPayment(s, tenant, pid, rules, payeeApproved, amlHit).value;
      && q < |s'.payments|
      && (q != pid ==> s'.payments[q].status == s.payments[q].status)
      && (q == pid ==> s.payments[q].status in {Draft, Validating} && s'.payments[q].status in {PendingApproval, Queued, Failed})
  {
    TransitionFollows(s, pid, Validating, q);
    var s2 := Flagged(Transition(s, pid, Validating).value, pid, amlHit);
    var ctx := ContextOf(s2.payments[pid]);
    var steps := Policy.Evaluate(Policy.SubmissionRules(rules, ctx, amlHit), ctx);
    if |steps| == 0 {
      QueueFollows(s2, tenant, pid, q);
    } else {
      TransitionFollows(s2.(requests := s2.requests + [ApprovalRef(pid, steps)]), pid, PendingApproval, q);
    }
  }

  lemma SuccessFollows(s: State, pid: nat, ref: string, q: nat)
    requires ApplyProviderSuccess(s, pid, ref).Ok? && q < |s.payments|
    ensures var s' := ApplyProviderSuccess(s, pid, ref).value;
      && q < |s'.payments|
      && (q != pid ==> s'.payments[q].status == s.payments[q].status)
      && (q == pid ==> s'.payments[q].status == Success && CanTransition(s.payments[q].status, Success))
  {
    if s.payments[pid].status != Success {
      TransitionFollows(ConsumeHold(s, pid, true).value, pid, Success, q);
    }
  }

  lemma FailureFollows(s: State, pid: nat, q: nat)
    requires ApplyProviderFailure(s, pid).Ok? && q < |s.payments|
    ensures var s' := ApplyProviderFailure(s, pid).value;
      && q < |s'.payments|
      && (q != pid ==> s'.payments[q].status == s.payments[q].status)
      && (q == pid ==> s'.payments[q].status == s.payments[q].status
                       || (s'.payments[q].status == Failed && CanTransition(s.payments[q].status, Failed)))
  {
    if s.payments[pid].status !in {Failed, Cancelled, Reversed} {
      TransitionFollows(ConsumeHold(s, pid, false).value, pid, Failed, q);
    }
  }

  lemma ExecuteFollows(s: State, tenant: nat, pid: nat, answer: ProviderAnswer, q: nat)
    requires ExecutePayment(s, tenant, pid, answer).Ok? && q < |s.payments|
    ensures var s' := ExecutePayment(s, tenant, pid, answer).value;
      && q < |s'.payments|
      && (q != pid ==> s'.payments[q].status == s.payments[q].status)
      && (q == pid ==> s'.payments[q].status == s.payments[q].status
                       || (s.payments[q].status == Queued && s'.payments[q].status in {ProviderPending, Success, Failed}))
  {
    if s.payments[pid].status == Queued {
      var ref := ReferenceOf(s.payments[pid], answer);
      var s2 := RecordAttempt(Transition(s, pid, Processing).value, pid, ref);
      AfterCallIs(s2, pid, ref, answer);
      if answer.Answered? && answer.status == PSuccess {
        SuccessFollows(s2, pid, ref, q);
      } else if answer.Answered? && answer.status == PFailed {
        FailureFollows(s2, pid, q);
      } else {
        TransitionFollows(s2, pid, ProviderPending, q);
      }
    }
  }

  lemma ProcessFollows(s: State, e: nat, q: nat)
    requires ProcessWebhookEvent(s, e).Ok? && q < |s.payments|
    ensures var s' := ProcessWebhookEvent(s, e).value;
      && q < |s'.payments|
      && Follows(s.payments[q].status, s'.payments[q].status)
      && (s'.payments[q].status == Queued ==> s.payments[q].status == Queued)
  {
    var ev := s.events[e];
    var found := FindAttempt(s.attempts, ev.ref);
    if ev.status != Processed && ev.ref != "" && found.Some? {
      var pid := s.attempts[found.value].payment;
      match ev.outcome {
        case ReportsSuccess => SuccessFollows(s, pid, ev.ref, q);
        case ReportsFailure => FailureFollows(s, pid, q);
        case ReportsReversal =>
        case ReportsUnknown =>
      }
    }
  }

  lemma PollFollows(s: State, pid: nat, ref: string, outcome: Outcome, q: nat)
    requires StatusPoll(s, pid, ref, outcome).Ok? && q < |s.payments|
    ensures var s' := StatusPoll(s, pid, ref, outcome).value;
      && q < |s'.payments|
      && Follows(s.payments[q].status, s'.payments[q].status)
      && (s'.payments[q].status == Queued ==> s.payments[q].status == Queued)
  {
    match outcome {
      case ReportsSuccess => SuccessFollows(s, pid, ref, q);
      case ReportsFailure => FailureFollows(s, pid, q);
      case ReportsReversal => TransitionFollows(s, pid, Reversed, q);
      case ReportsUnknown =>
    }
  }

  lemma ReverseFollows(s: State, tenant: nat, pid: nat, answer: ProviderAnswer, q: nat)
    requires RequestReversal(s, tenant, pid, answer).Ok? && q < |s.payments|
    ensures var s' := RequestReversal(s, tenant, pid, answer).value;
      && q < |s'.payments|
      && Follows(s.payments[q].status, s'.payments[q].status)
      && (s'.payments[q].status == Queued ==> s.payments[q].status == Queued)
  {
    if !ReversalProcessed(s.reversals, pid) {
      if answer.status == PSuccess {
        TransitionFollows(AddReversal(s, pid, true), pid, Reversed, q);
      } else {
        TransitionFollows(AddReversal(s, pid, false), pid, ProviderPending, q);
      }
    }
  }

  /** Every command moves every payment along the table, and only submission and approval ever queue one: FAILED to QUEUED is never taken. */
  lemma StepFollowsTable(s: State, c: Command, q: nat)
    requires q < |s.payments|
    ensures q < |Next(s, c).payments|
    ensures Follows(s.payments[q].status, Next(s, c).payments[q].status)
    ensures Next(s, c).payments[q].status == Queued ==> s.payments[q].status in {Queued, Draft, Validating, PendingApproval}
  {
    if Perform(s, c).Ok? {
      match c {
        case DoEnsureChart(_) =>
        case DoCreate(_, _, _, _, _, _, _) =>
        case DoForgetKey(_, _) =>
        case DoMaterialize(_, _, _, _, _) =>
        case DoSubmit(t, pid, rules, payeeApproved, amlHit) => SubmitFollows(s, t, pid, rules, payeeApproved, amlHit, q);
        case DoApprove(t, pid) =>
          TransitionFollows(s, pid, Approved, q);
          QueueFollows(Transition(s, pid, Approved).value, t, pid, q);
        case DoCancel(t, pid) => TransitionFollows(s, pid, Cancelled, q);
        case DoFund(_, _, _) =>
        case DoReceive(_, _, _, _) =>
        case DoExecute(t, pid, answer) => ExecuteFollows(s, t, pid, answer, q);
        case DoIngest(_, _, _) =>
        case DoProcessEvent(e) => ProcessFollows(s, e, q);
        case DoAcknowledge(_) =>
        case DoUnmatched(_) =>
        case DoStatusPoll(pid, ref, outcome) => PollFollows(s, pid, ref, outcome, q);
        case DoReverse(t, pid, answer) => ReverseFollows(s, t, pid, answer, q);
      }
    }
  }

  /** Over any run, SUCCESS is left only for REVERSED, and REVERSED is never left. */
  lemma {:induction false} SuccessIsFinal(s: State, cs: seq<Command>, pid: nat)
    requires pid < |s.payments| && s.payments[pid].status in {Success, Reversed}
    ensures pid < |Run(s, cs).payments|
    ensures Run(s, cs).payments[pid].status in {Success, Reversed}
    ensures s.payments[pid].status == Reversed ==> Run(s, cs).payments[pid].status == Reversed
  {
    if |cs| > 0 {
      SuccessIsFinal(s, cs[..|cs| - 1], pid);
      StepFollowsTable(Run(s, cs[..|cs| - 1]), cs[|cs| - 1], pid);
    }
  }
}
