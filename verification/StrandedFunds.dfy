/** Held reservations: which can still be released or applied by some run, which never can, and which commands strand them. */
module StrandedFunds {
  import opened Prelude
  import opened Sums
  import opened Ledger
  import opened Payments
  import opened PaymentInvariant
  import opened PaymentSteps
  import opened PaymentTheorems
  import opened PaymentGuarantees
  import opened ProviderCalls
  import Policy

  // -------------------------------------------------------------- whom a command concerns

  /** The payment a command is about: the one it names, or the one whose attempt the event's reference leads to. */
  function Target(s: State, c: Command): Option<nat> {
    match c
    case DoSubmit(_, p, _, _, _) => Some(p)
    case DoApprove(_, p) => Some(p)
    case DoCancel(_, p) => Some(p)
    case DoExecute(_, p, _) => Some(p)
    case DoStatusPoll(p, _, _) => Some(p)
    case DoReverse(_, p, _) => Some(p)
    case DoProcessEvent(e) =>
      if e < |s.events| && s.events[e].status != Processed && s.events[e].ref != "" && FindAttempt(s.attempts, s.events[e].ref).Some?
      then Some(s.attempts[FindAttempt(s.attempts, s.events[e].ref).value].payment) else None
    case _ => None
  }

  /** Payment q and its reservation are the same in both states. */
  predicate Spared(s: State, s': State, q: nat) {
    && q < |s.payments| && q < |s'.payments| && s'.payments[q] == s.payments[q]
    && HoldStatus(s'.books.reservations, q) == HoldStatus(s.books.reservations, q)
  }

  lemma QueueSpares(s: State, tenant: nat, pid: nat, q: nat)
    requires QueuePayment(s, tenant, pid).Ok? && q != pid && q < |s.payments|
    ensures Spared(s, QueuePayment(s, tenant, pid).value, q)
  {
    var p := s.payments[pid];
    FindAppended(s.books.reservations, Reservation(pid, p.wallet.value, p.total, Held), q);
  }

  lemma ConsumeSpares(s: State, pid: nat, apply: bool, q: nat)
    requires ConsumeHold(s, pid, apply).Ok? && q != pid && q < |s.payments|
    ensures Spared(s, ConsumeHold(s, pid, apply).value, q)
  {
    var found := FindReservation(s.books.reservations, pid);
    if found.Some? && s.books.reservations[found.value].status == Held {
      var r := s.books.reservations[found.value];
      FindUpdated(s.books.reservations, found.value, r.(status := if apply then Applied else Released), q);
    }
  }

  /** Booking a success leaves the reservations as the consumed hold left them. */
  lemma BookedHolds(s: State, pid: nat, ref: string)
    requires BookSuccess(s, pid, ref).Ok?
    ensures ConsumeHold(s, pid, true).Ok?
    ensures BookSuccess(s, pid, ref).value.books.reservations == ConsumeHold(s, pid, true).value.books.reservations
  {
    var s2 := MarkSuccess(ConsumeHold(s, pid, true).value, pid, ref).value;
    assert PostSuccess(s2, pid).value.books.reservations == s2.books.reservations;
  }

  lemma SuccessSpares(s: State, pid: nat, ref: string, q: nat)
    requires ApplyProviderSuccess(s, pid, ref).Ok? && q != pid && q < |s.payments|
    ensures Spared(s, ApplyProviderSuccess(s, pid, ref).value, q)
  {
    if s.payments[pid].status != Success {
      ConsumeSpares(s, pid, true, q);
      BookedHolds(s, pid, ref);
    }
  }

  lemma FailureSpares(s: State, pid: nat, q: nat)
    requires ApplyProviderFailure(s, pid).Ok? && q != pid && q < |s.payments|
    ensures Spared(s, ApplyProviderFailure(s, pid).value, q)
  {
    if s.payments[pid].status !in {Failed, Cancelled, Status.Reversed} {
      ConsumeSpares(s, pid, false, q);
    }
  }

  lemma ExecuteSpares(s: State, tenant: nat, pid: nat, answer: ProviderAnswer, q: nat)
    requires ExecutePayment(s, tenant, pid, answer).Ok? && q != pid && q < |s.payments|
    ensures Spared(s, ExecutePayment(s, tenant, pid, answer).value, q)
  {
    if s.payments[pid].status == Queued {
      var ref := ReferenceOf(s.payments[pid], answer);
      var s2 := RecordAttempt(Transition(s, pid, Processing).value, pid, ref);
      AfterCallIs(s2, pid, ref, answer);
      if answer.Answered? && answer.status == PSuccess {
        SuccessSpares(s2, pid, ref, q);
      } else if answer.Answered? && answer.status == PFailed {
        FailureSpares(s2, pid, q);
      }
    }
  }

  lemma SubmitSpares(s: State, tenant: nat, pid: nat, rules: seq<Policy.Rule>, payeeApproved: bool, amlHit: bool, q: nat)
    requires SubmitPayment(s, tenant, pid, rules, payeeApproved, amlHit).Ok? && q != pid && q < |s.payments|
    ensures Spared(s, SubmitPayment(s, tenant, pid, rules, payeeApproved, amlHit).value, q)
  {
    var s2 := Flagged(Transition(s, pid, Validating).value, pid, amlHit);
    var ctx := ContextOf(s2.payments[pid]);
    var steps := Policy.Evaluate(Policy.SubmissionRules(rules, ctx, amlHit), ctx);
    if |steps| == 0 {
      QueueSpares(s2, tenant, pid, q);
    }
  }

  lemma EventSpares(s: State, e: nat, q: nat)
    requires ProcessWebhookEvent(s, e).Ok? && Target(s, DoProcessEvent(e)) != Some(q) && q < |s.payments|
    ensures Spared(s, ProcessWebhookEvent(s, e).value, q)
  {
    var target := Target(s, DoProcessEvent(e));
    if target.Some? {
      match s.events[e].outcome {
        case ReportsSuccess => SuccessSpares(s, target.value, s.events[e].ref, q);
        case ReportsFailure => FailureSpares(s, target.value, q);
        case ReportsReversal =>
        case ReportsUnknown =>
      }
    }
  }

  lemma PollSpares(s: State, pid: nat, ref: string, outcome: Outcome, q: nat)
    requires StatusPoll(s, pid, ref, outcome).Ok? && q != pid && q < |s.payments|
    ensures Spared(s, StatusPoll(s, pid, ref, outcome).value, q)
  {
    match outcome {
      case ReportsSuccess => SuccessSpares(s, pid, ref, q);
      case ReportsFailure => FailureSpares(s, pid, q);
      case ReportsReversal =>
      case ReportsUnknown =>
    }
  }

  lemma ReverseSpares(s: State, tenant: nat, pid: nat, answer: ProviderAnswer, q: nat)
    requires RequestReversal(s, tenant, pid, answer).Ok? && q != pid && q < |s.payments|
    ensures Spared(s, RequestReversal(s, tenant, pid, answer).value, q)
  {
    assert RequestReversal(s, tenant, pid, answer).value.books.reservations == s.books.reservations;
  }

  lemma UpkeepSpares(s: State, c: Command, q: nat)
    requires q < |s.payments| && IsUpkeep(c) && Perform(s, c).Ok?
    ensures Spared(s, Perform(s, c).value, q)
  {
  }

  /** A command leaves every payment but its own alone, row and reservation. */
  lemma OthersSpared(s: State, c: Command, q: nat)
    requires q < |s.payments| && Target(s, c) != Some(q)
    ensures Spared(s, Next(s, c), q)
  {
    if Perform(s, c).Ok? {
      match c {
        case DoSubmit(t, p, rules, payeeApproved, amlHit) => SubmitSpares(s, t, p, rules, payeeApproved, amlHit, q);
        case DoApprove(t, p) => QueueSpares(Transition(s, p, Approved).value, t, p, q);
        case DoCancel(t, p) =>
        case DoExecute(t, p, answer) => ExecuteSpares(s, t, p, answer, q);
        case DoProcessEvent(e) => EventSpares(s, e, q);
        case DoStatusPoll(p, ref, outcome) => PollSpares(s, p, ref, outcome, q);
        case DoReverse(t, p, answer) => ReverseSpares(s, t, p, answer, q);
        case _ => UpkeepSpares(s, c, q);
      }
    }
  }

  /** What an event about a payment does to the books and to the payment is what its outcome does. */
  lemma ReportIs(s: State, e: nat, pid: nat)
    requires Reports(s, e, pid)
    ensures var s', done := Next(s, DoProcessEvent(e)), ApplyCallback(s, pid, s.events[e].ref, s.events[e].outcome);
      && s'.attempts == s.attempts
      && (done.Ok? ==> s'.books == done.value.books && s'.payments == done.value.payments)
      && (done.Err? ==> s' == s)
  {
    var done := ApplyCallback(s, pid, s.events[e].ref, s.events[e].outcome);
    assert done.Ok? <==> ProcessWebhookEvent(s, e).Ok?;
    assert done.Ok? ==> ProcessWebhookEvent(s, e).value == done.value.(events := ProcessWebhookEvent(s, e).value.events);
  }

  // ------------------------------------------------------------------------ dead payments

  /** No command ever settles the reservation of such a payment. */
  predicate Dead(p: Payment) {
    p.status in {Cancelled, Status.Reversed}
  }

  lemma DeadStaysDead(s: State, c: Command, q: nat)
    requires q < |s.payments| && Dead(s.payments[q]) && Target(s, c) == Some(q)
    ensures q < |Next(s, c).payments| && Dead(Next(s, c).payments[q]) && Next(s, c).books == s.books
  {
    if c.DoProcessEvent? {
      ReportIs(s, c.event, q);
    }
  }

  /**
   Money stranded by a cancelled or webhook-reversed payment: if its reservation
   is still held when it dies, no later run ever releases or applies it.
   */
  lemma {:induction false} DeadHoldIsStranded(s: State, cs: seq<Command>, q: nat)
    requires q < |s.payments| && Dead(s.payments[q])
    ensures q < |Run(s, cs).payments| && Dead(Run(s, cs).payments[q])
    ensures HoldStatus(Run(s, cs).books.reservations, q) == HoldStatus(s.books.reservations, q)
  {
    if |cs| > 0 {
      var before, c := Run(s, cs[..|cs| - 1]), cs[|cs| - 1];
      DeadHoldIsStranded(s, cs[..|cs| - 1], q);
      if Target(before, c) == Some(q) {
        DeadStaysDead(before, c, q);
      } else {
        OthersSpared(before, c, q);
      }
    }
  }

  /** Cancelling is such a death exactly when the payment was queued on a wallet: only then is the hold still there, and it stays for good. */
  lemma CancelStrandsHold(s: State, tenant: nat, pid: nat, cs: seq<Command>)
    requires Reachable(s) && Has(s, tenant, pid)
    ensures CancelPayment(s, tenant, pid).Ok? <==> s.payments[pid].status in {Draft, Failed, Queued}
    ensures CancelPayment(s, tenant, pid).Ok? ==>
      (HoldStatus(Run(CancelPayment(s, tenant, pid).value, cs).books.reservations, pid) == Some(Held)
       <==> s.payments[pid].status == Queued && s.payments[pid].wallet.Some?)
  {
    ReachableInv(s);
    assert Fits(s.payments[pid], TallyOf(s, pid));
    if CancelPayment(s, tenant, pid).Ok? {
      DeadHoldIsStranded(CancelPayment(s, tenant, pid).value, cs, pid);
    }
  }

  /**
   A webhook that reports REVERSED is another: the hold stays for good exactly when the payment
   was waiting for the provider on a wallet, or an earlier report had stranded it already.
   */
  lemma WebhookReversalStrandsHold(s: State, e: nat, pid: nat, cs: seq<Command>)
    requires Reachable(s) && Reports(s, e, pid) && s.events[e].outcome == ReportsReversal
    ensures pid < |s.payments|
    ensures HoldStatus(Run(Next(s, DoProcessEvent(e)), cs).books.reservations, pid) == Some(Held)
       <==> s.payments[pid].wallet.Some? && (s.payments[pid].status == ProviderPending
              || (s.payments[pid].status == Reversed && HoldStatus(s.books.reservations, pid) == Some(Held)))
  {
    ReachableInv(s);
    CalledHolds(s, FindAttempt(s.attempts, s.events[e].ref).value);
    ForcedIsDead(s, e, pid);
    DeadHoldIsStranded(Next(s, DoProcessEvent(e)), cs, pid);
  }

  /** Of the payments with a provider call, those waiting for the provider hold money, and those reversed may. */
  lemma CalledHolds(s: State, a: nat)
    requires Inv(s) && a < |s.attempts|
    ensures var pid := s.attempts[a].payment;
      && pid < |s.payments|
      && (s.payments[pid].status != Reversed ==>
            (HoldStatus(s.books.reservations, pid) == Some(Held) <==> s.payments[pid].wallet.Some? && s.payments[pid].status == ProviderPending))
      && (HoldStatus(s.books.reservations, pid) == Some(Held) ==> s.payments[pid].wallet.Some?)
  {
    AttemptCounts(s, a);
    assert Fits(s.payments[s.attempts[a].payment], TallyOf(s, s.attempts[a].payment));
  }

  lemma ForcedIsDead(s: State, e: nat, pid: nat)
    requires Reports(s, e, pid) && s.events[e].outcome == ReportsReversal && pid < |s.payments|
    ensures var s' := Next(s, DoProcessEvent(e));
      pid < |s'.payments| && Dead(s'.payments[pid]) && s'.books == s.books
  {
  }

  // ---------------------------------------------------- payments nobody can report on any more

  /** Some attempt of the payment has a reference that an event with it leads to. */
  predicate Addressable(attempts: seq<Attempt>, pid: nat) {
    exists a :: 0 <= a < |attempts| && attempts[a].payment == pid && attempts[a].ref != "" && FindAttempt(attempts, attempts[a].ref) == Some(a)
  }

  lemma AttemptFoundAppended(attempts: seq<Attempt>, x: Attempt, ref: string)
    ensures FindAttempt(attempts + [x], ref) == if x.ref == ref then Some(|attempts|) else FindAttempt(attempts, ref)
  {
    assert (attempts + [x])[..|attempts|] == attempts;
  }

  /** The monitor polls payments with a reference only. */
  predicate PollAllowed(s: State, c: Command) {
    c.DoStatusPoll? ==> c.payment < |s.payments| && s.payments[c.payment].providerRef != ""
  }

  /** Every poll of the run goes to a payment that has a reference by then. */
  predicate PollsReferenced(s: State, cs: seq<Command>) {
    |cs| > 0 ==> PollsReferenced(s, cs[..|cs| - 1]) && PollAllowed(Run(s, cs[..|cs| - 1]), cs[|cs| - 1])
  }

  /** It waits for the provider, and no event and no poll can reach it. */
  predicate Stuck(s: State, pid: nat) {
    && pid < |s.payments| && s.payments[pid].status == ProviderPending && s.payments[pid].providerRef == ""
    && !Addressable(s.attempts, pid)
  }

  /** The only commands that change a waiting payment without a reference are an event or a poll about it. */
  lemma WaitingIsInert(s: State, c: Command, pid: nat)
    requires pid < |s.payments| && s.payments[pid].status == ProviderPending && s.payments[pid].providerRef == ""
    requires Target(s, c) == Some(pid) && PollAllowed(s, c) && !c.DoProcessEvent?
    ensures Next(s, c) == s
  {
  }

  lemma UnaddressableUntargeted(s: State, e: nat, pid: nat)
    requires !Addressable(s.attempts, pid)
    ensures Target(s, DoProcessEvent(e)) != Some(pid)
  {
  }

  /** A job for another payment can only take references away. */
  lemma StaysUnaddressable(attempts: seq<Attempt>, x: Attempt, pid: nat)
    requires !Addressable(attempts, pid) && x.payment != pid
    ensures !Addressable(attempts + [x], pid)
  {
    forall a | 0 <= a < |attempts + [x]| && (attempts + [x])[a].payment == pid && (attempts + [x])[a].ref != ""
      ensures FindAttempt(attempts + [x], (attempts + [x])[a].ref) != Some(a)
    {
      AttemptFoundAppended(attempts, x, attempts[a].ref);
    }
  }

  /** A job records one attempt of its payment or none. */
  lemma JobRecords(s: State, c: Command)
    requires c.DoExecute?
    ensures Next(s, c).attempts == s.attempts
         || (c.payment < |s.payments| && Next(s, c).attempts == s.attempts + [Attempt(c.payment, ReferenceOf(s.payments[c.payment], c.answer))])
  {
  }

  lemma StuckStaysStuck(s: State, c: Command, pid: nat)
    requires Stuck(s, pid) && PollAllowed(s, c)
    ensures Stuck(Next(s, c), pid) && HoldStatus(Next(s, c).books.reservations, pid) == HoldStatus(s.books.reservations, pid)
  {
    if c.DoProcessEvent? {
      UnaddressableUntargeted(s, c.event, pid);
    }
    if Target(s, c) == Some(pid) {
      WaitingIsInert(s, c, pid);
    } else {
      OthersSpared(s, c, pid);
      if c.DoExecute? {
        JobRecords(s, c);
        if c.payment < |s.payments| {
          StaysUnaddressable(s.attempts, Attempt(c.payment, ReferenceOf(s.payments[c.payment], c.answer)), pid);
        }
      } else {
        OnlyJobsAttempt(s, c);
      }
    }
  }

  /** A payment that no event can reach stays PROVIDER_PENDING for good, and so does what it holds. */
  lemma {:induction false} StuckHoldIsStranded(s: State, cs: seq<Command>, pid: nat)
    requires Stuck(s, pid) && PollsReferenced(s, cs)
    ensures Stuck(Run(s, cs), pid) && HoldStatus(Run(s, cs).books.reservations, pid) == HoldStatus(s.books.reservations, pid)
  {
    if |cs| > 0 {
      StuckHoldIsStranded(s, cs[..|cs| - 1], pid);
      StuckStaysStuck(Run(s, cs[..|cs| - 1]), cs[|cs| - 1], pid);
    }
  }

  // ------------------------------------------------------------------- what can be freed

  /** Some run, with polls as the monitor makes them, gets the payment's reservation out of HELD. */
  ghost predicate Freeable(s: State, pid: nat) {
    exists cs :: PollsReferenced(s, cs) && HoldStatus(Run(s, cs).books.reservations, pid) != Some(Held)
  }

  lemma OneCommand(s: State, c: Command)
    ensures Run(s, [c]) == Next(s, c) && (PollsReferenced(s, [c]) <==> PollAllowed(s, c))
  {
    assert [c][..0] == [];
    assert Run(s, []) == s && PollsReferenced(s, []);
  }

  lemma FreeIsFreeable(s: State, pid: nat)
    requires HoldStatus(s.books.reservations, pid) != Some(Held)
    ensures Freeable(s, pid)
  {
    assert Run(s, []) == s && PollsReferenced(s, []);
  }

  /** Where the payment of a held reservation can be. */
  lemma HeldIs(s: State, pid: nat)
    requires Reachable(s) && HoldStatus(s.books.reservations, pid) == Some(Held)
    ensures pid < |s.payments| && s.payments[pid].wallet.Some? && s.payments[pid].providerRef == ""
    ensures s.payments[pid].status in {Queued, ProviderPending} || Dead(s.payments[pid])
  {
    ReachableInv(s);
    assert TallyOf(s, pid) != BLANK;
    assert Fits(s.payments[pid], TallyOf(s, pid));
  }

  lemma FailureReleases(s: State, s0: State, pid: nat)
    requires Inv(s0) && s.books == s0.books && pid < |s.payments| && s.payments[pid].status in {Processing, ProviderPending}
    requires HoldStatus(s.books.reservations, pid) == Some(Held)
    ensures BookFailure(s, pid).Ok? && HoldStatus(BookFailure(s, pid).value.books.reservations, pid) == Some(Released)
  {
    HoldSettles(s, s0, pid, false);
    FailureBooks(s, pid);
  }

  lemma SuccessApplies(s: State, s0: State, pid: nat, ref: string)
    requires Inv(s0) && s.books == s0.books && BookSuccess(s, pid, ref).Ok?
    requires HoldStatus(s.books.reservations, pid) == Some(Held)
    ensures HoldStatus(BookSuccess(s, pid, ref).value.books.reservations, pid) == Some(Applied)
  {
    HoldSettles(s, s0, pid, true);
    BookedHolds(s, pid, ref);
  }

  /** A failed answer books the failure, whatever else is in the tables. */
  lemma FailedAnswerReleases(s: State, tenant: nat, pid: nat, answer: ProviderAnswer)
    requires Has(s, tenant, pid) && s.payments[pid].status == Queued && answer.Answered? && answer.status == PFailed
    requires |ReferenceOf(s.payments[pid], answer)| <= REFERENCE_WIDTH
    requires var failed := BookFailure(Called(s, pid, answer), pid);
      failed.Ok? && HoldStatus(failed.value.books.reservations, pid) == Some(Released)
    ensures HoldStatus(Next(s, DoExecute(tenant, pid, answer)).books.reservations, pid) == Some(Released)
  {
    ExecuteIs(s, tenant, pid, answer);
  }

  lemma FreedBy(s: State, c: Command, pid: nat)
    requires PollAllowed(s, c) && HoldStatus(Next(s, c).books.reservations, pid) != Some(Held)
    ensures Freeable(s, pid)
  {
    OneCommand(s, c);
  }

  lemma QueuedIsFreeable(s: State, pid: nat)
    requires Inv(s) && pid < |s.payments| && s.payments[pid].status == Queued && HoldStatus(s.books.reservations, pid) == Some(Held)
    ensures Freeable(s, pid)
  {
    var tenant, answer := s.payments[pid].tenant, Answered(PFailed, Some("x"));
    FailureReleases(Called(s, pid, answer), s, pid);
    FailedAnswerReleases(s, tenant, pid, answer);
    FreedBy(s, DoExecute(tenant, pid, answer), pid);
  }

  /** An event id that no stored event has. */
  function FreshId(events: seq<WebhookEvent>): (id: string)
    ensures forall i | 0 <= i < |events| :: |events[i].id| < |id|
  {
    if |events| == 0 then "x" else FreshId(events[..|events| - 1]) + events[|events| - 1].id
  }

  /** A failure reported for the payment's reference under a new event id. */
  function ReportFailure(s: State, ref: string): seq<Command> {
    [DoIngest(FreshId(s.events), ref, ReportsFailure), DoProcessEvent(|s.events|)]
  }

  lemma ReportedFailure(s: State, e: nat, pid: nat)
    requires Reports(s, e, pid) && s.events[e].outcome == ReportsFailure && pid < |s.payments| && s.payments[pid].status == ProviderPending
    requires BookFailure(s, pid).Ok? && HoldStatus(BookFailure(s, pid).value.books.reservations, pid) == Some(Released)
    ensures HoldStatus(Next(s, DoProcessEvent(e)).books.reservations, pid) == Some(Released)
  {
    ReportIs(s, e, pid);
  }

  lemma TwoCommands(s: State, c: Command, d: Command)
    requires PollAllowed(s, c) && PollAllowed(Next(s, c), d)
    ensures Run(s, [c, d]) == Next(Next(s, c), d) && PollsReferenced(s, [c, d])
  {
    OneCommand(s, c);
    assert [c, d][..1] == [c];
  }

  lemma IngestFresh(s: State, ref: string)
    ensures Next(s, DoIngest(FreshId(s.events), ref, ReportsFailure))
         == s.(events := s.events + [WebhookEvent(FreshId(s.events), ref, ReportsFailure, Received)])
  {
  }

  lemma ReportFailureFrees(s: State, pid: nat, ref: string, a: nat)
    requires Inv(s) && pid < |s.payments| && s.payments[pid].status == ProviderPending && HoldStatus(s.books.reservations, pid) == Some(Held)
    requires ref != "" && FindAttempt(s.attempts, ref) == Some(a) && s.attempts[a].payment == pid
    ensures Freeable(s, pid)
  {
    var cs := ReportFailure(s, ref);
    IngestFresh(s, ref);
    FailureReleases(Next(s, cs[0]), s, pid);
    ReportedFailure(Next(s, cs[0]), |s.events|, pid);
    TwoCommands(s, cs[0], cs[1]);
  }

  /**
   Exactly which held reservations can still be released or applied: those of QUEUED payments, and those of
   PROVIDER_PENDING payments with an attempt that a non-empty reference still leads to.
   */
  lemma FreeableIff(s: State, pid: nat)
    requires Reachable(s) && HoldStatus(s.books.reservations, pid) == Some(Held)
    ensures pid < |s.payments|
    ensures Freeable(s, pid) <==>
      s.payments[pid].status == Queued || (s.payments[pid].status == ProviderPending && Addressable(s.attempts, pid))
  {
    HeldIs(s, pid);
    if s.payments[pid].status == Queued {
      ReachableInv(s);
      QueuedIsFreeable(s, pid);
    } else if s.payments[pid].status == ProviderPending && Addressable(s.attempts, pid) {
      ReachableInv(s);
      var a :| 0 <= a < |s.attempts| && s.attempts[a].payment == pid && s.attempts[a].ref != "" && FindAttempt(s.attempts, s.attempts[a].ref) == Some(a);
      ReportFailureFrees(s, pid, s.attempts[a].ref, a);
    } else {
      forall cs: seq<Command> | PollsReferenced(s, cs) ensures HoldStatus(Run(s, cs).books.reservations, pid) == Some(Held) {
        if Dead(s.payments[pid]) {
          DeadHoldIsStranded(s, cs, pid);
        } else {
          StuckHoldIsStranded(s, cs, pid);
        }
      }
    }
  }

  // ---------------------------------------------------------------------- what strands it

  /**
   The four ways: cancelling a QUEUED payment, a REVERSED report on a waiting one, a provider that leaves a
   payment pending under an empty reference, and a job for another payment that records the reference of a waiting one.
   */
  predicate Strands(s: State, c: Command, pid: nat)
    requires pid < |s.payments|
  {
    match c
    case DoCancel(t, p) => p == pid && Has(s, t, p) && s.payments[p].status == Queued
    case DoProcessEvent(e) => Reports(s, e, pid) && s.events[e].outcome == ReportsReversal && s.payments[pid].status == ProviderPending
    case DoExecute(t, p, answer) =>
      && Has(s, t, p) && s.payments[p].status == Queued
      && if p == pid then answer in {Answered(PPending, Some("")), Answered(PUnknown, Some(""))}
         else
           && s.payments[pid].status == ProviderPending && !Throws(s, p, answer)
           && Attempt(pid, ReferenceOf(s.payments[p], answer)) in s.attempts
    case _ => false
  }

  lemma {:induction false} TwoInSum(n: nat, f: nat -> int, a: nat, b: nat)
    requires a < b < n && forall i: nat | i < n :: f(i) >= 0
    ensures Sum(n, f) >= f(a) + f(b)
  {
    if b == n - 1 {
      SumDominates(n - 1, f);
    } else {
      TwoInSum(n - 1, f, a, b);
    }
  }

  /** A payment has at most one attempt. */
  lemma OneAttempt(s: State, a: nat, b: nat)
    requires Inv(s) && a < |s.attempts| && b < |s.attempts| && s.attempts[a].payment == s.attempts[b].payment
    ensures a == b
  {
    AttemptCounts(s, a);
    var pid := s.attempts[a].payment;
    assert Fits(s.payments[pid], TallyOf(s, pid));
    if a < b {
      TwoInSum(|s.attempts|, IsAttempt(s.attempts, pid), a, b);
    } else if b < a {
      TwoInSum(|s.attempts|, IsAttempt(s.attempts, pid), b, a);
    }
  }

  /** One more attempt of another payment shadows an addressable one exactly when it has the same reference. */
  lemma ShadowedIff(s: State, x: Attempt, pid: nat)
    requires Inv(s) && Addressable(s.attempts, pid) && x.payment != pid
    ensures Addressable(s.attempts + [x], pid) <==> Attempt(pid, x.ref) !in s.attempts
  {
    var a :| 0 <= a < |s.attempts| && s.attempts[a].payment == pid && s.attempts[a].ref != "" && FindAttempt(s.attempts, s.attempts[a].ref) == Some(a);
    AttemptFoundAppended(s.attempts, x, s.attempts[a].ref);
    assert (s.attempts + [x])[a] == s.attempts[a];
    if Attempt(pid, x.ref) in s.attempts {
      var b :| 0 <= b < |s.attempts| && s.attempts[b] == Attempt(pid, x.ref);
      OneAttempt(s, a, b);
      forall k | 0 <= k < |s.attempts + [x]| && (s.attempts + [x])[k].payment == pid
        ensures FindAttempt(s.attempts + [x], (s.attempts + [x])[k].ref) != Some(k)
      {
        OneAttempt(s, a, k);
      }
    }
  }

  lemma OthersStrandIff(s: State, c: Command, pid: nat)
    requires Reachable(s) && HoldStatus(s.books.reservations, pid) == Some(Held) && Freeable(s, pid)
    requires pid < |s.payments| && Target(s, c) != Some(pid)
    ensures !Freeable(Next(s, c), pid) <==> Strands(s, c, pid)
  {
    ReachableInv(s);
    ReachableNext(s, c);
    OthersSpared(s, c, pid);
    FreeableIff(s, pid);
    FreeableIff(Next(s, c), pid);
    if !c.DoExecute? {
      OnlyJobsAttempt(s, c);
    } else if Has(s, c.tenant, c.payment) && s.payments[c.payment].status == Queued {
      RolledBackIff(s, c.tenant, c.payment, c.answer);
      if s.payments[pid].status == ProviderPending {
        ShadowedIff(s, Attempt(c.payment, ReferenceOf(s.payments[c.payment], c.answer)), pid);
      }
    }
  }

  /** The first attempt of a payment can be addressed exactly when its reference is not empty. */
  lemma FirstAttemptAddressable(attempts: seq<Attempt>, x: Attempt)
    requires forall a | 0 <= a < |attempts| :: attempts[a].payment != x.payment
    ensures Addressable(attempts + [x], x.payment) <==> x.ref != ""
  {
    AttemptFoundAppended(attempts, x, x.ref);
    assert (attempts + [x])[|attempts|] == x;
  }

  lemma QueuedHasNoAttempt(s: State, pid: nat)
    requires Reachable(s) && pid < |s.payments| && s.payments[pid].status == Queued
    ensures forall a | 0 <= a < |s.attempts| :: s.attempts[a].payment != pid
  {
    ReachableInv(s);
    forall a | 0 <= a < |s.attempts| ensures s.attempts[a].payment != pid {
      AttemptCounts(s, a);
      assert Fits(s.payments[pid], TallyOf(s, pid));
    }
  }

  /** Booking the outcome of a called or waiting payment settles its hold. */
  lemma OutcomeSettles(s: State, s0: State, pid: nat, ref: string)
    requires Reachable(s0) && s.books == s0.books && pid < |s.payments| && s.payments[pid].status in {Processing, ProviderPending}
    requires HoldStatus(s.books.reservations, pid) == Some(Held)
    ensures BookFailure(s, pid).Ok? && HoldStatus(BookFailure(s, pid).value.books.reservations, pid) == Some(Released)
    ensures BookSuccess(s, pid, ref).Ok? ==> HoldStatus(BookSuccess(s, pid, ref).value.books.reservations, pid) == Some(Applied)
  {
    ReachableInv(s0);
    FailureReleases(s, s0, pid);
    if BookSuccess(s, pid, ref).Ok? {
      SuccessApplies(s, s0, pid, ref);
    }
  }

  predicate LeavesPending(answer: ProviderAnswer) {
    answer.Threw? || answer.status in {PPending, PUnknown}
  }

  lemma JobPends(s: State, tenant: nat, pid: nat, answer: ProviderAnswer)
    requires Has(s, tenant, pid) && s.payments[pid].status == Queued && ExecutePayment(s, tenant, pid, answer).Ok? && LeavesPending(answer)
    ensures var s' := Next(s, DoExecute(tenant, pid, answer));
      && pid < |s'.payments| && s'.books == s.books && s'.payments[pid].status == ProviderPending
      && s'.attempts == s.attempts + [Attempt(pid, ReferenceOf(s.payments[pid], answer))]
  {
    ExecuteIs(s, tenant, pid, answer);
  }

  lemma SucceededAnswerApplies(s: State, tenant: nat, pid: nat, answer: ProviderAnswer)
    requires Has(s, tenant, pid) && s.payments[pid].status == Queued && answer.Answered? && answer.status == PSuccess
    requires var booked := BookSuccess(Called(s, pid, answer), pid, ReferenceOf(s.payments[pid], answer));
      booked.Ok? ==> HoldStatus(booked.value.books.reservations, pid) == Some(Applied)
    ensures ExecutePayment(s, tenant, pid, answer).Ok? ==>
      HoldStatus(ExecutePayment(s, tenant, pid, answer).value.books.reservations, pid) == Some(Applied)
  {
    ExecuteIs(s, tenant, pid, answer);
  }

  lemma JobSettles(s: State, tenant: nat, pid: nat, answer: ProviderAnswer)
    requires Reachable(s) && Has(s, tenant, pid) && s.payments[pid].status == Queued && HoldStatus(s.books.reservations, pid) == Some(Held)
    requires |ReferenceOf(s.payments[pid], answer)| <= REFERENCE_WIDTH && answer.Answered? && answer.status in {PSuccess, PFailed}
    requires ExecutePayment(s, tenant, pid, answer).Ok?
    ensures HoldStatus(ExecutePayment(s, tenant, pid, answer).value.books.reservations, pid) != Some(Held)
  {
    OutcomeSettles(Called(s, pid, answer), s, pid, ReferenceOf(s.payments[pid], answer));
    if answer.status == PSuccess {
      SucceededAnswerApplies(s, tenant, pid, answer);
    } else {
      FailedAnswerReleases(s, tenant, pid, answer);
    }
  }

  /** What a job does to a held reservation: nothing when it is rolled back or the provider leaves the payment pending, else it is settled. */
  lemma JobOutcome(s: State, tenant: nat, pid: nat, answer: ProviderAnswer)
    requires Reachable(s) && Has(s, tenant, pid) && s.payments[pid].status == Queued && HoldStatus(s.books.reservations, pid) == Some(Held)
    ensures var s' := Next(s, DoExecute(tenant, pid, answer));
      && pid < |s'.payments|
      && (Throws(s, pid, answer) ==> s' == s)
      && (!Throws(s, pid, answer) && LeavesPending(answer) ==>
            && s'.books == s.books && s'.payments[pid].status == ProviderPending
            && s'.attempts == s.attempts + [Attempt(pid, ReferenceOf(s.payments[pid], answer))])
      && (!Throws(s, pid, answer) && !LeavesPending(answer) ==> HoldStatus(s'.books.reservations, pid) != Some(Held))
  {
    RolledBackIff(s, tenant, pid, answer);
    StepFollowsTable(s, DoExecute(tenant, pid, answer), pid);
    if !Throws(s, pid, answer) {
      if LeavesPending(answer) {
        JobPends(s, tenant, pid, answer);
      } else {
        JobSettles(s, tenant, pid, answer);
      }
    }
  }

  /** A job strands its own payment exactly when the provider leaves it pending under an empty reference. */
  lemma JobStrandsIff(s: State, tenant: nat, pid: nat, answer: ProviderAnswer)
    requires Reachable(s) && Has(s, tenant, pid) && s.payments[pid].status == Queued && HoldStatus(s.books.reservations, pid) == Some(Held)
    ensures !Freeable(Next(s, DoExecute(tenant, pid, answer)), pid) <==> answer in {Answered(PPending, Some("")), Answered(PUnknown, Some(""))}
  {
    var s', ref := Next(s, DoExecute(tenant, pid, answer)), ReferenceOf(s.payments[pid], answer);
    ReachableNext(s, DoExecute(tenant, pid, answer));
    JobOutcome(s, tenant, pid, answer);
    if HoldStatus(s'.books.reservations, pid) == Some(Held) {
      FreeableIff(s', pid);
      QueuedHasNoAttempt(s, pid);
      FirstAttemptAddressable(s.attempts, Attempt(pid, ref));
    } else {
      FreeIsFreeable(s', pid);
    }
  }

  lemma QueuedStrandIff(s: State, c: Command, pid: nat)
    requires Reachable(s) && pid < |s.payments| && s.payments[pid].status == Queued && HoldStatus(s.books.reservations, pid) == Some(Held)
    requires Target(s, c) == Some(pid) && PollAllowed(s, c)
    ensures !Freeable(Next(s, c), pid) <==> Strands(s, c, pid)
  {
    HeldIs(s, pid);
    FreeableIff(s, pid);
    if c.DoProcessEvent? {
      QueuedHasNoAttempt(s, pid);
    } else if c.DoExecute? && Has(s, c.tenant, pid) {
      JobStrandsIff(s, c.tenant, pid, c.answer);
    } else if c.DoCancel? && Has(s, c.tenant, pid) {
      ReachableNext(s, c);
      FreeableIff(Next(s, c), pid);
    } else {
      assert Next(s, c) == s;
    }
  }

  lemma ReportStrandIff(s: State, e: nat, pid: nat)
    requires Reachable(s) && pid < |s.payments| && s.payments[pid].status == ProviderPending && HoldStatus(s.books.reservations, pid) == Some(Held)
    requires Reports(s, e, pid) && Freeable(s, pid)
    ensures !Freeable(Next(s, DoProcessEvent(e)), pid) <==> s.events[e].outcome == ReportsReversal
  {
    var s' := Next(s, DoProcessEvent(e));
    ReachableNext(s, DoProcessEvent(e));
    FreeableIff(s, pid);
    ReportIs(s, e, pid);
    OutcomeSettles(s, s, pid, s.events[e].ref);
    if HoldStatus(s'.books.reservations, pid) == Some(Held) {
      FreeableIff(s', pid);
    } else {
      FreeIsFreeable(s', pid);
    }
  }

  /** A command strands money that could still be freed if and only if it is one of the four. */
  lemma StrandedExactlyBy(s: State, c: Command, pid: nat)
    requires Reachable(s) && HoldStatus(s.books.reservations, pid) == Some(Held) && Freeable(s, pid) && PollAllowed(s, c)
    ensures pid < |s.payments|
    ensures !Freeable(Next(s, c), pid) <==> Strands(s, c, pid)
  {
    HeldIs(s, pid);
    FreeableIff(s, pid);
    if Target(s, c) != Some(pid) {
      OthersStrandIff(s, c, pid);
    } else if s.payments[pid].status == Queued {
      QueuedStrandIff(s, c, pid);
    } else if c.DoProcessEvent? {
      ReportStrandIff(s, c.event, pid);
    } else {
      WaitingIsInert(s, c, pid);
    }
  }

  /** Of these the first two are the only ones that make the payment CANCELLED or REVERSED while its money is held. */
  lemma DiesHoldingOnlyBy(s: State, c: Command, pid: nat)
    requires Reachable(s) && HoldStatus(s.books.reservations, pid) == Some(Held) && PollAllowed(s, c)
    requires pid < |s.payments| && !Dead(s.payments[pid]) && pid < |Next(s, c).payments| && Dead(Next(s, c).payments[pid])
    ensures !c.DoExecute? && Strands(s, c, pid)
  {
    HeldIs(s, pid);
    if Target(s, c) != Some(pid) {
      OthersSpared(s, c, pid);
    } else if c.DoExecute? {
      JobNeverKills(s, c.tenant, pid, c.answer);
    } else if s.payments[pid].status == Queued {
      QueuedHasNoAttempt(s, pid);
      QueuedDies(s, c, pid);
    } else if c.DoProcessEvent? {
      ProcessedDies(s, c.event, pid);
    } else {
      WaitingIsInert(s, c, pid);
    }
  }

  lemma JobNeverKills(s: State, tenant: nat, pid: nat, answer: ProviderAnswer)
    requires pid < |s.payments| && !Dead(s.payments[pid])
    ensures var s' := Next(s, DoExecute(tenant, pid, answer)); pid < |s'.payments| && !Dead(s'.payments[pid])
  {
    if ExecutePayment(s, tenant, pid, answer).Ok? {
      ExecuteFollows(s, tenant, pid, answer, pid);
    }
  }

  lemma QueuedDies(s: State, c: Command, pid: nat)
    requires pid < |s.payments| && s.payments[pid].status == Queued && s.payments[pid].providerRef == ""
    requires Target(s, c) == Some(pid) && PollAllowed(s, c) && !c.DoExecute? && !c.DoProcessEvent?
    requires pid < |Next(s, c).payments| && Dead(Next(s, c).payments[pid])
    ensures Strands(s, c, pid)
  {
  }

  lemma ProcessedDies(s: State, e: nat, pid: nat)
    requires Reports(s, e, pid) && pid < |s.payments| && s.payments[pid].status == ProviderPending
    requires pid < |Next(s, DoProcessEvent(e)).payments| && Dead(Next(s, DoProcessEvent(e)).payments[pid])
    ensures s.events[e].outcome == ReportsReversal
  {
    ReportIs(s, e, pid);
    if ApplyProviderSuccess(s, pid, s.events[e].ref).Ok? {
      SuccessFollows(s, pid, s.events[e].ref, pid);
    }
    if ApplyProviderFailure(s, pid).Ok? {
      FailureFollows(s, pid, pid);
    }
  }

  // ------------------------------------------------------------------ runs that strand money

  const NO_FACTS := Facts("", "", "", "", [])

  /** A wallet is funded with what one payment costs; the payment is created and submitted under no approval rule. */
  function QueuedRun(amount: int, fee: int): seq<Command> {
    [DoEnsureChart(0), DoFund(0, 0, amount + fee), DoCreate(0, 0, amount, fee, "key", "1", NO_FACTS), DoSubmit(0, 0, [], true, false)]
  }

  function Start(): State { Initial([Wallet(0, true, 0, 0)]) }

  lemma FundingPosts(b: Books, tenant: nat, wallet: nat, amount: int)
    requires amount > 0 && wallet < |b.wallets| && b.wallets[wallet].tenant == tenant && FloatLiability(tenant) in b.accounts
    ensures PostFunding(b, tenant, wallet, amount).Ok?
    ensures PostFunding(b, tenant, wallet, amount).value.wallets == b.wallets
    ensures PostFunding(b, tenant, wallet, amount).value.reservations == b.reservations
  {
    var es := FundingEntries(tenant, wallet, amount);
    var d, c := DebitOf(es), CreditOf(es);
    assert Sum(1, d) == Sum(0, d) + d(0) && Sum(1, c) == Sum(0, c) + c(0);
    assert Sum(2, d) == Sum(1, d) + d(1) && Sum(2, c) == Sum(1, c) + c(1);
  }

  lemma Funds(s: State, total: int)
    requires total > 0 && s == EnsureSystemChart(Start(), 0)
    ensures var s' := Next(s, DoFund(0, 0, total));
      s' == s.(books := s'.books, outbox := s'.outbox) && s'.books.wallets == [Wallet(0, true, total, 0)] && s'.books.reservations == []
  {
    var b1 := Move(s.books, 0, Fund, FundingRef, total, total, 0).value;
    FundingPosts(b1, 0, 0, total);
  }

  lemma Queues(s: State, p: Payment, total: int)
    requires s.payments == [p] && p.status == Draft && p.tenant == 0 && p.wallet == Some(0) && p.total == total > 0
    requires s.books.wallets == [Wallet(0, true, total, 0)] && s.books.reservations == []
    ensures var s' := Next(s, DoSubmit(0, 0, [], true, false));
      && s'.payments == [p.(status := Queued, version := p.version + 2)]
      && s'.attempts == s.attempts && s'.events == s.events
      && s'.books.wallets == [Wallet(0, true, 0, total)] && s'.books.reservations == [Reservation(0, 0, total, Held)]
  {
    var s1 := Transition(s, 0, Validating).value;
    assert Policy.Evaluate([], ContextOf(s1.payments[0])) == [];
    assert SubmitPayment(s, 0, 0, [], true, false) == QueuePayment(s1, 0, 0);
  }

  /** After it the whole wallet is reserved for a QUEUED payment. */
  lemma QueuedRunQueues(amount: int, fee: int, s: State)
    requires amount > 0 && fee >= 0 && s == Run(Start(), QueuedRun(amount, fee))
    ensures Reachable(s) && |s.payments| == 1 && s.payments[0].status == Queued && s.payments[0].tenant == 0 && s.payments[0].wallet == Some(0)
    ensures s.payments[0].number == "1" && s.payments[0].key == "key" && s.payments[0].providerRef == "" && s.attempts == [] && s.events == []
    ensures s.books.wallets == [Wallet(0, true, 0, amount + fee)] && s.books.reservations == [Reservation(0, 0, amount + fee, Held)]
  {
    var cs := QueuedRun(amount, fee);
    assert Unfunded([Wallet(0, true, 0, 0)]);
    assert cs == [cs[0]] + [cs[1]] + [cs[2]] + [cs[3]];
    OneCommand(Start(), cs[0]);
    RunExtends(Start(), [cs[0]], cs[1]);
    RunExtends(Start(), [cs[0]] + [cs[1]], cs[2]);
    RunExtends(Start(), [cs[0]] + [cs[1]] + [cs[2]], cs[3]);
    var s1 := EnsureSystemChart(Start(), 0);
    Funds(s1, amount + fee);
    var s2 := Next(s1, cs[1]);
    var s3 := Next(s2, cs[2]);
    Queues(s3, s3.payments[0], amount + fee);
  }

  /** Cancelled then, the payment takes the whole wallet with it for good. */
  lemma CancelledRunStrands(amount: int, fee: int, cs: seq<Command>)
    requires amount > 0 && fee >= 0
    ensures var s := Run(Start(), QueuedRun(amount, fee));
      && CancelPayment(s, 0, 0).Ok? && s.books.wallets == [Wallet(0, true, 0, amount + fee)]
      && HoldStatus(Run(CancelPayment(s, 0, 0).value, cs).books.reservations, 0) == Some(Held)
  {
    var s := Run(Start(), QueuedRun(amount, fee));
    QueuedRunQueues(amount, fee, s);
    CancelStrandsHold(s, 0, 0, cs);
  }

  /** The provider call times out, and the provider reports a reversal later. */
  function Reported(s: State): State {
    Next(Next(s, DoExecute(0, 0, Threw)), DoIngest("evt", "ZF-1", ReportsReversal))
  }

  lemma ReportedReports(s: State)
    requires |s.payments| == 1 && Has(s, 0, 0) && s.payments[0].status == Queued && s.payments[0].number == "1" && s.attempts == [] && s.events == []
    ensures var s' := Reported(s);
      && Reports(s', 0, 0) && s'.events[0].outcome == ReportsReversal && s'.books == s.books
      && |s'.payments| == 1 && s'.payments[0].status == ProviderPending && s'.payments[0].wallet == s.payments[0].wallet
  {
    ExecuteIs(s, 0, 0, Threw);
    var s1 := Next(s, DoExecute(0, 0, Threw));
    assert "ZF-" + "1" == "ZF-1";
    assert s1.attempts == [Attempt(0, "ZF-1")];
    assert FindAttempt([Attempt(0, "ZF-1")], "ZF-1") == Some(0);
  }

  /** So does one whose provider reports a reversal that never was a payout. */
  lemma ReportedRunStrands(amount: int, fee: int, cs: seq<Command>)
    requires amount > 0 && fee >= 0
    ensures var s := Reported(Run(Start(), QueuedRun(amount, fee)));
      && s.books.wallets == [Wallet(0, true, 0, amount + fee)]
      && HoldStatus(Run(Next(s, DoProcessEvent(0)), cs).books.reservations, 0) == Some(Held)
  {
    var s := Run(Start(), QueuedRun(amount, fee));
    QueuedRunQueues(amount, fee, s);
    ReportedReports(s);
    ReachableNext(s, DoExecute(0, 0, Threw));
    ReachableNext(Next(s, DoExecute(0, 0, Threw)), DoIngest("evt", "ZF-1", ReportsReversal));
    WebhookReversalStrandsHold(Reported(s), 0, 0, cs);
  }

  /** The provider leaves the payment pending and names it "". */
  function Unnamed(s: State): State {
    Next(s, DoExecute(0, 0, Answered(PPending, Some(""))))
  }

  lemma UnnamedIsStuck(s: State)
    requires Has(s, 0, 0) && s.payments[0].status == Queued && s.payments[0].providerRef == "" && s.attempts == []
    ensures Stuck(Unnamed(s), 0) && Unnamed(s).books == s.books
  {
    ExecuteIs(s, 0, 0, Answered(PPending, Some("")));
    assert Unnamed(s).attempts == [Attempt(0, "")];
  }

  /** Left pending under an empty reference, it strands the whole wallet without ever leaving PROVIDER_PENDING. */
  lemma UnnamedRunStrands(amount: int, fee: int, cs: seq<Command>)
    requires amount > 0 && fee >= 0
    requires PollsReferenced(Unnamed(Run(Start(), QueuedRun(amount, fee))), cs)
    ensures var s := Unnamed(Run(Start(), QueuedRun(amount, fee)));
      && s.books.wallets == [Wallet(0, true, 0, amount + fee)]
      && HoldStatus(Run(s, cs).books.reservations, 0) == Some(Held)
      && Stuck(Run(s, cs), 0)
  {
    var s := Run(Start(), QueuedRun(amount, fee));
    QueuedRunQueues(amount, fee, s);
    UnnamedIsStuck(s);
    StuckHoldIsStranded(Unnamed(s), cs, 0);
  }

  /** The provider leaves two payments pending under one reference; the second is the payment of a batch row. */
  function Shadowed(s: State): State {
    var answer := Answered(PPending, Some("ref"));
    Next(Next(Next(s, DoExecute(0, 0, answer)), DoMaterialize(0, 1, "row", "2", NO_FACTS)), DoExecute(0, 1, answer))
  }

  lemma ShadowedIsStuck(s: State)
    requires |s.payments| == 1 && Has(s, 0, 0) && s.payments[0].status == Queued && s.payments[0].key == "key" && s.payments[0].providerRef == ""
    requires s.attempts == []
    ensures Stuck(Shadowed(s), 0) && Shadowed(s).books == s.books
  {
    var answer := Answered(PPending, Some("ref"));
    ExecuteIs(s, 0, 0, answer);
    var s1 := Next(s, DoExecute(0, 0, answer));
    var s2 := Next(s1, DoMaterialize(0, 1, "row", "2", NO_FACTS));
    assert s1.payments[0].key == "key" && "key" != "row";
    assert s2.payments == s1.payments + [Payment(0, "2", None, 1, 0, 1, "row", NO_FACTS, Queued, 1, "")];
    ExecuteIs(s2, 0, 1, answer);
    var xs := [Attempt(0, "ref"), Attempt(1, "ref")];
    assert Shadowed(s).attempts == xs;
    assert FindAttempt(xs, "ref") == Some(1);
  }

  /** Then the first can no longer be reported on, and strands the whole wallet likewise. */
  lemma ShadowedRunStrands(amount: int, fee: int, cs: seq<Command>)
    requires amount > 0 && fee >= 0
    requires PollsReferenced(Shadowed(Run(Start(), QueuedRun(amount, fee))), cs)
    ensures var s := Shadowed(Run(Start(), QueuedRun(amount, fee)));
      && s.books.wallets == [Wallet(0, true, 0, amount + fee)]
      && HoldStatus(Run(s, cs).books.reservations, 0) == Some(Held)
      && Stuck(Run(s, cs), 0)
  {
    var s := Run(Start(), QueuedRun(amount, fee));
    QueuedRunQueues(amount, fee, s);
    ShadowedIsStuck(s);
    StuckHoldIsStranded(Shadowed(s), cs, 0);
  }
}
