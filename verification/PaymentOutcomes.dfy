/**
 What each payment command leaves in the tables, row by row, in every reachable
 state (packages/payments-core/src): which answers, reports and decisions commit,
 and the payment, reservation, wallet, journal, notice and event rows they leave.
 */
module PaymentOutcomes {
  import opened Prelude
  import opened Ledger
  import opened Movements
  import opened Payments
  import opened PaymentInvariant
  import opened PaymentTheorems
  import opened ProviderCalls
  import PaymentGuarantees
  import PaymentSteps
  import Policy

  // ------------------------------------------------------------------- vocabulary

  /** The payment row is as base says, at the end of the path of statuses; each status on it is one version and one history row. */
  predicate RowMoves(s: State, s': State, pid: nat, base: Payment, path: seq<Status>)
    requires pid < |s.payments| && 1 <= |path| <= 2
  {
    var p := s.payments[pid];
    && s'.payments == s.payments[pid := base.(status := path[|path| - 1], version := p.version + |path|)]
    && s'.history == s.history + [Change(pid, Some(p.status), path[0])] + (if |path| == 2 then [Change(pid, Some(path[0]), path[1])] else [])
  }

  /** What is set aside for the payment, its total on its wallet, is released or leaves the wallet; a float-funded payment has nothing set aside. */
  ghost predicate HoldEnds(b: Books, b': Books, pid: nat, p: Payment, released: bool) {
    match p.wallet
    case None => b' == b
    case Some(w) => exists k :: 0 <= k < |b.reservations| && b.reservations[k] == Reservation(pid, w, p.total, Held) && Ended(b, b', k, released)
  }

  /** The hold leaves the wallet and one success journal is posted for principal and fee. */
  ghost predicate Booked(b: Books, b': Books, pid: nat, p: Payment) {
    var b1 := Books(b'.wallets, b'.reservations, b'.entries, b.accounts, b.journals);
    && HoldEnds(b, b1, pid, p, false)
    && OneJournalMore(b1, b', p.wallet) && IsSuccessJournal(b'.journals[|b.journals|], p.tenant, pid, p.wallet, p.amount, p.fee)
  }

  /** The payment succeeded under a provider reference. */
  ghost predicate Succeeds(s: State, s': State, pid: nat, path: seq<Status>, ref: string)
    requires pid < |s.payments| && 1 <= |path| <= 2
  {
    && path[|path| - 1] == Success && RowMoves(s, s', pid, s.payments[pid].(providerRef := ref), path)
    && Booked(s.books, s'.books, pid, s.payments[pid])
    && s'.outbox == s.outbox + [Notice(Succeeded, pid)]
  }

  /** The payment failed: what it held is available again, and no journal was posted. */
  ghost predicate Fails(s: State, s': State, pid: nat, path: seq<Status>)
    requires pid < |s.payments| && 1 <= |path| <= 2
  {
    && path[|path| - 1] == Failed && RowMoves(s, s', pid, s.payments[pid], path)
    && HoldEnds(s.books, s'.books, pid, s.payments[pid], true)
    && s'.outbox == s.outbox + [Notice(FailedNotice, pid)]
  }

  /** The payment only moved; no money did. */
  ghost predicate OnlyMoves(s: State, s': State, pid: nat, path: seq<Status>)
    requires pid < |s.payments| && 1 <= |path| <= 2
  {
    RowMoves(s, s', pid, s.payments[pid], path) && s'.books == s.books && s'.outbox == s.outbox
  }

  /** Tables that neither a job nor a report writes. */
  predicate Elsewhere(s: State, s': State) {
    s'.reversals == s.reversals && s'.requests == s.requests && s'.records == s.records && s'.orphans == s.orphans
  }

  // ------------------------------------------------------------------ the two bookings

  /** Settling the hold of a payment in flight, before or after the job has moved it. */
  lemma HoldEnded(s: State, s0: State, pid: nat, apply: bool)
    requires Reachable(s0) && s.books == s0.books && pid < |s0.payments| && s0.payments[pid].status in {Queued, ProviderPending}
    ensures ConsumeHold(s, pid, apply).Ok?
    ensures var b := ConsumeHold(s, pid, apply).value.books;
      ConsumeHold(s, pid, apply).value == s.(books := b) && HoldEnds(s0.books, b, pid, s0.payments[pid], !apply)
  {
    var p, found := s0.payments[pid], FindReservation(s.books.reservations, pid);
    HoldFollowsStatus(s0, pid);
    if p.wallet.Some? {
      var k := InFlightIsHeld(s0, pid);
      assert found == Some(k);
      WalletExists(s0, pid);
      EndedIff(s.books, k);
    }
  }

  lemma WalletExists(s: State, pid: nat)
    requires Reachable(s) && pid < |s.payments| && s.payments[pid].wallet.Some? && s.payments[pid].status in {Queued, ProviderPending}
    ensures s.payments[pid].wallet.value < |s.books.wallets| && s.payments[pid].total >= 0
  {
    ReachableInv(s);
    var k := InFlightIsHeld(s, pid);
    assert ReservationFits(s.payments, s.books.reservations[k]);
  }

  /** The books of a booked success. */
  lemma BooksBooked(b: Books, b1: Books, pid: nat, p: Payment)
    requires HoldEnds(b, b1, pid, p, false) && PostPaymentSuccess(b1, p.tenant, pid, p.wallet, p.amount, p.fee).Ok?
    ensures Booked(b, PostPaymentSuccess(b1, p.tenant, pid, p.wallet, p.amount, p.fee).value, pid, p)
  {
    SuccessJournal(b1, p.tenant, pid, p.wallet, p.amount, p.fee);
    var b' := PostPaymentSuccess(b1, p.tenant, pid, p.wallet, p.amount, p.fee).value;
    assert Books(b'.wallets, b'.reservations, b'.entries, b.accounts, b.journals) == b1;
  }

  lemma BookableIff(s: State, s0: State, pid: nat, ref: string)
    requires Reachable(s0) && s.books == s0.books && pid < |s.payments| && s.payments[pid].status in {Processing, ProviderPending}
    ensures var p := s.payments[pid];
      BookSuccess(s, pid, ref).Ok? <==> CanBook(s.books, p.tenant, p.wallet, p.amount, p.fee)
  {
    ReachableInv(s0);
    SuccessBooksIff(s, s0, pid, ref);
  }

  /** Everything else of a booked success, once its hold has ended. */
  lemma SuccessRow(s: State, pid: nat, ref: string, b1: Books)
    requires pid < |s.payments| && s.payments[pid].status in {Processing, ProviderPending}
    requires ConsumeHold(s, pid, true) == Ok(s.(books := b1)) && BookSuccess(s, pid, ref).Ok?
    ensures var p, s' := s.payments[pid], BookSuccess(s, pid, ref).value;
      && PostPaymentSuccess(b1, p.tenant, pid, p.wallet, p.amount, p.fee) == Ok(s'.books)
      && s' == s.(payments := s.payments[pid := p.(status := Success, version := p.version + 1, providerRef := ref)],
                  history := s.history + [Change(pid, Some(p.status), Success)],
                  books := s'.books, outbox := s.outbox + [Notice(Succeeded, pid)])
  {
  }

  /** A success books exactly when its journal can be posted. */
  lemma SuccessBooked(s: State, s0: State, pid: nat, ref: string)
    requires Reachable(s0) && s.books == s0.books && pid < |s.payments| == |s0.payments|
    requires s0.payments[pid].status in {Queued, ProviderPending} && s.payments[pid].status in {Processing, ProviderPending}
    requires SameTerms(s.payments[pid], s0.payments[pid]) && BookSuccess(s, pid, ref).Ok?
    ensures Booked(s0.books, BookSuccess(s, pid, ref).value.books, pid, s0.payments[pid])
  {
    HoldEnded(s, s0, pid, true);
    var b1 := ConsumeHold(s, pid, true).value.books;
    SuccessRow(s, pid, ref, b1);
    BooksBooked(s0.books, b1, pid, s0.payments[pid]);
  }

  /** A failure books whenever the payment may fail. */
  lemma FailureRow(s: State, pid: nat, b1: Books)
    requires pid < |s.payments| && s.payments[pid].status in {Processing, ProviderPending}
    requires ConsumeHold(s, pid, false) == Ok(s.(books := b1))
    ensures var p := s.payments[pid];
      BookFailure(s, pid) == Ok(s.(payments := s.payments[pid := p.(status := Failed, version := p.version + 1)],
                                   history := s.history + [Change(pid, Some(p.status), Failed)],
                                   books := b1, outbox := s.outbox + [Notice(FailedNotice, pid)]))
  {
  }

  /** A success reported for a payment that waits for the provider. */
  lemma WaitingSucceeds(s: State, pid: nat, ref: string)
    requires Reachable(s) && pid < |s.payments| && s.payments[pid].status == ProviderPending
    ensures var p, r := s.payments[pid], ApplyProviderSuccess(s, pid, ref);
      && (r.Ok? <==> CanBook(s.books, p.tenant, p.wallet, p.amount, p.fee))
      && (r.Ok? ==> Succeeds(s, r.value, pid, [Success], ref) && Elsewhere(s, r.value) && r.value.attempts == s.attempts && r.value.events == s.events)
  {
    BookableIff(s, s, pid, ref);
    if BookSuccess(s, pid, ref).Ok? {
      HoldEnded(s, s, pid, true);
      SuccessBooked(s, s, pid, ref);
      SuccessRow(s, pid, ref, ConsumeHold(s, pid, true).value.books);
    }
  }

  /** A failure reported for it. */
  lemma WaitingFails(s: State, pid: nat)
    requires Reachable(s) && pid < |s.payments| && s.payments[pid].status == ProviderPending
    ensures var r := ApplyProviderFailure(s, pid);
      r.Ok? && Fails(s, r.value, pid, [Failed]) && Elsewhere(s, r.value) && r.value.attempts == s.attempts && r.value.events == s.events
  {
    HoldEnded(s, s, pid, false);
    FailureRow(s, pid, ConsumeHold(s, pid, false).value.books);
  }

  // --------------------------------------------------------------------- reports

  /** Attempt a is the latest with the reference. */
  predicate LatestAttempt(attempts: seq<Attempt>, ref: string, a: nat) {
    a < |attempts| && attempts[a].ref == ref && forall i | a < i < |attempts| :: attempts[i].ref != ref
  }

  /** Event e is unprocessed, and the latest attempt with its reference is the payment's. */
  ghost predicate IsAbout(s: State, e: nat, pid: nat) {
    && e < |s.events| && s.events[e].status != Processed && s.events[e].ref != ""
    && exists a: nat :: LatestAttempt(s.attempts, s.events[e].ref, a) && s.attempts[a].payment == pid
  }

  lemma {:induction false} LatestFound(attempts: seq<Attempt>, ref: string, a: nat)
    requires LatestAttempt(attempts, ref, a)
    ensures FindAttempt(attempts, ref) == Some(a)
  {
    if a < |attempts| - 1 {
      LatestFound(attempts[..|attempts| - 1], ref, a);
    }
  }

  lemma {:induction false} NoneFound(attempts: seq<Attempt>, ref: string)
    requires forall a | 0 <= a < |attempts| :: attempts[a].ref != ref
    ensures FindAttempt(attempts, ref).None?
  {
    if |attempts| > 0 {
      NoneFound(attempts[..|attempts| - 1], ref);
    }
  }

  /** The mark is the event's last trace. */
  predicate Marked(s: State, s': State, e: nat, mark: EventStatus)
    requires e < |s.events|
  {
    s'.events == s.events[e := WebhookEvent(s.events[e].id, s.events[e].ref, s.events[e].outcome, mark)]
  }

  /** An event about a payment commits what its outcome commits, and its mark; or nothing. */
  lemma EventIs(s: State, e: nat, pid: nat)
    requires IsAbout(s, e, pid)
    ensures var r, done, s' := ProcessWebhookEvent(s, e), ApplyCallback(s, pid, s.events[e].ref, s.events[e].outcome), Next(s, DoProcessEvent(e));
      && (done.Ok? && done.value.events == s.events ==> r == Ok(s') && s' == MarkEvent(done.value, e, Processed))
      && (done.Err? ==> r.Err? && s' == s)
  {
    var a: nat :| LatestAttempt(s.attempts, s.events[e].ref, a) && s.attempts[a].payment == pid;
    LatestFound(s.attempts, s.events[e].ref, a);
  }

  /** Marking the event leaves the outcome as it is. */
  lemma MarkedOutcome(s: State, s1: State, e: nat, pid: nat, path: seq<Status>, ref: string)
    requires e < |s.events| && s1.events == s.events && pid < |s.payments| && 1 <= |path| <= 2
    requires Elsewhere(s, s1) && s1.attempts == s.attempts
    ensures var s' := MarkEvent(s1, e, Processed);
      && (Succeeds(s, s1, pid, path, ref) ==> Succeeds(s, s', pid, path, ref)) && (Fails(s, s1, pid, path) ==> Fails(s, s', pid, path))
      && Marked(s, s', e, Processed) && Elsewhere(s, s') && s'.attempts == s.attempts
  {
  }

  lemma AboutExists(s: State, e: nat, pid: nat)
    requires Reachable(s) && IsAbout(s, e, pid)
    ensures pid < |s.payments|
  {
    ReachableInv(s);
    var a: nat :| LatestAttempt(s.attempts, s.events[e].ref, a) && s.attempts[a].payment == pid;
    PaymentSteps.AttemptCounts(s, a);
    assert pid >= |s.payments| ==> TallyOf(s, pid) == BLANK;
  }

  /**
   A SUCCESS report about a payment that waits for the provider commits exactly when the success journal can be posted. The
   payment is then SUCCESS under the reference the event carries; otherwise nothing changes.
   */
  lemma SuccessReport(s: State, e: nat, pid: nat)
    requires Reachable(s) && IsAbout(s, e, pid) && s.events[e].outcome == ReportsSuccess
    requires pid < |s.payments| && s.payments[pid].status == ProviderPending
    ensures var p, s' := s.payments[pid], Next(s, DoProcessEvent(e));
      if CanBook(s.books, p.tenant, p.wallet, p.amount, p.fee) then
        ProcessWebhookEvent(s, e) == Ok(s') && Succeeds(s, s', pid, [Success], s.events[e].ref)
        && Marked(s, s', e, Processed) && Elsewhere(s, s') && s'.attempts == s.attempts
      else ProcessWebhookEvent(s, e).Err? && s' == s
  {
    EventIs(s, e, pid);
    WaitingSucceeds(s, pid, s.events[e].ref);
    var done := ApplyProviderSuccess(s, pid, s.events[e].ref);
    if done.Ok? {
      MarkedOutcome(s, done.value, e, pid, [Success], s.events[e].ref);
    }
  }

  /** A FAILURE report about such a payment fails it and gives back what it held. */
  lemma FailureReport(s: State, e: nat, pid: nat)
    requires Reachable(s) && IsAbout(s, e, pid) && s.events[e].outcome == ReportsFailure
    requires pid < |s.payments| && s.payments[pid].status == ProviderPending
    ensures var s' := Next(s, DoProcessEvent(e));
      && ProcessWebhookEvent(s, e) == Ok(s') && Fails(s, s', pid, [Failed])
      && Marked(s, s', e, Processed) && Elsewhere(s, s') && s'.attempts == s.attempts
  {
    EventIs(s, e, pid);
    WaitingFails(s, pid);
    MarkedOutcome(s, ApplyProviderFailure(s, pid).value, e, pid, [Failed], "");
  }

  /** The other two outcomes: UNKNOWN only marks the event, REVERSED overwrites the status and touches neither history nor money. */
  lemma OtherReports(s: State, e: nat, pid: nat)
    requires IsAbout(s, e, pid) && pid < |s.payments|
    ensures var s' := Next(s, DoProcessEvent(e));
      && (s.events[e].outcome == ReportsUnknown ==> s' == s.(events := s'.events) && Marked(s, s', e, Processed))
      && (s.events[e].outcome == ReportsReversal ==>
            s' == s.(payments := s.payments[pid := s.payments[pid].(status := Status.Reversed)], events := s'.events) && Marked(s, s', e, Processed))
  {
    EventIs(s, e, pid);
  }

  /** Late reports about a payment that has ended: one that says what is stored already only marks itself, one that says otherwise is refused. */
  lemma LateReports(s: State, e: nat, pid: nat)
    requires IsAbout(s, e, pid) && pid < |s.payments|
    requires s.payments[pid].status in {Success, Failed, Cancelled, Status.Reversed} && s.events[e].outcome in {ReportsSuccess, ReportsFailure}
    ensures var s' := Next(s, DoProcessEvent(e));
      if (s.events[e].outcome == ReportsSuccess) == (s.payments[pid].status == Success) then s' == s.(events := s'.events) && Marked(s, s', e, Processed)
      else ProcessWebhookEvent(s, e).Err? && s' == s
  {
    EventIs(s, e, pid);
    if s.payments[pid].status == Success {
      PaymentGuarantees.LateFailureThrows(s, pid);
    }
  }

  /** An event nobody answers to is marked UNMATCHED and put up for reconciliation unless it is already; one without a reference is marked FAILED. */
  lemma StrayEvent(s: State, e: nat)
    requires e < |s.events| && s.events[e].status != Processed
    requires s.events[e].ref == "" || forall a | 0 <= a < |s.attempts| :: s.attempts[a].ref != s.events[e].ref
    ensures var s', orphan := Next(s, DoProcessEvent(e)), Orphan(FromWebhook, s.events[e].ref);
      && Marked(s, s', e, if s.events[e].ref == "" then EventFailed else Unmatched)
      && s' == s.(events := s'.events, orphans := if s.events[e].ref == "" || orphan in s.orphans then s.orphans else s.orphans + [orphan])
  {
    if s.events[e].ref != "" {
      NoneFound(s.attempts, s.events[e].ref);
    }
  }

  /** An event is stored as received, once per id. */
  lemma IngestedIff(s: State, id: string, ref: string, outcome: Outcome)
    ensures IngestWebhook(s, id, ref, outcome) ==
      if exists i :: 0 <= i < |s.events| && s.events[i].id == id then s
      else s.(events := s.events + [WebhookEvent(id, ref, outcome, Received)])
  {
  }

  // ------------------------------------------------------------------------ jobs

  lemma CalledIs(s: State, pid: nat, answer: ProviderAnswer, ref: string)
    requires pid < |s.payments| && s.payments[pid].status == Queued
    requires ref == if answer.Answered? && answer.ref.Some? then answer.ref.value else "ZF-" + s.payments[pid].number
    ensures ref == ReferenceOf(s.payments[pid], answer)
    ensures Called(s, pid, answer) == s.(
      payments := s.payments[pid := s.payments[pid].(status := Processing, version := s.payments[pid].version + 1)],
      history := s.history + [Change(pid, Some(Queued), Processing)],
      attempts := s.attempts + [Attempt(pid, ref)])
  {
  }

  /** The job's own tables. */
  predicate JobTables(s: State, s': State, pid: nat, ref: string) {
    Elsewhere(s, s') && s'.events == s.events && s'.attempts == s.attempts + [Attempt(pid, ref)]
  }

  /** The job's move to PROCESSING followed by the booking. */
  lemma BookedInJob(s: State, s2: State, s3: State, pid: nat, answer: ProviderAnswer, ref: string)
    requires pid < |s.payments| && s.payments[pid].status == Queued && s2 == Called(s, pid, answer)
    requires ref == if answer.Answered? && answer.ref.Some? then answer.ref.value else "ZF-" + s.payments[pid].number
    requires Booked(s.books, s3.books, pid, s.payments[pid])
    requires var p := s2.payments[pid];
      s3 == s2.(payments := s2.payments[pid := p.(status := Success, version := p.version + 1, providerRef := ref)],
                history := s2.history + [Change(pid, Some(p.status), Success)],
                books := s3.books, outbox := s2.outbox + [Notice(Succeeded, pid)])
    ensures Succeeds(s, s3, pid, [Processing, Success], ref) && JobTables(s, s3, pid, ref)
  {
    CalledIs(s, pid, answer, ref);
  }

  lemma JobSucceeds(s: State, pid: nat, answer: ProviderAnswer, ref: string)
    requires Reachable(s) && pid < |s.payments| && s.payments[pid].status == Queued
    requires ref == if answer.Answered? && answer.ref.Some? then answer.ref.value else "ZF-" + s.payments[pid].number
    ensures var p, r := s.payments[pid], BookSuccess(Called(s, pid, answer), pid, ref);
      && (r.Ok? <==> CanBook(s.books, p.tenant, p.wallet, p.amount, p.fee))
      && (r.Ok? ==> Succeeds(s, r.value, pid, [Processing, Success], ref) && JobTables(s, r.value, pid, ref))
  {
    var s2 := Called(s, pid, answer);
    BookableIff(s2, s, pid, ref);
    if BookSuccess(s2, pid, ref).Ok? {
      HoldEnded(s2, s, pid, true);
      SuccessBooked(s2, s, pid, ref);
      SuccessRow(s2, pid, ref, ConsumeHold(s2, pid, true).value.books);
      BookedInJob(s, s2, BookSuccess(s2, pid, ref).value, pid, answer, ref);
    }
  }

  lemma JobFails(s: State, pid: nat, answer: ProviderAnswer, ref: string)
    requires Reachable(s) && pid < |s.payments| && s.payments[pid].status == Queued
    requires ref == if answer.Answered? && answer.ref.Some? then answer.ref.value else "ZF-" + s.payments[pid].number
    ensures var r := BookFailure(Called(s, pid, answer), pid);
      r.Ok? && Fails(s, r.value, pid, [Processing, Failed]) && JobTables(s, r.value, pid, ref)
  {
    CalledIs(s, pid, answer, ref);
    var s2 := Called(s, pid, answer);
    HoldEnded(s2, s, pid, false);
    FailureRow(s2, pid, ConsumeHold(s2, pid, false).value.books);
  }

  lemma JobWaits(s: State, pid: nat, answer: ProviderAnswer, ref: string)
    requires pid < |s.payments| && s.payments[pid].status == Queued
    requires ref == if answer.Answered? && answer.ref.Some? then answer.ref.value else "ZF-" + s.payments[pid].number
    ensures var r := Transition(Called(s, pid, answer), pid, ProviderPending);
      r.Ok? && OnlyMoves(s, r.value, pid, [Processing, ProviderPending]) && JobTables(s, r.value, pid, ref)
  {
    CalledIs(s, pid, answer, ref);
  }

  /** The answers after which nothing is committed. */
  predicate Undone(s: State, pid: nat, answer: ProviderAnswer, ref: string)
    requires pid < |s.payments|
  {
    var p := s.payments[pid];
    || |ref| > 200
    || (answer.Answered? && answer.status == PReversed)
    || (answer.Answered? && answer.status == PSuccess && !CanBook(s.books, p.tenant, p.wallet, p.amount, p.fee))
  }

  /**
   An execution job of a QUEUED payment: the attempt is recorded under the provider's reference, or the platform's own, and the
   answer decides. SUCCESS books the payment under that reference, FAILED gives the money back, anything else waits.
   */
  lemma JobIs(s: State, tenant: nat, pid: nat, answer: ProviderAnswer, ref: string)
    requires Reachable(s) && Has(s, tenant, pid) && s.payments[pid].status == Queued
    requires ref == if answer.Answered? && answer.ref.Some? then answer.ref.value else "ZF-" + s.payments[pid].number
    ensures var r := ExecutePayment(s, tenant, pid, answer);
      && (r.Err? <==> Undone(s, pid, answer, ref))
      && (r.Ok? ==> JobTables(s, r.value, pid, ref))
      && (r.Ok? ==>
            if answer.Answered? && answer.status == PSuccess then Succeeds(s, r.value, pid, [Processing, Success], ref)
            else if answer.Answered? && answer.status == PFailed then Fails(s, r.value, pid, [Processing, Failed])
            else OnlyMoves(s, r.value, pid, [Processing, ProviderPending]))
  {
    CalledIs(s, pid, answer, ref);
    ExecuteIs(s, tenant, pid, answer);
    JobSucceeds(s, pid, answer, ref);
    JobFails(s, pid, answer, ref);
    JobWaits(s, pid, answer, ref);
  }

  /** Any other job does nothing, and a payment of another tenant is not found. */
  lemma OtherJobs(s: State, tenant: nat, pid: nat, answer: ProviderAnswer)
    ensures !(pid < |s.payments| && s.payments[pid].tenant == tenant) ==> ExecutePayment(s, tenant, pid, answer) == Err("PAYMENT_NOT_FOUND")
    ensures pid < |s.payments| && s.payments[pid].tenant == tenant && s.payments[pid].status != Queued ==> ExecutePayment(s, tenant, pid, answer) == Ok(s)
  {
  }

  /** A poll of a waiting payment is a report without an event, except that REVERSED goes through the table. */
  lemma PollIs(s: State, pid: nat, ref: string, outcome: Outcome)
    requires Reachable(s) && pid < |s.payments| && s.payments[pid].status == ProviderPending
    ensures var p, r := s.payments[pid], StatusPoll(s, pid, ref, outcome);
      match outcome
      case ReportsSuccess => (r.Ok? <==> CanBook(s.books, p.tenant, p.wallet, p.amount, p.fee)) && (r.Ok? ==> Succeeds(s, r.value, pid, [Success], ref))
      case ReportsFailure => r.Ok? && Fails(s, r.value, pid, [Failed])
      case ReportsReversal => r.Ok? && OnlyMoves(s, r.value, pid, [Status.Reversed])
      case ReportsUnknown => r == Ok(s)
  {
    match outcome {
      case ReportsSuccess => WaitingSucceeds(s, pid, ref);
      case ReportsFailure => WaitingFails(s, pid);
      case ReportsReversal =>
      case ReportsUnknown =>
    }
  }
}
