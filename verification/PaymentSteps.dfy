/** Every payment command keeps the invariant. */
module PaymentSteps {
  import opened Prelude
  import opened Sums
  import opened Ledger
  import opened Payments
  import opened PaymentInvariant
  import Policy

  /** Two updates of the same payment make one. */
  lemma Compose(s: State, s1: State, s2: State, pid: nat, w: Option<nat>, a: int, b: int)
    requires Touches(s, s1, pid) && DriftMoves(s, s1, w, a)
    requires Touches(s1, s2, pid) && DriftMoves(s1, s2, w, b)
    ensures Touches(s, s2, pid) && DriftMoves(s, s2, w, a + b)
  {
    forall q: nat | q != pid ensures TallyOf(s2, q) == TallyOf(s, q) {
      assert TallyOf(s2, q) == TallyOf(s1, q);
    }
  }

  lemma Still(s: State, s': State, w: Option<nat>)
    requires DriftMoves(s, s', None, 0)
    ensures DriftMoves(s, s', w, 0)
  {
  }

  lemma MarkedSuccess(s: State, pid: nat, ref: string)
    requires Framework(s) && pid < |s.payments| && s.payments[pid].status != Success && MarkSuccess(s, pid, ref).Ok?
    ensures var s' := MarkSuccess(s, pid, ref).value;
      var p, t := s.payments[pid], TallyOf(s, pid);
      && Touches(s, s', pid) && DriftMoves(s, s', None, 0)
      && s'.payments[pid] == p.(status := Success, version := p.version + 1, providerRef := ref)
      && TallyOf(s', pid) == t.(changes := t.changes + 1)
      && s'.books == s.books && s'.events == s.events
  {
    var s1 := Transition(s, pid, Success).value;
    Transitioned(s, pid, Success);
    var s2 := MarkSuccess(s, pid, ref).value;
    RowSet(s1, pid, s2.payments[pid]);
    Compose(s, s1, s2, pid, None, 0, 0);
  }

  /** Payment pid succeeded between s and s': row and tally, with the drift it still has to make good. */
  ghost predicate Succeeds(s: State, s': State, pid: nat, ref: string, journals: int, owed: int)
    requires pid < |s.payments|
  {
    var p, t := s.payments[pid], TallyOf(s, pid);
    && Touches(s, s', pid) && DriftMoves(s, s', p.wallet, owed)
    && s'.payments[pid] == p.(status := Success, version := p.version + 1, providerRef := ref)
    && TallyOf(s', pid) == t.(
         hold := if p.wallet.Some? then Some(Applied) else None,
         applies := t.applies + (if p.wallet.Some? then 1 else 0),
         successJournals := journals, notices := t.notices + journals, changes := t.changes + 1)
    && s'.events == s.events
  }

  /** Halfway through a success the wallet has paid principal and fee that no journal shows yet. */
  lemma HoldApplied(s: State, pid: nat, ref: string)
    requires Framework(s) && pid < |s.payments| && s.payments[pid].status != Success
    requires s.payments[pid].wallet.Some? ==> TallyOf(s, pid).hold == Some(Held)
    requires s.payments[pid].wallet.None? ==> TallyOf(s, pid).hold.None?
    requires TallyOf(s, pid).successJournals == 0
    requires ConsumeHold(s, pid, true).Ok? && MarkSuccess(ConsumeHold(s, pid, true).value, pid, ref).Ok?
    ensures Succeeds(s, MarkSuccess(ConsumeHold(s, pid, true).value, pid, ref).value, pid, ref, 0, s.payments[pid].total)
  {
    var p := s.payments[pid];
    var s1 := ConsumeHold(s, pid, true).value;
    HoldConsumed(s, pid, true);
    var s2 := MarkSuccess(s1, pid, ref).value;
    MarkedSuccess(s1, pid, ref);
    Still(s1, s2, p.wallet);
    Compose(s, s1, s2, pid, p.wallet, p.total, 0);
  }

  lemma SuccessJournalled(s: State, pid: nat)
    requires Framework(s) && pid < |s.payments| && TallyOf(s, pid).successJournals == 0 && PostSuccess(s, pid).Ok?
    ensures var s' := PostSuccess(s, pid).value;
      && Touches(s, s', pid)
      && DriftMoves(s, s', s.payments[pid].wallet, -s.payments[pid].amount - s.payments[pid].fee)
      && s'.payments == s.payments && s'.events == s.events
      && TallyOf(s', pid) == TallyOf(s, pid).(successJournals := 1, notices := TallyOf(s, pid).notices + 1)
  {
    var p := s.payments[pid];
    SuccessPosted(s, pid);
    var s1 := s.(books := PostPaymentSuccess(s.books, p.tenant, pid, p.wallet, p.amount, p.fee).value);
    Notified(s1, Succeeded, pid, pid);
    Still(s1, Notify(s1, Succeeded, pid), p.wallet);
    Compose(s, s1, Notify(s1, Succeeded, pid), pid, p.wallet, -p.amount - p.fee, 0);
  }

  lemma SuccessCompleted(s: State, s2: State, pid: nat, ref: string)
    requires pid < |s.payments| && Succeeds(s, s2, pid, ref, 0, s.payments[pid].total)
    requires s.payments[pid].total == s.payments[pid].amount + s.payments[pid].fee
    requires PostSuccess(s2, pid).Ok?
    ensures Succeeds(s, PostSuccess(s2, pid).value, pid, ref, 1, 0)
  {
    var p := s.payments[pid];
    SuccessJournalled(s2, pid);
    Compose(s, s2, PostSuccess(s2, pid).value, pid, p.wallet, p.total, -p.total);
  }

  /** A verified success: the hold is applied, the journal posted and the reference set, with no drift left. */
  lemma SuccessBooked(s: State, pid: nat, ref: string)
    requires Framework(s) && pid < |s.payments| && s.payments[pid].status != Success
    requires s.payments[pid].total == s.payments[pid].amount + s.payments[pid].fee
    requires s.payments[pid].wallet.Some? ==> TallyOf(s, pid).hold == Some(Held)
    requires s.payments[pid].wallet.None? ==> TallyOf(s, pid).hold.None?
    requires TallyOf(s, pid).successJournals == 0
    requires BookSuccess(s, pid, ref).Ok?
    ensures Succeeds(s, BookSuccess(s, pid, ref).value, pid, ref, 1, 0)
  {
    HoldApplied(s, pid, ref);
    SuccessCompleted(s, MarkSuccess(ConsumeHold(s, pid, true).value, pid, ref).value, pid, ref);
  }

  /** A verified failure: whatever is held is released. */
  lemma FailureBooked(s: State, pid: nat)
    requires Framework(s) && pid < |s.payments| && s.payments[pid].status != Failed && BookFailure(s, pid).Ok?
    ensures var s' := BookFailure(s, pid).value;
      var p, t := s.payments[pid], TallyOf(s, pid);
      && Touches(s, s', pid) && DriftMoves(s, s', None, 0)
      && Failed in Successors(p.status)
      && s'.payments[pid] == p.(status := Failed, version := p.version + 1)
      && TallyOf(s', pid) == t.(hold := if t.hold == Some(Held) then Some(Released) else t.hold, changes := t.changes + 1)
      && s'.events == s.events
  {
    var s1 := ConsumeHold(s, pid, false).value;
    HoldConsumed(s, pid, false);
    var s2 := Transition(s1, pid, Failed).value;
    Transitioned(s1, pid, Failed);
    Compose(s, s1, s2, pid, None, 0, 0);
    var s3 := Notify(s2, FailedNotice, pid);
    Notified(s2, FailedNotice, pid, pid);
    Compose(s, s2, s3, pid, None, 0, 0);
  }

  lemma SuccessKeepsInv(s: State, pid: nat, ref: string)
    requires Inv(s) && ApplyProviderSuccess(s, pid, ref).Ok?
    ensures Inv(ApplyProviderSuccess(s, pid, ref).value)
    ensures ApplyProviderSuccess(s, pid, ref).value.events == s.events
  {
    assert Fits(s.payments[pid], TallyOf(s, pid));
    if s.payments[pid].status != Success {
      assert s.payments[pid].status == ProviderPending by {
        if s.payments[pid].status == Queued {
          SuccessNeedsCall(s, pid, ref);
        }
      }
      SuccessBooked(s, pid, ref);
      TouchedKeepsInv(s, BookSuccess(s, pid, ref).value, pid);
    }
  }

  /** The table has no edge from QUEUED to SUCCESS: a callback before the provider call throws. */
  lemma SuccessNeedsCall(s: State, pid: nat, ref: string)
    requires pid < |s.payments| && s.payments[pid].status == Queued
    ensures ApplyProviderSuccess(s, pid, ref).Err?
  {
    if ConsumeHold(s, pid, true).Ok? {
      assert ConsumeHold(s, pid, true).value.payments == s.payments;
    }
  }

  lemma FailureKeepsInv(s: State, pid: nat)
    requires Inv(s) && ApplyProviderFailure(s, pid).Ok?
    ensures Inv(ApplyProviderFailure(s, pid).value)
    ensures ApplyProviderFailure(s, pid).value.events == s.events
  {
    assert Fits(s.payments[pid], TallyOf(s, pid));
    if s.payments[pid].status !in {Failed, Cancelled, Reversed} {
      FailureBooked(s, pid);
      TouchedKeepsInv(s, BookFailure(s, pid).value, pid);
    }
  }

  /** The state in which an execution job calls the provider and has recorded the attempt. */
  lemma CalledProvider(s: State, pid: nat, ref: string)
    requires Inv(s) && pid < |s.payments| && s.payments[pid].status == Queued
    ensures Transition(s, pid, Processing).Ok?
    ensures var s2 := RecordAttempt(Transition(s, pid, Processing).value, pid, ref);
      var p, t := s.payments[pid], TallyOf(s, pid);
      && Touches(s, s2, pid) && DriftMoves(s, s2, None, 0)
      && s2.payments[pid] == p.(status := Processing, version := p.version + 1)
      && TallyOf(s2, pid) == t.(attempts := t.attempts + 1, changes := t.changes + 1)
  {
    Transitioned(s, pid, Processing);
    var s1 := Transition(s, pid, Processing).value;
    Attempted(s1, pid, ref);
    Compose(s, s1, RecordAttempt(s1, pid, ref), pid, None, 0, 0);
  }

  /** Finishing a command on payment pid with one table transition. */
  lemma FinishTransition(s: State, s1: State, s': State, pid: nat, to: Status)
    requires Inv(s) && Touches(s, s1, pid) && DriftMoves(s, s1, None, 0)
    requires Transition(s1, pid, to) == Ok(s') && s1.payments[pid].status != to
    requires Fits(s1.payments[pid].(status := to, version := s1.payments[pid].version + 1),
                  TallyOf(s1, pid).(changes := TallyOf(s1, pid).changes + 1))
    ensures Inv(s')
  {
    Transitioned(s1, pid, to);
    Compose(s, s1, s', pid, None, 0, 0);
    TouchedKeepsInv(s, s', pid);
  }

  /** What an execution job knows when the provider has answered: s2 is s with the call recorded. */
  ghost predicate Calling(s: State, s2: State, pid: nat) {
    && Inv(s) && pid < |s.payments| && s.payments[pid].status == Queued
    && Touches(s, s2, pid) && DriftMoves(s, s2, None, 0)
    && s2.payments[pid] == s.payments[pid].(status := Processing, version := s.payments[pid].version + 1)
    && TallyOf(s2, pid) == TallyOf(s, pid).(attempts := TallyOf(s, pid).attempts + 1, changes := TallyOf(s, pid).changes + 1)
  }

  lemma ExecutedSuccess(s: State, s2: State, pid: nat, ref: string)
    requires Calling(s, s2, pid) && BookSuccess(s2, pid, ref).Ok?
    ensures Inv(BookSuccess(s2, pid, ref).value)
  {
    var s' := BookSuccess(s2, pid, ref).value;
    assert Fits(s.payments[pid], TallyOf(s, pid));
    SuccessBooked(s2, pid, ref);
    assert DriftMoves(s2, s', None, 0);
    Compose(s, s2, s', pid, None, 0, 0);
    TouchedKeepsInv(s, s', pid);
  }

  lemma ExecutedFailure(s: State, s2: State, pid: nat)
    requires Calling(s, s2, pid) && BookFailure(s2, pid).Ok?
    ensures Inv(BookFailure(s2, pid).value)
  {
    var s' := BookFailure(s2, pid).value;
    assert Fits(s.payments[pid], TallyOf(s, pid));
    FailureBooked(s2, pid);
    Compose(s, s2, s', pid, None, 0, 0);
    TouchedKeepsInv(s, s', pid);
  }

  lemma PendingFits(p: Payment, t: Tally)
    requires Fits(p, t) && p.status == Queued
    ensures Fits(p.(status := ProviderPending, version := p.version + 2), t.(attempts := t.attempts + 1, changes := t.changes + 2))
  {
  }

  lemma PendingReady(s: State, s2: State, pid: nat)
    requires Calling(s, s2, pid)
    ensures pid < |s2.payments| && s2.payments[pid].status == Processing
    ensures var p2, t2 := s2.payments[pid], TallyOf(s2, pid);
      Fits(p2.(status := ProviderPending, version := p2.version + 1), t2.(changes := t2.changes + 1))
  {
    assert Fits(s.payments[pid], TallyOf(s, pid));
    PendingFits(s.payments[pid], TallyOf(s, pid));
  }

  lemma ExecutedPending(s: State, s2: State, s': State, pid: nat)
    requires Calling(s, s2, pid) && Transition(s2, pid, ProviderPending) == Ok(s')
    ensures Inv(s')
  {
    PendingReady(s, s2, pid);
    Transitioned(s2, pid, ProviderPending);
    Compose(s, s2, s', pid, None, 0, 0);
    TouchedKeepsInv(s, s', pid);
  }

  lemma AfterCallIs(s: State, pid: nat, ref: string, answer: ProviderAnswer)
    requires pid < |s.payments| && s.payments[pid].status == Processing
    ensures AfterCall(s, pid, ref, answer) ==
      if answer.Threw? || answer.status in {PPending, PUnknown} then Transition(s, pid, ProviderPending)
      else if answer.status == PSuccess then BookSuccess(s, pid, ref)
      else if answer.status == PFailed then BookFailure(s, pid)
      else Err("ILLEGAL_TRANSITION")
  {
  }

  lemma AfterCallKeepsInv(s: State, s2: State, pid: nat, ref: string, answer: ProviderAnswer)
    requires Calling(s, s2, pid) && AfterCall(s2, pid, ref, answer).Ok?
    ensures Inv(AfterCall(s2, pid, ref, answer).value)
  {
    AfterCallIs(s2, pid, ref, answer);
    if answer.Answered? && answer.status == PSuccess {
      ExecutedSuccess(s, s2, pid, ref);
    } else if answer.Answered? && answer.status == PFailed {
      ExecutedFailure(s, s2, pid);
    } else {
      ExecutedPending(s, s2, AfterCall(s2, pid, ref, answer).value, pid);
    }
  }

  lemma ExecuteKeepsInv(s: State, tenant: nat, pid: nat, answer: ProviderAnswer)
    requires Inv(s) && ExecutePayment(s, tenant, pid, answer).Ok?
    ensures Inv(ExecutePayment(s, tenant, pid, answer).value)
  {
    if s.payments[pid].status == Queued {
      var ref := ReferenceOf(s.payments[pid], answer);
      CalledProvider(s, pid, ref);
      AfterCallKeepsInv(s, RecordAttempt(Transition(s, pid, Processing).value, pid, ref), pid, ref, answer);
    }
  }

  /** Queueing: reserve the total, then QUEUED; or be denied, then FAILED. */
  lemma Enqueued(s: State, s0: State, tenant: nat, pid: nat)
    requires Inv(s0) && Touches(s0, s, pid) && DriftMoves(s0, s, None, 0)
    requires s.payments[pid].status in {Validating, Approved}
    requires Fits(s0.payments[pid], TallyOf(s0, pid)) && s0.payments[pid].status in {Draft, PendingApproval}
    requires s.payments[pid].providerRef == s0.payments[pid].providerRef
    requires TallyOf(s, pid) == TallyOf(s0, pid).(changes := TallyOf(s, pid).changes)
    requires s.payments[pid].version == 1 + TallyOf(s, pid).changes
    requires QueuePayment(s, tenant, pid).Ok?
    ensures Inv(QueuePayment(s, tenant, pid).value)
  {
    var p := s.payments[pid];
    var (b, reserved) := ReserveFunds(s.books, tenant, pid, p.wallet.value, p.total).value;
    FundsReserved(s, tenant, pid);
    var s1 := s.(books := b);
    Compose(s0, s, s1, pid, None, 0, 0);
    var to := if reserved then Queued else Failed;
    FinishTransition(s0, s1, Transition(s1, pid, to).value, pid, to);
    PlainNotice(Transition(s1, pid, to).value, if reserved then QueuedNotice else FailedNotice, pid);
  }

  lemma FlagTouched(s: State, pid: nat, amlHit: bool)
    requires Framework(s) && pid < |s.payments|
    ensures var s' := Flagged(s, pid, amlHit);
      && Touches(s, s', pid) && DriftMoves(s, s', None, 0)
      && TallyOf(s', pid) == TallyOf(s, pid)
      && s'.payments[pid] == s.payments[pid].(facts := s'.payments[pid].facts)
  {
    if amlHit {
      RowSet(s, pid, Flagged(s, pid, amlHit).payments[pid]);
    } else {
      DriftSameTerms(s, s);
    }
  }

  /** Only a DRAFT payment can be submitted: REJECTED and FAILED pass the command's own check but not the table. */
  lemma SubmittableIsDraft(p: Payment, t: Tally)
    requires Fits(p, t) && CanTransition(p.status, Validating)
    ensures p.status == Draft
  {
  }

  /** Submission up to the approval decision: VALIDATING and, on a watchlist hit, flagged. */
  lemma Validated(s: State, pid: nat, amlHit: bool)
    requires Inv(s) && pid < |s.payments| && s.payments[pid].status == Draft
    ensures Transition(s, pid, Validating).Ok?
    ensures var s2 := Flagged(Transition(s, pid, Validating).value, pid, amlHit);
      && Touches(s, s2, pid) && DriftMoves(s, s2, None, 0)
      && s2.payments[pid] == s.payments[pid].(status := Validating, version := s.payments[pid].version + 1, facts := s2.payments[pid].facts)
      && TallyOf(s2, pid) == TallyOf(s, pid).(changes := TallyOf(s, pid).changes + 1)
  {
    var s1 := Transition(s, pid, Validating).value;
    Transitioned(s, pid, Validating);
    FlagTouched(s1, pid, amlHit);
    Compose(s, s1, Flagged(s1, pid, amlHit), pid, None, 0, 0);
  }

  /** Approval requests are outside the accounting of payments. */
  lemma RequestAdded(s: State, s2: State, pid: nat, requests: seq<ApprovalRef>)
    requires Touches(s, s2, pid) && DriftMoves(s, s2, None, 0)
    ensures Touches(s, s2.(requests := requests), pid) && DriftMoves(s, s2.(requests := requests), None, 0)
    ensures TallyOf(s2.(requests := requests), pid) == TallyOf(s2, pid)
  {
    var s3 := s2.(requests := requests);
    forall q: nat ensures TallyOf(s3, q) == TallyOf(s2, q) {
    }
  }

  /** A submission in progress: s2 is s with payment pid VALIDATING. */
  ghost predicate Submitting(s: State, s2: State, pid: nat) {
    && Inv(s) && Touches(s, s2, pid) && DriftMoves(s, s2, None, 0)
    && Fits(s.payments[pid], TallyOf(s, pid)) && s.payments[pid].status == Draft
    && s2.payments[pid] == s.payments[pid].(status := Validating, version := s.payments[pid].version + 1, facts := s2.payments[pid].facts)
    && TallyOf(s2, pid) == TallyOf(s, pid).(changes := TallyOf(s, pid).changes + 1)
  }

  lemma Pended(s: State, s2: State, s': State, pid: nat)
    requires Submitting(s, s2, pid) && Transition(s2, pid, PendingApproval) == Ok(s')
    ensures Inv(s')
  {
    FinishTransition(s, s2, s', pid, PendingApproval);
  }

  lemma ApprovalAsked(s: State, s2: State, s3: State, s4: State, pid: nat)
    requires Submitting(s, s2, pid) && s3 == s2.(requests := s3.requests) && Transition(s3, pid, PendingApproval) == Ok(s4)
    ensures Inv(Notify(s4, ApprovalRequested, pid))
  {
    RequestAdded(s, s2, pid, s3.requests);
    Pended(s, s3, s4, pid);
    PlainNotice(s4, ApprovalRequested, pid);
  }

  /** Notices other than success notices never matter. */
  lemma PlainNotice(s: State, kind: NoticeKind, ref: nat)
    requires Inv(s) && kind != Succeeded
    ensures Inv(Notify(s, kind, ref))
  {
    var s' := Notify(s, kind, ref);
    forall q: nat ensures TallyOf(s', q) == TallyOf(s, q) {
      NoticesAppended(s.outbox, Notice(kind, ref), q);
    }
    DriftSameTerms(s, s');
  }

  lemma DecisionKeepsInv(s: State, s2: State, tenant: nat, pid: nat, rules: seq<Policy.Rule>, amlHit: bool)
    requires Submitting(s, s2, pid)
    requires DecideSubmission(s2, tenant, pid, rules, amlHit).Ok?
    ensures Inv(DecideSubmission(s2, tenant, pid, rules, amlHit).value)
  {
    var ctx := ContextOf(s2.payments[pid]);
    var steps := Policy.Evaluate(Policy.SubmissionRules(rules, ctx, amlHit), ctx);
    if |steps| == 0 {
      Enqueued(s2, s, tenant, pid);
    } else {
      var s3 := s2.(requests := s2.requests + [ApprovalRef(pid, steps)]);
      ApprovalAsked(s, s2, s3, Transition(s3, pid, PendingApproval).value, pid);
    }
  }

  lemma SubmitKeepsInv(s: State, tenant: nat, pid: nat, rules: seq<Policy.Rule>, payeeApproved: bool, amlHit: bool)
    requires Inv(s) && SubmitPayment(s, tenant, pid, rules, payeeApproved, amlHit).Ok?
    ensures Inv(SubmitPayment(s, tenant, pid, rules, payeeApproved, amlHit).value)
  {
    assert Fits(s.payments[pid], TallyOf(s, pid));
    SubmittableIsDraft(s.payments[pid], TallyOf(s, pid));
    Validated(s, pid, amlHit);
    DecisionKeepsInv(s, Flagged(Transition(s, pid, Validating).value, pid, amlHit), tenant, pid, rules, amlHit);
  }

  lemma ApproveKeepsInv(s: State, tenant: nat, pid: nat)
    requires Inv(s) && ApproveQueued(s, tenant, pid).Ok?
    ensures Inv(ApproveQueued(s, tenant, pid).value)
  {
    Transitioned(s, pid, Approved);
    Enqueued(Transition(s, pid, Approved).value, s, tenant, pid);
  }

  lemma CancelKeepsInv(s: State, tenant: nat, pid: nat)
    requires Inv(s) && CancelPayment(s, tenant, pid).Ok?
    ensures Inv(CancelPayment(s, tenant, pid).value)
  {
    assert Fits(s.payments[pid], TallyOf(s, pid));
    DriftSameTerms(s, s);
    FinishTransition(s, s, Transition(s, pid, Cancelled).value, pid, Cancelled);
    PlainNotice(Transition(s, pid, Cancelled).value, CancelledNotice, pid);
  }

  /** Journals that belong to no payment change no tally. */
  lemma FundKeepsInv(s: State, tenant: nat, wallet: nat, amount: int)
    requires Inv(s) && FundWallet(s, tenant, wallet, amount).Ok?
    ensures Inv(FundWallet(s, tenant, wallet, amount).value)
  {
    ReceiveKeepsInv(s, tenant, wallet, FundingRef, amount);
    PlainNotice(ReceiveFunds(s, tenant, wallet, FundingRef, amount).value, Funded, wallet);
  }

  lemma ReceiveKeepsInv(s: State, tenant: nat, wallet: nat, ref: Reference, amount: int)
    requires Inv(s) && ReceiveFunds(s, tenant, wallet, ref, amount).Ok?
    ensures Inv(ReceiveFunds(s, tenant, wallet, ref, amount).value)
  {
    var b := Credit(s.books, tenant, wallet, ref, amount).value;
    CreditSound(s.books, tenant, wallet, ref, amount);
    CreditedKeepsInv(s, b, b.journals[|s.books.journals|], b.entries[|s.books.entries|]);
  }

  lemma CreditedKeepsInv(s: State, b: Books, j: Journal, e: WalletEntry)
    requires Inv(s) && Sound(b) && j.kind == FundingJournal && e.kind == Fund
    requires b.journals == s.books.journals + [j] && b.entries == s.books.entries + [e]
    requires b.reservations == s.books.reservations && |b.wallets| == |s.books.wallets|
    requires forall w | 0 <= w < |b.wallets| :: Gap(b, w) == Gap(s.books, w)
    ensures Inv(s.(books := b))
  {
    var s' := s.(books := b);
    forall q: nat ensures TallyOf(s', q) == TallyOf(s, q) {
      JournalsAppended(s.books.journals, j, PaymentJournal, q);
      JournalsAppended(s.books.journals, j, ReversalJournal, q);
      AppliesAppended(s.books.entries, e, q);
    }
    forall k | 0 <= k < |b.journals| ensures JournalFits(s'.payments, b.journals, k) {
      if k < |s.books.journals| {
        JournalsKeepFitting(s, j, k);
      }
    }
    forall w | 0 <= w < |b.wallets| ensures Drift(s', w) == 0 {
      assert Drift(s, w) == 0;
      SameExpectedGap(s, s', w);
    }
  }

  lemma SameExpectedGap(s: State, s': State, w: nat)
    requires s'.payments == s.payments
    requires forall q: nat :: TallyOf(s', q) == TallyOf(s, q)
    ensures ExpectedGap(s', w) == ExpectedGap(s, w)
  {
    forall i: nat | i < |s.payments|
      ensures GapTerm(s.payments, s.books.journals, w)(i) == GapTerm(s'.payments, s'.books.journals, w)(i)
    {
      assert TallyOf(s', i) == TallyOf(s, i);
    }
    SumAgree(|s.payments|, GapTerm(s.payments, s.books.journals, w), GapTerm(s'.payments, s'.books.journals, w));
  }

  /** Adding a payment that no other table knows yet. */
  ghost predicate Added(s: State, s': State, p: Payment) {
    && s' == s.(payments := s.payments + [p], history := s'.history, records := s'.records)
    && (s'.history == s.history || s'.history == s.history + [Change(|s.payments|, None, Draft)])
  }

  lemma AddedTally(s: State, s': State, p: Payment, q: nat)
    requires Added(s, s', p)
    ensures TallyOf(s', q) == TallyOf(s, q)
  {
    ChangesAppended(s.history, Change(|s.payments|, None, Draft), q);
  }

  lemma AddedFramework(s: State, s': State, p: Payment)
    requires Framework(s) && Added(s, s', p)
    ensures Framework(s')
  {
    forall k | 0 <= k < |s.books.journals| ensures JournalFits(s'.payments, s.books.journals, k) {
      assert JournalFits(s.payments, s.books.journals, k);
    }
    forall r | 0 <= r < |s.books.reservations| ensures ReservationFits(s'.payments, s.books.reservations[r]) {
      assert ReservationFits(s.payments, s.books.reservations[r]);
    }
  }

  lemma AddedDrift(s: State, s': State, p: Payment, w: nat)
    requires Added(s, s', p) && TallyOf(s, |s.payments|) == BLANK && w < |s.books.wallets|
    ensures Drift(s', w) == Drift(s, w)
  {
    SumAgree(|s.payments|, GapTerm(s.payments, s.books.journals, w), GapTerm(s'.payments, s.books.journals, w));
  }

  lemma AddedKeepsInv(s: State, s': State, p: Payment)
    requires Inv(s) && Added(s, s', p) && KeysFit(s')
    requires p.wallet.Some? ==> p.wallet.value < |s.books.wallets|
    requires Fits(p, BLANK)
    ensures Inv(s')
  {
    assert TallyOf(s, |s.payments|) == BLANK;
    forall q: nat ensures TallyOf(s', q) == TallyOf(s, q) {
      AddedTally(s, s', p, q);
    }
    AddedFramework(s, s', p);
    forall w | 0 <= w < |s.books.wallets| ensures Drift(s', w) == 0 {
      AddedDrift(s, s', p, w);
    }
  }

  lemma CreateKeepsInv(s: State, tenant: nat, wallet: nat, amount: int, fee: int, key: string, number: string, facts: Facts)
    requires Inv(s) && CreatePayment(s, tenant, wallet, amount, fee, key, number, facts).Ok?
    ensures Inv(CreatePayment(s, tenant, wallet, amount, fee, key, number, facts).value.0)
  {
    if (tenant, key) !in s.records {
      var s' := CreatePayment(s, tenant, wallet, amount, fee, key, number, facts).value.0;
      AddedKeepsInv(s, s', s'.payments[|s.payments|]);
    }
  }

  lemma MaterializeKeepsInv(s: State, tenant: nat, amount: int, key: string, number: string, facts: Facts)
    requires Inv(s) && MaterializeRow(s, tenant, amount, key, number, facts).Ok?
    ensures Inv(MaterializeRow(s, tenant, amount, key, number, facts).value)
  {
    var s' := MaterializeRow(s, tenant, amount, key, number, facts).value;
    AddedKeepsInv(s, s', s'.payments[|s.payments|]);
  }

  /** Tables outside the payment's accounting may change freely. */
  lemma UnrelatedKeepsInv(s: State, s': State)
    requires Inv(s)
    requires s' == s.(events := s'.events, orphans := s'.orphans, records := s'.records, books := s.books.(accounts := s'.books.accounts))
    requires forall k | k in s'.records :: k in s.records && s.records[k] == s'.records[k]
    ensures Inv(s')
  {
    forall q: nat ensures TallyOf(s', q) == TallyOf(s, q) {
    }
    forall w | 0 <= w < |s.books.wallets| ensures Drift(s', w) == 0 {
      assert Drift(s, w) == 0;
    }
  }

  /** An attempt's payment exists, and a payment that was never called at the provider has none. */
  lemma {:induction false} AttemptCounts(s: State, a: nat)
    requires Inv(s) && a < |s.attempts|
    ensures s.attempts[a].payment < |s.payments| && TallyOf(s, s.attempts[a].payment).attempts >= 1
  {
    var pid := s.attempts[a].payment;
    SumDominates(|s.attempts|, IsAttempt(s.attempts, pid));
    assert IsAttempt(s.attempts, pid)(a) == 1;
    assert pid >= |s.payments| ==> TallyOf(s, pid) == BLANK;
  }

  lemma ForcedKeepsInv(s: State, pid: nat)
    requires Inv(s) && pid < |s.payments| && TallyOf(s, pid).attempts >= 1
    ensures Inv(ForceReversed(s, pid))
  {
    assert Fits(s.payments[pid], TallyOf(s, pid));
    RowSet(s, pid, s.payments[pid].(status := Reversed));
    TouchedKeepsInv(s, ForceReversed(s, pid), pid);
  }

  lemma CallbackKeepsInv(s: State, s1: State, a: nat, ref: string, outcome: Outcome)
    requires Inv(s) && a < |s.attempts| && ApplyCallback(s, s.attempts[a].payment, ref, outcome) == Ok(s1)
    ensures Inv(s1)
  {
    AttemptCounts(s, a);
    match outcome {
      case ReportsSuccess => SuccessKeepsInv(s, s.attempts[a].payment, ref);
      case ReportsFailure => FailureKeepsInv(s, s.attempts[a].payment);
      case ReportsReversal => ForcedKeepsInv(s, s.attempts[a].payment);
      case ReportsUnknown =>
    }
  }

  lemma MarkedKeepsInv(s: State, e: nat, status: EventStatus, ref: string)
    requires Inv(s) && e < |s.events|
    ensures Inv(MarkEvent(s, e, status)) && Inv(RecordOrphan(MarkEvent(s, e, status), FromWebhook, ref))
  {
    UnrelatedKeepsInv(s, MarkEvent(s, e, status));
    UnrelatedKeepsInv(s, RecordOrphan(MarkEvent(s, e, status), FromWebhook, ref));
  }

  lemma ProcessKeepsInv(s: State, e: nat)
    requires Inv(s) && ProcessWebhookEvent(s, e).Ok?
    ensures Inv(ProcessWebhookEvent(s, e).value)
  {
    var ev := s.events[e];
    var found := FindAttempt(s.attempts, ev.ref);
    if ev.status != Processed && ev.ref != "" && found.Some? {
      var s1 := ApplyCallback(s, s.attempts[found.value].payment, ev.ref, ev.outcome).value;
      CallbackKeepsInv(s, s1, found.value, ev.ref, ev.outcome);
      if e < |s1.events| {
        MarkedKeepsInv(s1, e, Processed, "");
      }
    } else if ev.status != Processed {
      MarkedKeepsInv(s, e, if ev.ref == "" then EventFailed else Unmatched, ev.ref);
    }
  }

  lemma PolledReversal(s: State, pid: nat)
    requires Inv(s) && Transition(s, pid, Reversed).Ok?
    ensures Inv(Transition(s, pid, Reversed).value)
  {
    assert Fits(s.payments[pid], TallyOf(s, pid));
    if s.payments[pid].status != Reversed {
      DriftSameTerms(s, s);
      FinishTransition(s, s, Transition(s, pid, Reversed).value, pid, Reversed);
    }
  }

  lemma PollKeepsInv(s: State, pid: nat, ref: string, outcome: Outcome)
    requires Inv(s) && StatusPoll(s, pid, ref, outcome).Ok?
    ensures Inv(StatusPoll(s, pid, ref, outcome).value)
  {
    match outcome {
      case ReportsSuccess => SuccessKeepsInv(s, pid, ref);
      case ReportsFailure => FailureKeepsInv(s, pid);
      case ReportsReversal => PolledReversal(s, pid);
      case ReportsUnknown =>
    }
  }

  /** A processed reversal: row, status and compensating journal together. */
  lemma ReversalSettled(s: State, pid: nat)
    requires Inv(s) && pid < |s.payments| && s.payments[pid].status == Success
    requires Transition(AddReversal(s, pid, true), pid, Reversed).Ok?
    requires var p := s.payments[pid];
      PostReversal(Transition(AddReversal(s, pid, true), pid, Reversed).value.books, p.tenant, pid, p.wallet, p.amount).Ok?
    ensures var p := s.payments[pid];
      var s1 := Transition(AddReversal(s, pid, true), pid, Reversed).value;
      Inv(s1.(books := PostReversal(s1.books, p.tenant, pid, p.wallet, p.amount).value))
  {
    var p := s.payments[pid];
    assert Fits(p, TallyOf(s, pid));
    var s0 := AddReversal(s, pid, true);
    ReversalAdded(s, pid, true);
    var s1 := Transition(s0, pid, Reversed).value;
    Transitioned(s0, pid, Reversed);
    Compose(s, s0, s1, pid, None, 0, 0);
    var s2 := s1.(books := PostReversal(s1.books, p.tenant, pid, p.wallet, p.amount).value);
    ReversalPosted(s1, pid);
    Compose(s, s1, s2, pid, None, 0, 0);
    TouchedKeepsInv(s, s2, pid);
  }

  /** A reversal that commits is a synchronous success of a SUCCESS payment. */
  lemma ReverseKeepsInv(s: State, tenant: nat, pid: nat, answer: ProviderAnswer)
    requires Inv(s) && RequestReversal(s, tenant, pid, answer).Ok?
    ensures Inv(RequestReversal(s, tenant, pid, answer).value)
    ensures RequestReversal(s, tenant, pid, answer).value != s ==>
              s.payments[pid].status == Success && answer.Answered? && answer.status == PSuccess
  {
    var p := s.payments[pid];
    assert Fits(p, TallyOf(s, pid));
    assert p.status == Success;
    if !ReversalProcessed(s.reversals, pid) {
      ReversalSettled(s, pid);
      var s1 := Transition(AddReversal(s, pid, true), pid, Reversed).value;
      PlainNotice(s1.(books := PostReversal(s1.books, tenant, pid, p.wallet, p.amount).value), ReversedNotice, pid);
    }
  }

  /** Commands that manage wallets, keys and events rather than a payment's life. */
  predicate IsUpkeep(c: Command) {
    c.DoEnsureChart? || c.DoCreate? || c.DoForgetKey? || c.DoMaterialize? || c.DoFund? || c.DoReceive? || c.DoIngest? || c.DoAcknowledge? || c.DoUnmatched?
  }

  lemma UpkeepKeepsInv(s: State, c: Command)
    requires Inv(s) && IsUpkeep(c) && Perform(s, c).Ok?
    ensures Inv(Perform(s, c).value)
  {
    match c {
      case DoCreate(t, w, amount, fee, key, number, facts) => CreateKeepsInv(s, t, w, amount, fee, key, number, facts);
      case DoMaterialize(t, amount, key, number, facts) => MaterializeKeepsInv(s, t, amount, key, number, facts);
      case DoFund(t, w, amount) => FundKeepsInv(s, t, w, amount);
      case DoReceive(t, w, ref, amount) => ReceiveKeepsInv(s, t, w, ref, amount);
      case DoEnsureChart(t) => UnrelatedKeepsInv(s, EnsureSystemChart(s, t));
      case DoForgetKey(t, key) => UnrelatedKeepsInv(s, s.(records := s.records - {(t, key)}));
      case DoIngest(id, ref, outcome) => UnrelatedKeepsInv(s, IngestWebhook(s, id, ref, outcome));
      case DoAcknowledge(e) => UnrelatedKeepsInv(s, AcknowledgeEvent(s, e).value);
      case DoUnmatched(transaction) => UnrelatedKeepsInv(s, RecordOrphan(s, FromPaybill, transaction));
    }
  }

  lemma LifecycleKeepsInv(s: State, c: Command)
    requires Inv(s) && !IsUpkeep(c) && Perform(s, c).Ok?
    ensures Inv(Perform(s, c).value)
  {
    match c {
      case DoSubmit(t, pid, rules, payeeApproved, amlHit) => SubmitKeepsInv(s, t, pid, rules, payeeApproved, amlHit);
      case DoApprove(t, pid) => ApproveKeepsInv(s, t, pid);
      case DoCancel(t, pid) => CancelKeepsInv(s, t, pid);
      case DoExecute(t, pid, answer) => ExecuteKeepsInv(s, t, pid, answer);
      case DoProcessEvent(e) => ProcessKeepsInv(s, e);
      case DoStatusPoll(pid, ref, outcome) => PollKeepsInv(s, pid, ref, outcome);
      case DoReverse(t, pid, answer) => ReverseKeepsInv(s, t, pid, answer);
    }
  }

  /** Every command, committed or thrown, keeps the invariant. */
  lemma NextKeepsInv(s: State, c: Command)
    requires Inv(s)
    ensures Inv(Next(s, c))
  {
    if Perform(s, c).Ok? {
      if IsUpkeep(c) {
        UpkeepKeepsInv(s, c);
      } else {
        LifecycleKeepsInv(s, c);
      }
    }
  }
}
