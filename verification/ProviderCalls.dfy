/** Execution jobs that reach the provider: which of them are rolled back after the call, and how many calls a run makes. */
module ProviderCalls {
  import opened Prelude
  import opened Sums
  import opened Ledger
  import opened Payments
  import opened PaymentInvariant
  import opened PaymentSteps
  import opened PaymentTheorems

  /** The tables when the provider has answered a job for a QUEUED payment. */
  function Called(s: State, pid: nat, answer: ProviderAnswer): (s2: State)
    requires pid < |s.payments| && s.payments[pid].status == Queued
    ensures s2.books == s.books && |s2.payments| == |s.payments| && s2.payments[pid] == s.payments[pid].(status := Processing, version := s.payments[pid].version + 1)
    ensures s2.attempts == s.attempts + [Attempt(pid, ReferenceOf(s.payments[pid], answer))]
  {
    RecordAttempt(Transition(s, pid, Processing).value, pid, ReferenceOf(s.payments[pid], answer))
  }

  lemma ExecuteIs(s: State, tenant: nat, pid: nat, answer: ProviderAnswer)
    requires Has(s, tenant, pid) && s.payments[pid].status == Queued
    ensures var s2, ref := Called(s, pid, answer), ReferenceOf(s.payments[pid], answer);
      ExecutePayment(s, tenant, pid, answer) ==
        if |ref| > REFERENCE_WIDTH then Err("22001")
        else if answer.Threw? || answer.status in {PPending, PUnknown} then Transition(s2, pid, ProviderPending)
        else if answer.status == PSuccess then BookSuccess(s2, pid, ref)
        else if answer.status == PFailed then BookFailure(s2, pid)
        else Err("ILLEGAL_TRANSITION")
  {
    AfterCallIs(Called(s, pid, answer), pid, ReferenceOf(s.payments[pid], answer), answer);
  }

  // -------------------------------------------------------------- when booking throws

  /** The reservation of a payment can always be settled. */
  lemma HoldSettles(s: State, s0: State, pid: nat, apply: bool)
    requires Inv(s0) && s.books == s0.books
    ensures ConsumeHold(s, pid, apply).Ok?
    ensures var s1 := ConsumeHold(s, pid, apply).value;
      && s1.payments == s.payments && s1.books.accounts == s.books.accounts
      && |s1.books.wallets| == |s.books.wallets|
      && (forall w | 0 <= w < |s.books.wallets| :: s1.books.wallets[w].tenant == s.books.wallets[w].tenant)
    ensures HoldStatus(s.books.reservations, pid) == Some(Held) ==>
      HoldStatus(ConsumeHold(s, pid, apply).value.books.reservations, pid) == Some(if apply then Applied else Released)
  {
    var found := FindReservation(s.books.reservations, pid);
    if found.Some? {
      var r := s.books.reservations[found.value];
      assert ReservationFits(s0.payments, r);
      FindUpdated(s.books.reservations, found.value, r.(status := if apply then Applied else Released), pid);
    }
  }

  lemma FailureBooks(s: State, pid: nat)
    requires pid < |s.payments| && s.payments[pid].status in {Processing, ProviderPending} && ConsumeHold(s, pid, false).Ok?
    ensures BookFailure(s, pid).Ok? && BookFailure(s, pid).value.books == ConsumeHold(s, pid, false).value.books
  {
    var s1 := ConsumeHold(s, pid, false).value;
    assert s1.payments == s.payments;
    assert CanTransition(s1.payments[pid].status, Failed);
  }

  /** The accounts a success journal needs exist and its amounts make a journal. */
  predicate CanBook(b: Books, tenant: nat, wallet: Option<nat>, amount: int, fee: int) {
    && Clearing(tenant) in b.accounts
    && (match wallet
        case Some(w) => WalletAccount(w) in b.accounts || (w < |b.wallets| && b.wallets[w].tenant == tenant)
        case None => FloatLiability(tenant) in b.accounts)
    && (fee > 0 ==> FeeRevenue(tenant) in b.accounts)
    && amount > 0 && fee >= 0
  }

  lemma PostsIff(b: Books, tenant: nat, pid: nat, wallet: Option<nat>, amount: int, fee: int)
    ensures PostPaymentSuccess(b, tenant, pid, wallet, amount, fee).Ok? <==> CanBook(b, tenant, wallet, amount, fee)
  {
    SuccessNeedsFee(tenant, wallet, amount, fee);
    PureIff(tenant, wallet, amount, fee);
  }

  lemma PureIff(tenant: nat, wallet: Option<nat>, amount: int, fee: int)
    ensures PureEntries(SuccessEntries(tenant, wallet, amount, fee)) <==> amount > 0 && amount + fee > 0
  {
    var es := SuccessEntries(tenant, wallet, amount, fee);
    assert es[0] == JournalEntry(Clearing(tenant), amount + fee, 0) && es[1] == JournalEntry(FundingAccount(tenant, wallet), 0, amount);
    if fee > 0 {
      assert es[2] == JournalEntry(FeeRevenue(tenant), 0, fee);
    }
  }

  lemma SuccessBooksIff(s: State, s0: State, pid: nat, ref: string)
    requires Inv(s0) && s.books == s0.books && pid < |s.payments| && s.payments[pid].status in {Processing, ProviderPending}
    ensures var p := s.payments[pid];
      BookSuccess(s, pid, ref).Ok? <==> CanBook(s.books, p.tenant, p.wallet, p.amount, p.fee)
  {
    HoldSettles(s, s0, pid, true);
    var s1, p := ConsumeHold(s, pid, true).value, s.payments[pid];
    assert CanTransition(s.payments[pid].status, Success);
    var s2 := MarkSuccess(s1, pid, ref).value;
    assert s2.books == s1.books && SameTerms(s2.payments[pid], p);
    PostsIff(s2.books, p.tenant, pid, p.wallet, p.amount, p.fee);
  }

  /** The answers whose booking throws after the provider has been called. */
  predicate Throws(s: State, pid: nat, answer: ProviderAnswer)
    requires pid < |s.payments|
  {
    var p := s.payments[pid];
    || |ReferenceOf(p, answer)| > REFERENCE_WIDTH
    || (answer.Answered? && (answer.status == PReversed || (answer.status == PSuccess && !CanBook(s.books, p.tenant, p.wallet, p.amount, p.fee))))
  }

  lemma FailedAnswerBooks(s: State, pid: nat, answer: ProviderAnswer)
    requires Reachable(s) && pid < |s.payments| && s.payments[pid].status == Queued
    ensures BookFailure(Called(s, pid, answer), pid).Ok?
  {
    ReachableInv(s);
    HoldSettles(Called(s, pid, answer), s, pid, false);
    FailureBooks(Called(s, pid, answer), pid);
  }

  lemma SuccessAnswerBooksIff(s: State, pid: nat, answer: ProviderAnswer)
    requires Reachable(s) && pid < |s.payments| && s.payments[pid].status == Queued
    ensures var p := s.payments[pid];
      BookSuccess(Called(s, pid, answer), pid, ReferenceOf(p, answer)).Ok? <==> CanBook(s.books, p.tenant, p.wallet, p.amount, p.fee)
  {
    ReachableInv(s);
    SuccessBooksIff(Called(s, pid, answer), s, pid, ReferenceOf(s.payments[pid], answer));
  }

  lemma AttemptRecorded(s: State, tenant: nat, pid: nat, answer: ProviderAnswer)
    requires Has(s, tenant, pid) && s.payments[pid].status == Queued && ExecutePayment(s, tenant, pid, answer).Ok?
    ensures ExecutePayment(s, tenant, pid, answer).value.attempts == s.attempts + [Attempt(pid, ReferenceOf(s.payments[pid], answer))]
  {
    ExecuteIs(s, tenant, pid, answer);
  }

  /**
   When a job that called the provider is rolled back: exactly on a reference that the attempts table
   cannot hold, on an answer of REVERSED, and on a SUCCESS whose journal cannot be posted. The payment is then still QUEUED, so the next job calls again.
   */
  lemma RolledBackIff(s: State, tenant: nat, pid: nat, answer: ProviderAnswer)
    requires Reachable(s) && Has(s, tenant, pid) && s.payments[pid].status == Queued
    ensures ExecutePayment(s, tenant, pid, answer).Err? <==> Throws(s, pid, answer)
    ensures ExecutePayment(s, tenant, pid, answer).Ok? ==>
      ExecutePayment(s, tenant, pid, answer).value.attempts == s.attempts + [Attempt(pid, ReferenceOf(s.payments[pid], answer))]
  {
    ExecuteIs(s, tenant, pid, answer);
    FailedAnswerBooks(s, pid, answer);
    SuccessAnswerBooksIff(s, pid, answer);
    if ExecutePayment(s, tenant, pid, answer).Ok? {
      AttemptRecorded(s, tenant, pid, answer);
    }
  }

  // ------------------------------------------------------------------- whole runs

  /** The command is a job that calls the provider for the payment. */
  predicate CallsProvider(s: State, c: Command, pid: nat) {
    c.DoExecute? && c.payment == pid && Has(s, c.tenant, pid) && s.payments[pid].status == Queued
  }

  /** Provider calls a run makes for a payment. */
  function Calls(s: State, cs: seq<Command>, pid: nat): nat {
    if |cs| == 0 then 0
    else
      var before, c := Run(s, cs[..|cs| - 1]), cs[|cs| - 1];
      Calls(s, cs[..|cs| - 1], pid) + if CallsProvider(before, c, pid) then 1 else 0
  }

  /** Those among them whose answer could not be booked. */
  function Rollbacks(s: State, cs: seq<Command>, pid: nat): nat {
    if |cs| == 0 then 0
    else
      var before, c := Run(s, cs[..|cs| - 1]), cs[|cs| - 1];
      Rollbacks(s, cs[..|cs| - 1], pid) + if CallsProvider(before, c, pid) && Throws(before, pid, c.answer) then 1 else 0
  }

  lemma OnlyJobsAttempt(s: State, c: Command)
    requires !c.DoExecute?
    ensures Next(s, c).attempts == s.attempts
  {
  }

  lemma StepAttempts(s: State, c: Command, pid: nat)
    requires Reachable(s)
    ensures AttemptCount(Next(s, c).attempts, pid)
         == AttemptCount(s.attempts, pid) + if CallsProvider(s, c, pid) && !Throws(s, pid, c.answer) then 1 else 0
  {
    if c.DoExecute? && Has(s, c.tenant, c.payment) && s.payments[c.payment].status == Queued {
      RolledBackIff(s, c.tenant, c.payment, c.answer);
      AttemptsAppended(s.attempts, Attempt(c.payment, ReferenceOf(s.payments[c.payment], c.answer)), pid);
    } else if !c.DoExecute? {
      OnlyJobsAttempt(s, c);
    }
  }

  /** Over any run the provider is called for a payment once per recorded attempt, of which there is at most one, and once per answer that could not be booked. */
  lemma {:induction false} CallsAccounted(wallets: seq<Wallet>, cs: seq<Command>, pid: nat)
    requires Unfunded(wallets)
    ensures Calls(Initial(wallets), cs, pid) == AttemptCount(Run(Initial(wallets), cs).attempts, pid) + Rollbacks(Initial(wallets), cs, pid)
    ensures Calls(Initial(wallets), cs, pid) <= 1 + Rollbacks(Initial(wallets), cs, pid)
  {
    if |cs| > 0 {
      CallsAccounted(wallets, cs[..|cs| - 1], pid);
      StepAttempts(Run(Initial(wallets), cs[..|cs| - 1]), cs[|cs| - 1], pid);
    }
    AtMostOneAttempt(Run(Initial(wallets), cs), pid);
  }

  lemma AtMostOneAttempt(s: State, pid: nat)
    requires Reachable(s)
    ensures AttemptCount(s.attempts, pid) <= 1
  {
    if pid < |s.payments| {
      OnceOnly(s, pid);
    } else {
      ReachableInv(s);
      assert TallyOf(s, pid) == BLANK;
    }
  }

  /** There is no bound on calls as such: every job of a QUEUED payment that is answered REVERSED calls again. */
  lemma {:induction false} ReversedAnswersRepeat(s: State, tenant: nat, pid: nat, cs: seq<Command>)
    requires Reachable(s) && Has(s, tenant, pid) && s.payments[pid].status == Queued
    requires forall i | 0 <= i < |cs| :: cs[i] == DoExecute(tenant, pid, Answered(PReversed, None))
    ensures Run(s, cs) == s && Calls(s, cs, pid) == |cs|
  {
    if |cs| > 0 {
      ReversedAnswersRepeat(s, tenant, pid, cs[..|cs| - 1]);
      RolledBackIff(s, tenant, pid, Answered(PReversed, None));
    }
  }
}
