/** Late and duplicate callbacks, reversals, idempotency keys, and the watchlist gate. */
module PaymentGuarantees {
  import opened Prelude
  import opened Sums
  import opened Ledger
  import opened Payments
  import opened PaymentInvariant
  import opened PaymentSteps
  import opened PaymentTheorems
  import Policy

  // ---------------------------------------------------- late and duplicate reports

  lemma LateFailureThrows(s: State, pid: nat)
    requires pid < |s.payments| && s.payments[pid].status == Success
    ensures ApplyProviderFailure(s, pid).Err?
  {
    if ConsumeHold(s, pid, false).Ok? {
      assert ConsumeHold(s, pid, false).value.payments == s.payments;
    }
  }

  /** Event e is still to be processed and belongs to payment pid. */
  predicate Reports(s: State, e: nat, pid: nat) {
    && e < |s.events| && s.events[e].status != Processed && s.events[e].ref != ""
    && FindAttempt(s.attempts, s.events[e].ref).Some?
    && s.attempts[FindAttempt(s.attempts, s.events[e].ref).value].payment == pid
  }

  /**
   Once a payment is SUCCESS, no execution job, poll or event about it changes anything but the
   event's own mark: duplicates are no-ops, and a late failure throws. Only a REVERSED report gets through.
   */
  lemma SuccessIsInert(s: State, tenant: nat, pid: nat, ref: string, answer: ProviderAnswer, e: nat)
    requires pid < |s.payments| && s.payments[pid].status == Success
    ensures Next(s, DoExecute(tenant, pid, answer)) == s
    ensures ApplyProviderSuccess(s, pid, ref) == Ok(s)
    ensures ApplyProviderFailure(s, pid).Err?
    ensures Next(s, DoStatusPoll(pid, ref, ReportsFailure)) == s
    ensures Reports(s, e, pid) ==>
      var s' := Next(s, DoProcessEvent(e));
      match s.events[e].outcome
      case ReportsSuccess => s' == MarkEvent(s, e, Processed)
      case ReportsUnknown => s' == MarkEvent(s, e, Processed)
      case ReportsFailure => s' == s
      case ReportsReversal => s'.payments == s.payments[pid := s.payments[pid].(status := Status.Reversed)] && s'.books == s.books
  {
    LateFailureThrows(s, pid);
  }

  lemma StepKeepsOrphans(s: State, c: Command)
    ensures Next(s, c).orphans == s.orphans
         || exists orphan :: orphan !in s.orphans && Next(s, c).orphans == s.orphans + [orphan]
  {
    if c.DoProcessEvent? && Perform(s, c).Ok? {
      var orphan := Orphan(FromWebhook, s.events[c.event].ref);
      assert Next(s, c).orphans == s.orphans || Next(s, c).orphans == s.orphans + [orphan];
    }
  }

  /** However often events or paybill confirmations with an unknown reference are processed, each is put up for reconciliation once per source. */
  lemma {:induction false} OrphanedOnce(wallets: seq<Wallet>, cs: seq<Command>, i: nat, j: nat)
    requires i < j < |Run(Initial(wallets), cs).orphans|
    ensures Run(Initial(wallets), cs).orphans[i] != Run(Initial(wallets), cs).orphans[j]
  {
    if |cs| > 0 {
      var before := Run(Initial(wallets), cs[..|cs| - 1]);
      StepKeepsOrphans(before, cs[|cs| - 1]);
      if j < |before.orphans| {
        OrphanedOnce(wallets, cs[..|cs| - 1], i, j);
      } else {
        assert before.orphans[i] in before.orphans;
      }
    }
  }

  // ------------------------------------------------------------------- reversals

  /** A provider reference means the success journal was posted; so the monitor's query for stuck payments never yields one it acts on. */
  lemma ReferenceMeansSuccess(s: State, pid: nat)
    requires Reachable(s) && pid < |s.payments| && s.payments[pid].providerRef != ""
    ensures s.payments[pid].status in {Success, Reversed}
    ensures Journals(s.books.journals, PaymentJournal, pid) == 1
  {
    ReachableInv(s);
    assert Fits(s.payments[pid], TallyOf(s, pid));
  }

  /** So no pending payment ever has a reference, and a pass of the monitor polls nobody. */
  lemma MonitorHasNothingToPoll(s: State)
    requires Reachable(s)
    ensures PendingUnreferenced(s.payments)
  {
    forall i | 0 <= i < |s.payments| && s.payments[i].status == ProviderPending ensures s.payments[i].providerRef == "" {
      ReachableInv(s);
      assert Fits(s.payments[i], TallyOf(s, i));
    }
  }

  /** Without the provider's confirmation a SUCCESS payment's reversal throws: the table has no edge back to PROVIDER_PENDING. */
  lemma UnconfirmedReversalThrows(s: State, tenant: nat, pid: nat, answer: ProviderAnswer)
    requires pid < |s.payments| && (s.payments[pid].status == ProviderPending ==> s.payments[pid].providerRef == "")
    requires !(answer.Answered? && answer.status == PSuccess)
    ensures RequestReversal(s, tenant, pid, answer).Err? || RequestReversal(s, tenant, pid, answer) == Ok(s)
  {
  }

  /** A reversal that the provider does not confirm at once commits nothing at all. */
  lemma UnconfirmedReversalCommitsNothing(s: State, tenant: nat, pid: nat, answer: ProviderAnswer)
    requires Reachable(s)
    requires !(answer.Answered? && answer.status == PSuccess)
    ensures Next(s, DoReverse(tenant, pid, answer)) == s
  {
    if pid < |s.payments| {
      if s.payments[pid].providerRef != "" {
        ReferenceMeansSuccess(s, pid);
      }
      UnconfirmedReversalThrows(s, tenant, pid, answer);
    }
  }

  /** What the payment and reversal journals of one payment do to an account. */
  function NetForPayment(js: seq<Journal>, pid: nat, a: Account): nat -> int {
    (i: nat) => if i < |js| && js[i].kind != FundingJournal && js[i].ref == pid then Net(js[i].entries, a) else 0
  }

  lemma NetOfOne(s: State, pid: nat, a: Account, k: nat)
    requires Framework(s) && pid < |s.payments| && k < |s.books.journals|
    ensures var js, p := s.books.journals, s.payments[pid];
      NetForPayment(js, pid, a)(k)
      == (if IsJournal(js, PaymentJournal, pid)(k) == 1 then Net(SuccessEntries(p.tenant, p.wallet, p.amount, p.fee), a) else 0)
       + (if IsJournal(js, ReversalJournal, pid)(k) == 1 then Net(ReversalEntries(p.tenant, p.wallet, p.amount), a) else 0)
  {
    assert JournalFits(s.payments, s.books.journals, k);
  }

  lemma {:induction false} NetsAddUp(s: State, pid: nat, a: Account, n: nat)
    requires Framework(s) && pid < |s.payments| && n <= |s.books.journals|
    ensures var js, p := s.books.journals, s.payments[pid];
      Sum(n, NetForPayment(js, pid, a))
      == Sum(n, IsJournal(js, PaymentJournal, pid)) * Net(SuccessEntries(p.tenant, p.wallet, p.amount, p.fee), a)
       + Sum(n, IsJournal(js, ReversalJournal, pid)) * Net(ReversalEntries(p.tenant, p.wallet, p.amount), a)
  {
    if n > 0 {
      NetsAddUp(s, pid, a, n - 1);
      NetOfOne(s, pid, a, n - 1);
      var js, p := s.books.journals, s.payments[pid];
      var x, y := Net(SuccessEntries(p.tenant, p.wallet, p.amount, p.fee), a), Net(ReversalEntries(p.tenant, p.wallet, p.amount), a);
      Distribute(Sum(n - 1, IsJournal(js, PaymentJournal, pid)), IsJournal(js, PaymentJournal, pid)(n - 1), x);
      Distribute(Sum(n - 1, IsJournal(js, ReversalJournal, pid)), IsJournal(js, ReversalJournal, pid)(n - 1), y);
    }
  }

  lemma Distribute(a: int, b: int, x: int)
    requires b == 0 || b == 1
    ensures (a + b) * x == a * x + b * x
  {
  }

  /**
   A reversed payment's journals: one success journal, then one reversal journal
   for the same principal. Together they leave the funding account untouched,
   the fee in clearing and the fee as revenue.
   */
  lemma ReversalAccounting(s: State, pid: nat, a: Account)
    requires Reachable(s) && pid < |s.payments| && Journals(s.books.journals, ReversalJournal, pid) > 0
    ensures Journals(s.books.journals, PaymentJournal, pid) == Journals(s.books.journals, ReversalJournal, pid) == 1
    ensures s.payments[pid].status == Reversed
    ensures var p := s.payments[pid];
      Sum(|s.books.journals|, NetForPayment(s.books.journals, pid, a))
      == (if a == Clearing(p.tenant) then p.fee else 0) - (if a == FeeRevenue(p.tenant) then p.fee else 0)
  {
    ReachableInv(s);
    assert Fits(s.payments[pid], TallyOf(s, pid));
    ReversedNet(s, pid, a);
  }

  lemma ReversedNet(s: State, pid: nat, a: Account)
    requires Framework(s) && pid < |s.payments|
    requires Journals(s.books.journals, PaymentJournal, pid) == Journals(s.books.journals, ReversalJournal, pid) == 1
    ensures var p := s.payments[pid];
      Sum(|s.books.journals|, NetForPayment(s.books.journals, pid, a))
      == (if a == Clearing(p.tenant) then p.fee else 0) - (if a == FeeRevenue(p.tenant) then p.fee else 0)
  {
    var p := s.payments[pid];
    NetsAddUp(s, pid, a, |s.books.journals|);
    FeeOfPosted(s, pid);
    SuccessNet(p.tenant, p.wallet, p.amount, p.fee, a);
    ReversalNet(p.tenant, p.wallet, p.amount, a);
  }

  /** Some journal realises a positive count. */
  lemma {:induction false} Witness(js: seq<Journal>, kind: JournalKind, pid: nat, n: nat) returns (k: nat)
    requires n <= |js| && Sum(n, IsJournal(js, kind, pid)) > 0
    ensures k < n && js[k].kind == kind && js[k].ref == pid
  {
    if js[n - 1].kind == kind && js[n - 1].ref == pid {
      k := n - 1;
    } else {
      k := Witness(js, kind, pid, n - 1);
    }
  }

  lemma FeeOfPosted(s: State, pid: nat)
    requires Framework(s) && pid < |s.payments| && Journals(s.books.journals, PaymentJournal, pid) > 0
    ensures s.payments[pid].fee >= 0
  {
    var k := Witness(s.books.journals, PaymentJournal, pid, |s.books.journals|);
    assert JournalFits(s.payments, s.books.journals, k);
  }

  /** Every reversal journal comes after exactly one success journal of the same payment. */
  lemma ReversalFollowsSuccess(s: State, k: nat)
    requires Reachable(s) && k < |s.books.journals| && s.books.journals[k].kind == ReversalJournal
    ensures Journals(s.books.journals[..k], PaymentJournal, s.books.journals[k].ref) == 1
  {
    ReachableInv(s);
    assert JournalFits(s.payments, s.books.journals, k);
  }

  // ------------------------------------------------------------------ idempotency

  /** One payment per idempotency key in a tenant, even after its record was garbage-collected. */
  lemma OnePaymentPerKey(s: State, i: nat, j: nat)
    requires Reachable(s) && i < |s.payments| && j < |s.payments|
    requires s.payments[i].tenant == s.payments[j].tenant && s.payments[i].key == s.payments[j].key
    ensures i == j
  {
    ReachableInv(s);
    assert KeysFit(s);
  }

  lemma StepKeepsRecord(s: State, c: Command, k: (nat, string))
    requires k in s.records && c != DoForgetKey(k.0, k.1)
    ensures k in Next(s, c).records && Next(s, c).records[k] == s.records[k]
  {
  }

  lemma {:induction false} RunKeepsRecord(s: State, cs: seq<Command>, k: (nat, string))
    requires k in s.records && forall i | 0 <= i < |cs| :: cs[i] != DoForgetKey(k.0, k.1)
    ensures k in Run(s, cs).records && Run(s, cs).records[k] == s.records[k]
  {
    if |cs| > 0 {
      RunKeepsRecord(s, cs[..|cs| - 1], k);
      StepKeepsRecord(Run(s, cs[..|cs| - 1]), cs[|cs| - 1], k);
    }
  }

  /** However much happens in between, creating again with the same key returns the first payment and changes nothing. */
  lemma CreateReplays(s: State, cs: seq<Command>, tenant: nat, key: string,
                      wallet: nat, amount: int, fee: int, number: string, facts: Facts,
                      wallet': nat, amount': int, fee': int, number': string, facts': Facts)
    requires amount' > 0 && CreatePayment(s, tenant, wallet, amount, fee, key, number, facts).Ok?
    requires forall i | 0 <= i < |cs| :: cs[i] != DoForgetKey(tenant, key)
    ensures var (s1, first) := CreatePayment(s, tenant, wallet, amount, fee, key, number, facts).value;
      var later := Run(s1, cs);
      CreatePayment(later, tenant, wallet', amount', fee', key, number', facts') == Ok((later, Created(first.payment, true)))
  {
    RunKeepsRecord(CreatePayment(s, tenant, wallet, amount, fee, key, number, facts).value.0, cs, (tenant, key));
  }

  // ------------------------------------------------------------- gates and dead ends

  /** A submission with a watchlist hit that commits is waiting for approval, with a request that demands at least one step. */
  lemma WatchlistHitIsNeverQueued(s: State, tenant: nat, pid: nat, rules: seq<Policy.Rule>, payeeApproved: bool)
    requires SubmitPayment(s, tenant, pid, rules, payeeApproved, true).Ok?
    ensures var s' := SubmitPayment(s, tenant, pid, rules, payeeApproved, true).value;
      && pid < |s'.payments| && s'.payments[pid].status == PendingApproval
      && |s'.requests| == |s.requests| + 1
      && s'.requests[|s.requests|].payment == pid
      && |s'.requests[|s.requests|].steps| >= 1
      && s'.books == s.books
  {
    var s2 := Flagged(Transition(s, pid, Validating).value, pid, true);
    var ctx := ContextOf(s2.payments[pid]);
    assert ctx.riskFlags[|ctx.riskFlags| - 1] == Policy.AML_FLAG;
    Policy.WatchlistHitNeedsApproval(rules, ctx);
  }

  /** Resubmitting a REJECTED or FAILED payment always throws: the command lets it through but the table does not. */
  lemma ResubmissionThrows(s: State, tenant: nat, pid: nat, rules: seq<Policy.Rule>, payeeApproved: bool, amlHit: bool)
    requires pid < |s.payments| && s.payments[pid].status in {Rejected, Failed}
    ensures SubmitPayment(s, tenant, pid, rules, payeeApproved, amlHit).Err?
  {
    assert !CanTransition(s.payments[pid].status, Validating);
    assert Transition(s, pid, Validating) == Err("ILLEGAL_TRANSITION");
  }
}
