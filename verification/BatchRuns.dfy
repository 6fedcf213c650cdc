/**
 A batch beside the payment machine: the driver's rows become payments of that machine, and the
 events those payments emit come back to the rows, late, repeated and in any order
 (packages/payments-core/src/bulk.ts and outbox-relay.ts).
 */
module BatchRuns {
  import opened Prelude
  import opened Sums
  import opened Ledger
  import opened Payments
  import opened PaymentInvariant
  import opened PaymentTheorems
  import Batches
  import Policy
  import PaymentSteps
  import ProviderCalls

  /** ids holds, for each payment of the batch, its row in the payment table. */
  datatype System = System(pay: State, batch: Batches.State, tenant: nat, ids: seq<nat>)

  /** The idempotency keys of a tenant's payments. */
  function KeysOf(ps: seq<Payment>, tenant: nat): set<string> {
    set p | p in ps && p.tenant == tenant :: p.key
  }

  function Start(pay: State, tenant: nat, id: string, rows: seq<Batches.RawRow>): System {
    System(pay, Batches.State(id, Batches.Stored(rows), [], KeysOf(pay.payments, tenant)), tenant, [])
  }

  datatype Step =
    | Pay(command: Command)
    | DriveRow(row: nat, outcome: Batches.Outcome, number: string, facts: Facts)
    | Deliver(notice: nat)

  function FindId(ids: seq<nat>, pid: nat): (r: Option<nat>)
    ensures r.Some? ==> r.value < |ids| && ids[r.value] == pid
  {
    if |ids| == 0 then None
    else if ids[|ids| - 1] == pid then Some(|ids| - 1)
    else FindId(ids[..|ids| - 1], pid)
  }

  /** What an event says about the row of its payment. */
  function Verdict(kind: NoticeKind): Option<Batches.RowStatus> {
    match kind
    case Succeeded => Some(Batches.RowStatus.Success)
    case FailedNotice => Some(Batches.RowStatus.Failed)
    case ReversedNotice => Some(Batches.RowStatus.Failed)
    case _ => None
  }

  /** The row's transaction inserts the payment and marks the row PENDING; whatever throws marks it FAILED. */
  function Drive(s: System, i: nat, outcome: Batches.Outcome, number: string, facts: Facts): System
    requires i < |s.batch.rows|
  {
    var row := s.batch.rows[i];
    var key := Batches.RowKey(s.batch.id, row.number);
    var inserted := if outcome == Batches.DatabaseError then Err("DATABASE") else MaterializeRow(s.pay, s.tenant, row.amount, key, number, facts);
    match inserted
    case Err(_) => s.(batch := Batches.SetRow(s.batch, i, Batches.RowStatus.Failed))
    case Ok(pay) =>
      var pending := Batches.SetRow(s.batch, i, if outcome == Batches.NotEnqueued then Batches.RowStatus.Failed else Batches.RowStatus.Pending);
      System(pay, pending.(payments := pending.payments + [Batches.BatchPayment(i, key, row.amount)], keys := KeysOf(pay.payments, s.tenant)),
             s.tenant, s.ids + [|s.pay.payments|])
  }

  function Next(s: System, step: Step): System {
    match step
    case Pay(c) =>
      var pay := Payments.Next(s.pay, c);
      s.(pay := pay, batch := s.batch.(keys := KeysOf(pay.payments, s.tenant)))
    case DriveRow(i, outcome, number, facts) =>
      if i < |s.batch.rows| && s.batch.rows[i].status == Batches.Valid then Drive(s, i, outcome, number, facts) else s
    case Deliver(n) =>
      if n < |s.pay.outbox| && Verdict(s.pay.outbox[n].kind).Some? && FindId(s.ids, s.pay.outbox[n].ref).Some? then
        var k := FindId(s.ids, s.pay.outbox[n].ref).value;
        s.(batch := Batches.Next(s.batch, Batches.Resolve(k, Verdict(s.pay.outbox[n].kind).value)))
      else s
  }

  function Run(s: System, steps: seq<Step>): System {
    if |steps| == 0 then s else Next(Run(s, steps[..|steps| - 1]), steps[|steps| - 1])
  }

  // ------------------------------------------------------ what payment commands leave alone

  /** Payments keep their terms, at most one is added, and events are only appended. */
  ghost predicate Extends(s: State, s': State) {
    && |s.payments| <= |s'.payments| <= |s.payments| + 1
    && (forall q | 0 <= q < |s.payments| :: SameTerms(s'.payments[q], s.payments[q]))
    && s.outbox <= s'.outbox
  }

  lemma QueueExtends(s: State, tenant: nat, pid: nat)
    requires QueuePayment(s, tenant, pid).Ok?
    ensures Extends(s, QueuePayment(s, tenant, pid).value)
  {
  }

  lemma DecisionExtends(s: State, tenant: nat, pid: nat, rules: seq<Policy.Rule>, amlHit: bool)
    requires pid < |s.payments| && DecideSubmission(s, tenant, pid, rules, amlHit).Ok?
    ensures Extends(s, DecideSubmission(s, tenant, pid, rules, amlHit).value)
  {
    var ctx := ContextOf(s.payments[pid]);
    var steps := Policy.Evaluate(Policy.SubmissionRules(rules, ctx, amlHit), ctx);
    if |steps| == 0 {
      QueueExtends(s, tenant, pid);
    }
  }

  lemma SubmitExtends(s: State, tenant: nat, pid: nat, rules: seq<Policy.Rule>, payeeApproved: bool, amlHit: bool)
    requires SubmitPayment(s, tenant, pid, rules, payeeApproved, amlHit).Ok?
    ensures Extends(s, SubmitPayment(s, tenant, pid, rules, payeeApproved, amlHit).value)
  {
    var s1 := Transition(s, pid, Validating).value;
    var s2 := Flagged(s1, pid, amlHit);
    assert |s2.payments| == |s.payments| && s2.outbox == s.outbox;
    assert forall q | 0 <= q < |s.payments| :: SameTerms(s2.payments[q], s.payments[q]);
    DecisionExtends(s2, tenant, pid, rules, amlHit);
  }

  lemma SuccessExtends(s: State, pid: nat, ref: string)
    requires ApplyProviderSuccess(s, pid, ref).Ok?
    ensures Extends(s, ApplyProviderSuccess(s, pid, ref).value)
  {
  }

  lemma FailureExtends(s: State, pid: nat)
    requires ApplyProviderFailure(s, pid).Ok?
    ensures Extends(s, ApplyProviderFailure(s, pid).value)
  {
  }

  lemma ExecuteExtends(s: State, tenant: nat, pid: nat, answer: ProviderAnswer)
    requires ExecutePayment(s, tenant, pid, answer).Ok?
    ensures Extends(s, ExecutePayment(s, tenant, pid, answer).value)
  {
    if s.payments[pid].status == Queued {
      var ref := ReferenceOf(s.payments[pid], answer);
      var s2 := RecordAttempt(Transition(s, pid, Processing).value, pid, ref);
      if answer.Answered? && answer.status == PSuccess {
        SuccessExtends(s2, pid, ref);
      } else if answer.Answered? && answer.status == PFailed {
        FailureExtends(s2, pid);
      }
    }
  }

  lemma CallbackExtends(s: State, pid: nat, ref: string, outcome: Outcome)
    requires ApplyCallback(s, pid, ref, outcome).Ok?
    ensures Extends(s, ApplyCallback(s, pid, ref, outcome).value)
  {
    match outcome {
      case ReportsSuccess => SuccessExtends(s, pid, ref);
      case ReportsFailure => FailureExtends(s, pid);
      case ReportsReversal =>
      case ReportsUnknown =>
    }
  }

  lemma ProcessExtends(s: State, e: nat)
    requires ProcessWebhookEvent(s, e).Ok?
    ensures Extends(s, ProcessWebhookEvent(s, e).value)
  {
    var found := FindAttempt(s.attempts, s.events[e].ref);
    if s.events[e].status != Processed && s.events[e].ref != "" && found.Some? {
      CallbackExtends(s, s.attempts[found.value].payment, s.events[e].ref, s.events[e].outcome);
    }
  }

  lemma PollExtends(s: State, pid: nat, ref: string, outcome: Outcome)
    requires StatusPoll(s, pid, ref, outcome).Ok?
    ensures Extends(s, StatusPoll(s, pid, ref, outcome).value)
  {
    if outcome in {ReportsSuccess, ReportsFailure} {
      CallbackExtends(s, pid, ref, outcome);
    }
  }

  lemma ReverseExtends(s: State, tenant: nat, pid: nat, answer: ProviderAnswer)
    requires RequestReversal(s, tenant, pid, answer).Ok?
    ensures Extends(s, RequestReversal(s, tenant, pid, answer).value)
  {
  }

  lemma UpkeepExtends(s: State, c: Command)
    requires PaymentSteps.IsUpkeep(c) && Perform(s, c).Ok?
    ensures Extends(s, Perform(s, c).value)
  {
  }

  lemma CommandExtends(s: State, c: Command)
    ensures Extends(s, Payments.Next(s, c))
  {
    if Perform(s, c).Ok? {
      match c {
        case DoSubmit(t, pid, rules, payeeApproved, amlHit) => SubmitExtends(s, t, pid, rules, payeeApproved, amlHit);
        case DoApprove(t, pid) => QueueExtends(Transition(s, pid, Approved).value, t, pid);
        case DoExecute(t, pid, answer) => ExecuteExtends(s, t, pid, answer);
        case DoProcessEvent(e) => ProcessExtends(s, e);
        case DoStatusPoll(pid, ref, outcome) => PollExtends(s, pid, ref, outcome);
        case DoReverse(t, pid, answer) => ReverseExtends(s, t, pid, answer);
        case DoCancel(_, _) =>
        case _ => UpkeepExtends(s, c);
      }
    }
  }

  // ------------------------------------------------------------------------- the link

  /** The payment is the one the row dictates, paid from the float. */
  predicate Matches(p: Payment, b: Batches.BatchPayment, tenant: nat) {
    p.tenant == tenant && p.wallet.None? && p.amount == b.amount && p.fee == 0 && p.key == b.key
  }

  /** Row i succeeded because its payment announced a success. */
  ghost predicate Announced(s: System, i: nat) {
    exists k :: 0 <= k < |s.ids| && k < |s.batch.payments| && s.batch.payments[k].row == i && Notice(Succeeded, s.ids[k]) in s.pay.outbox
  }

  ghost predicate Linked(s: System) {
    && s.batch.keys == KeysOf(s.pay.payments, s.tenant)
    && |s.ids| == |s.batch.payments|
    && (forall k | 0 <= k < |s.ids| :: s.ids[k] < |s.pay.payments| && Matches(s.pay.payments[s.ids[k]], s.batch.payments[k], s.tenant))
    && (forall k, l | 0 <= k < l < |s.ids| :: s.ids[k] < s.ids[l])
    && (forall i | 0 <= i < |s.batch.rows| && s.batch.rows[i].status == Batches.RowStatus.Success :: Announced(s, i))
    && (forall i | 0 <= i < |s.batch.rows| :: s.batch.rows[i].status != Batches.Skipped)
  }

  lemma AnnouncedStays(s: System, s': System, i: nat)
    requires Announced(s, i) && s.ids <= s'.ids && s.batch.payments <= s'.batch.payments && s.pay.outbox <= s'.pay.outbox
    ensures Announced(s', i)
  {
    var k :| 0 <= k < |s.ids| && k < |s.batch.payments| && s.batch.payments[k].row == i && Notice(Succeeded, s.ids[k]) in s.pay.outbox;
    assert s'.batch.payments[k].row == i && Notice(Succeeded, s'.ids[k]) in s'.pay.outbox;
  }

  lemma PayKeepsLink(s: System, c: Command)
    requires Linked(s)
    ensures Linked(Next(s, Pay(c)))
  {
    CommandExtends(s.pay, c);
    var s' := Next(s, Pay(c));
    forall i | 0 <= i < |s'.batch.rows| && s'.batch.rows[i].status == Batches.RowStatus.Success ensures Announced(s', i) {
      AnnouncedStays(s, s', i);
    }
  }

  /** A payment with the key exists exactly when the key is among the tenant's keys. */
  lemma TakenIff(ps: seq<Payment>, tenant: nat, key: string)
    ensures KeyTaken(ps, tenant, key) <==> key in KeysOf(ps, tenant)
  {
    if key in KeysOf(ps, tenant) {
      var p :| p in ps && p.tenant == tenant && p.key == key;
    }
  }

  /** The driver's step on the payment table is the batch machine's step on its keys. */
  lemma DriveSimulates(s: System, i: nat, outcome: Batches.Outcome, number: string, facts: Facts)
    requires Linked(s) && i < |s.batch.rows| && s.batch.rows[i].status == Batches.Valid
    ensures Drive(s, i, outcome, number, facts).batch == Batches.Next(s.batch, Batches.Drive(i, outcome))
  {
    var row := s.batch.rows[i];
    var key := Batches.RowKey(s.batch.id, row.number);
    TakenIff(s.pay.payments, s.tenant, key);
    if outcome != Batches.DatabaseError && key !in s.batch.keys {
      var pay := MaterializeRow(s.pay, s.tenant, row.amount, key, number, facts).value;
      KeysAppend(s.pay.payments, pay.payments[|s.pay.payments|], s.tenant);
    }
  }

  lemma KeysAppend(ps: seq<Payment>, p: Payment, tenant: nat)
    ensures KeysOf(ps + [p], tenant) == KeysOf(ps, tenant) + if p.tenant == tenant then {p.key} else {}
  {
    if p.tenant == tenant {
      assert p in ps + [p];
    }
    forall q | q in ps ensures q in ps + [p] {
    }
  }

  lemma DriveKeepsLink(s: System, i: nat, outcome: Batches.Outcome, number: string, facts: Facts)
    requires Linked(s) && i < |s.batch.rows| && s.batch.rows[i].status == Batches.Valid
    ensures Linked(Drive(s, i, outcome, number, facts))
  {
    var s' := Drive(s, i, outcome, number, facts);
    forall j | 0 <= j < |s'.batch.rows| && s'.batch.rows[j].status == Batches.RowStatus.Success ensures Announced(s', j) {
      AnnouncedStays(s, s', j);
    }
  }

  lemma DeliverKeepsLink(s: System, n: nat)
    requires Linked(s)
    ensures Linked(Next(s, Deliver(n)))
  {
    var s' := Next(s, Deliver(n));
    forall j | 0 <= j < |s'.batch.rows| && s'.batch.rows[j].status == Batches.RowStatus.Success ensures Announced(s', j) {
      if s.batch.rows[j].status == Batches.RowStatus.Success {
        AnnouncedStays(s, s', j);
      } else {
        var k := FindId(s.ids, s.pay.outbox[n].ref).value;
        assert s'.batch.payments[k].row == j && Notice(Succeeded, s'.ids[k]) in s'.pay.outbox;
      }
    }
  }

  lemma NextKeepsLink(s: System, step: Step)
    requires Linked(s)
    ensures Linked(Next(s, step))
  {
    match step {
      case Pay(c) => PayKeepsLink(s, c);
      case DriveRow(i, outcome, number, facts) =>
        if i < |s.batch.rows| && s.batch.rows[i].status == Batches.Valid {
          DriveKeepsLink(s, i, outcome, number, facts);
        }
      case Deliver(n) => DeliverKeepsLink(s, n);
    }
  }

  // ---------------------------------------------------------------------- whole runs

  /** Some run of the batch machine leads from one to the other. */
  ghost predicate Leads(b: Batches.State, b': Batches.State) {
    exists steps :: b' == Batches.Run(b, steps)
  }

  lemma LeadsOn(b: Batches.State, b': Batches.State, step: Batches.Step)
    requires Leads(b, b')
    ensures Leads(b, Batches.Next(b', step))
  {
    var steps :| b' == Batches.Run(b, steps);
    assert (steps + [step])[..|steps|] == steps;
    assert Batches.Next(b', step) == Batches.Run(b, steps + [step]);
  }

  lemma SameKeys(ps: seq<Payment>, ps': seq<Payment>, tenant: nat)
    requires |ps| == |ps'| && forall q | 0 <= q < |ps| :: SameTerms(ps'[q], ps[q])
    ensures KeysOf(ps', tenant) == KeysOf(ps, tenant)
  {
    forall key ensures key in KeysOf(ps', tenant) <==> key in KeysOf(ps, tenant) {
      if key in KeysOf(ps', tenant) {
        var q :| 0 <= q < |ps'| && ps'[q].tenant == tenant && ps'[q].key == key;
        assert ps[q] in ps && SameTerms(ps'[q], ps[q]);
      }
      if key in KeysOf(ps, tenant) {
        var q :| 0 <= q < |ps| && ps[q].tenant == tenant && ps[q].key == key;
        assert ps'[q] in ps' && SameTerms(ps'[q], ps[q]);
      }
    }
  }

  lemma PayKeepsBatch(s: System, c: Command)
    requires Linked(s) && |Payments.Next(s.pay, c).payments| == |s.pay.payments|
    ensures Next(s, Pay(c)).batch == s.batch
  {
    CommandExtends(s.pay, c);
    SameKeys(s.pay.payments, Payments.Next(s.pay, c).payments, s.tenant);
  }

  /** A payment command is, for the batch, at most one more key taken by another payment. */
  lemma PaySimulates(s: System, b: Batches.State, c: Command)
    requires Linked(s) && Leads(b, s.batch)
    ensures Leads(b, Next(s, Pay(c)).batch)
  {
    var ps, ps' := s.pay.payments, Payments.Next(s.pay, c).payments;
    CommandExtends(s.pay, c);
    if |ps'| == |ps| {
      PayKeepsBatch(s, c);
    } else {
      NewKey(ps, ps', s.tenant);
      var p := ps'[|ps|];
      if p.tenant == s.tenant {
        LeadsOn(b, s.batch, Batches.OtherPayment(p.key));
      } else {
        assert Next(s, Pay(c)).batch == s.batch;
      }
    }
  }

  lemma NewKey(ps: seq<Payment>, ps': seq<Payment>, tenant: nat)
    requires |ps'| == |ps| + 1 && forall q | 0 <= q < |ps| :: SameTerms(ps'[q], ps[q])
    ensures KeysOf(ps', tenant) == KeysOf(ps, tenant) + if ps'[|ps|].tenant == tenant then {ps'[|ps|].key} else {}
  {
    SameKeys(ps, ps'[..|ps|], tenant);
    assert ps' == ps'[..|ps|] + [ps'[|ps|]];
    KeysAppend(ps'[..|ps|], ps'[|ps|], tenant);
  }

  /** The tables of the system are tables of its two machines. */
  lemma NextSimulates(s: System, b: Batches.State, step: Step)
    requires Linked(s) && Leads(b, s.batch) && Reachable(s.pay)
    ensures Leads(b, Next(s, step).batch) && Reachable(Next(s, step).pay)
  {
    match step {
      case Pay(c) =>
        PaySimulates(s, b, c);
        ReachableNext(s.pay, c);
      case DriveRow(i, outcome, number, facts) =>
        if i < |s.batch.rows| && s.batch.rows[i].status == Batches.Valid {
          DriveSimulates(s, i, outcome, number, facts);
          LeadsOn(b, s.batch, Batches.Drive(i, outcome));
          ReachableNext(s.pay, DoMaterialize(s.tenant, s.batch.rows[i].amount, Batches.RowKey(s.batch.id, s.batch.rows[i].number), number, facts));
        }
      case Deliver(n) =>
        if n < |s.pay.outbox| && Verdict(s.pay.outbox[n].kind).Some? && FindId(s.ids, s.pay.outbox[n].ref).Some? {
          LeadsOn(b, s.batch, Batches.Resolve(FindId(s.ids, s.pay.outbox[n].ref).value, Verdict(s.pay.outbox[n].kind).value));
        }
    }
  }

  lemma {:induction false} RunSimulates(s: System, steps: seq<Step>)
    requires Linked(s) && Reachable(s.pay)
    ensures Linked(Run(s, steps)) && Reachable(Run(s, steps).pay) && Leads(s.batch, Run(s, steps).batch)
  {
    if |steps| == 0 {
      assert Batches.Run(s.batch, []) == s.batch;
    } else {
      var before := Run(s, steps[..|steps| - 1]);
      RunSimulates(s, steps[..|steps| - 1]);
      NextKeepsLink(before, steps[|steps| - 1]);
      NextSimulates(before, s.batch, steps[|steps| - 1]);
    }
  }

  lemma StartIsLinked(pay: State, tenant: nat, id: string, rows: seq<Batches.RawRow>)
    ensures Linked(Start(pay, tenant, id, rows))
  {
  }

  // ------------------------------------------------------------------------- theorems

  /** The payment of row i has been journalled, exactly once. */
  ghost predicate Journalled(s: System, i: nat) {
    exists k :: 0 <= k < |s.ids| && k < |s.batch.payments| && s.batch.payments[k].row == i && Journals(s.pay.books.journals, PaymentJournal, s.ids[k]) == 1
  }

  ghost function JournalledAmount(s: System): nat -> int {
    (i: nat) => if i < |s.batch.rows| && Journalled(s, i) then s.batch.rows[i].amount else 0
  }

  /** The money that success journals have taken out of the float for the batch. */
  ghost function JournalledTotal(s: System): int { Sum(|s.batch.rows|, JournalledAmount(s)) }

  lemma NoticeIsJournal(s: State, pid: nat)
    requires Reachable(s) && pid < |s.payments| && Notice(Succeeded, pid) in s.outbox
    ensures Journals(s.books.journals, PaymentJournal, pid) == 1
  {
    OnceOnly(s, pid);
    var n :| 0 <= n < |s.outbox| && s.outbox[n] == Notice(Succeeded, pid);
    SumDominates(|s.outbox|, IsSuccessNotice(s.outbox, pid));
    assert IsSuccessNotice(s.outbox, pid)(n) == 1;
  }

  lemma SuccessIsJournalled(s: System, i: nat)
    requires Linked(s) && Reachable(s.pay) && i < |s.batch.rows| && s.batch.rows[i].status == Batches.RowStatus.Success
    ensures Journalled(s, i)
  {
    var k :| 0 <= k < |s.ids| && k < |s.batch.payments| && s.batch.payments[k].row == i && Notice(Succeeded, s.ids[k]) in s.pay.outbox;
    NoticeIsJournal(s.pay, s.ids[k]);
  }

  /** Only rows that were accepted have payments, and rows keep their amounts. */
  lemma RowsWereValid(s: System, rows: seq<Batches.RawRow>, b0: Batches.State, i: nat)
    requires b0.rows == Batches.Stored(rows) && b0.payments == [] && Leads(b0, s.batch) && i < |rows|
    ensures |s.batch.rows| == |rows| && s.batch.rows[i].amount == rows[i].amount
    ensures Journalled(s, i) ==> b0.rows[i].status == Batches.Valid
  {
    var steps :| s.batch == Batches.Run(b0, steps);
    Batches.PaidRowsWereValid(b0, steps, i);
  }

  lemma WithinApproved(s: System, rows: seq<Batches.RawRow>, b0: Batches.State)
    requires b0.rows == Batches.Stored(rows) && b0.payments == [] && Leads(b0, s.batch) && |s.batch.rows| == |rows|
    ensures JournalledTotal(s) <= Sum(|rows|, Batches.AmountIf(b0.rows, Batches.Valid))
  {
    forall i: nat | i < |rows| ensures JournalledAmount(s)(i) <= Batches.AmountIf(b0.rows, Batches.Valid)(i) {
      RowsWereValid(s, rows, b0, i);
    }
    SumMonotone(|rows|, JournalledAmount(s), Batches.AmountIf(b0.rows, Batches.Valid));
  }

  lemma JournalledIs(s: System, rows: seq<Batches.RawRow>, b0: Batches.State, i: nat)
    requires b0.rows == Batches.Stored(rows) && b0.payments == [] && Leads(b0, s.batch) && i < |rows| && Journalled(s, i)
    ensures JournalledAmount(s)(i) == Batches.AmountIf(b0.rows, Batches.Valid)(i)
  {
    RowsWereValid(s, rows, b0, i);
  }

  lemma AllJournalled(s: System, rows: seq<Batches.RawRow>, b0: Batches.State)
    requires b0.rows == Batches.Stored(rows) && b0.payments == [] && Leads(b0, s.batch) && |s.batch.rows| == |rows|
    requires forall i | 0 <= i < |rows| :: Journalled(s, i)
    ensures JournalledTotal(s) == Sum(|rows|, Batches.AmountIf(b0.rows, Batches.Valid))
  {
    forall i: nat | i < |rows| {
      JournalledIs(s, rows, b0, i);
    }
    SumAgree(|rows|, JournalledAmount(s), Batches.AmountIf(b0.rows, Batches.Valid));
  }

  lemma LeadsKeepsRows(b: Batches.State, b': Batches.State)
    requires Leads(b, b') && b.payments == []
    ensures |b'.rows| == |b.rows|
  {
    var steps :| b' == Batches.Run(b, steps);
    Batches.RunKeepsRows(b, steps);
  }

  /**
   However drivers, jobs, callbacks and events interleave: the success journals of a batch never
   exceed the total that was put up for approval, and a COMPLETED batch has journalled exactly
   that total, with one journal for every row.
   */
  lemma CompletedMeansPaid(pay: State, tenant: nat, b: Batches.Batch, rows: seq<Batches.RawRow>, steps: seq<Step>)
    requires Reachable(pay) && b.total == Sum(|rows|, Batches.AmountIf(Batches.Stored(rows), Batches.Valid))
    ensures var s := Run(Start(pay, tenant, b.id, rows), steps);
      && JournalledTotal(s) <= b.total
      && (Batches.StatusOf(s.batch.rows) == Batches.Completed ==>
            JournalledTotal(s) == b.total && forall i | 0 <= i < |rows| :: Journalled(s, i))
  {
    var s0 := Start(pay, tenant, b.id, rows);
    var s := Run(s0, steps);
    StartIsLinked(pay, tenant, b.id, rows);
    RunSimulates(s0, steps);
    LeadsKeepsRows(s0.batch, s.batch);
    WithinApproved(s, rows, s0.batch);
    if Batches.StatusOf(s.batch.rows) == Batches.Completed {
      Batches.CompletedIff(s.batch.rows);
      forall i | 0 <= i < |rows| ensures Journalled(s, i) {
        SuccessIsJournalled(s, i);
      }
      AllJournalled(s, rows, s0.batch);
    }
  }

  /** Each payment of a batch is one payment of the payment machine, for its row's amount, and no two rows share one. */
  lemma RowsArePayments(pay: State, tenant: nat, id: string, rows: seq<Batches.RawRow>, steps: seq<Step>)
    requires Reachable(pay)
    ensures var s := Run(Start(pay, tenant, id, rows), steps);
      && Reachable(s.pay) && |s.ids| == |s.batch.payments|
      && (forall k | 0 <= k < |s.ids| :: s.ids[k] < |s.pay.payments| && Matches(s.pay.payments[s.ids[k]], s.batch.payments[k], tenant))
      && (forall k, l | 0 <= k < l < |s.ids| :: s.ids[k] != s.ids[l] && s.batch.payments[k].row != s.batch.payments[l].row)
  {
    var s0 := Start(pay, tenant, id, rows);
    StartIsLinked(pay, tenant, id, rows);
    RunSimulates(s0, steps);
    RunKeepsTenant(s0, steps);
    OnePerRow(s0.batch, Run(s0, steps).batch);
  }

  lemma OnePerRow(b: Batches.State, b': Batches.State)
    requires Leads(b, b') && b.payments == [] && Batches.PositiveRows(b)
    ensures forall k, l | 0 <= k < l < |b'.payments| :: b'.payments[k].row != b'.payments[l].row
  {
    var steps :| b' == Batches.Run(b, steps);
    Batches.RunConserves(b, steps);
  }

  lemma {:induction false} RunKeepsTenant(s: System, steps: seq<Step>)
    ensures Run(s, steps).tenant == s.tenant
  {
    if |steps| > 0 {
      RunKeepsTenant(s, steps[..|steps| - 1]);
    }
  }

  // ------------------------------------------------------------------------ completion

  const BARE := Facts("", "", "", "", [])

  /** Drives the first k rows; number gives the payment numbers. */
  function DriveEach(number: nat -> string, k: nat): seq<Step> {
    if k == 0 then [] else DriveEach(number, k - 1) + [DriveRow(k - 1, Batches.Enqueued, number(k - 1), BARE)]
  }

  /** The provider pays the k payments from base on. */
  function PayEach(tenant: nat, base: nat, k: nat): seq<Step> {
    if k == 0 then [] else PayEach(tenant, base, k - 1) + [Pay(DoExecute(tenant, base + k - 1, Answered(PSuccess, Some("paid"))))]
  }

  /** The k events from notice on reach the batch. */
  function DeliverEach(notice: nat, k: nat): seq<Step> {
    if k == 0 then [] else DeliverEach(notice, k - 1) + [Deliver(notice + k - 1)]
  }

  /** Opens the chart of accounts, drives every row, has every payment executed and delivers every event. */
  function CompletingRun(s: System, number: nat -> string): seq<Step> {
    var n := |s.batch.rows|;
    [Pay(DoEnsureChart(s.tenant))] + DriveEach(number, n) + PayEach(s.tenant, |s.pay.payments|, n) + DeliverEach(|s.pay.outbox|, n)
  }

  lemma RunExtends(s: System, steps: seq<Step>, step: Step)
    ensures Run(s, steps + [step]) == Next(Run(s, steps), step)
  {
    assert (steps + [step])[..|steps|] == steps;
  }

  lemma {:induction false} RunJoins(s: System, a: seq<Step>, b: seq<Step>)
    ensures Run(s, a + b) == Run(Run(s, a), b)
    decreases |b|
  {
    if |b| == 0 {
      assert a + b == a;
    } else {
      assert (a + b)[..|a + b| - 1] == a + b[..|b| - 1];
      RunJoins(s, a, b[..|b| - 1]);
    }
  }

  /** A float-funded payment of the batch that waits for its execution job. */
  predicate Waiting(p: Payment, tenant: nat) {
    p.tenant == tenant && p.status == Queued && p.wallet.None? && p.amount > 0 && p.fee == 0
  }

  lemma DriveOne(s: System, i: nat, number: string)
    requires Linked(s) && i < |s.batch.rows| && s.batch.rows[i].status == Batches.Valid && s.batch.rows[i].amount > 0
    requires Batches.RowKey(s.batch.id, s.batch.rows[i].number) !in s.batch.keys
    ensures var s' := Next(s, DriveRow(i, Batches.Enqueued, number, BARE));
      && s'.batch == Batches.Next(s.batch, Batches.Drive(i, Batches.Enqueued)) && s'.tenant == s.tenant && s'.ids == s.ids + [|s.pay.payments|]
      && |s'.pay.payments| == |s.pay.payments| + 1 && s'.pay == s.pay.(payments := s.pay.payments + [s'.pay.payments[|s.pay.payments|]])
      && Waiting(s'.pay.payments[|s.pay.payments|], s.tenant)
  {
    TakenIff(s.pay.payments, s.tenant, Batches.RowKey(s.batch.id, s.batch.rows[i].number));
    DriveSimulates(s, i, Batches.Enqueued, number, BARE);
  }

  /** After k rows are driven their payments wait at the end of the table, in order. */
  ghost predicate DrivenTo(s0: System, s: System, k: nat) {
    && s.batch == Batches.Run(s0.batch, Batches.DriveEach(k)) && s.tenant == s0.tenant
    && |s.ids| == k && (forall i | 0 <= i < k :: s.ids[i] == |s0.pay.payments| + i)
    && |s.pay.payments| == |s0.pay.payments| + k && s.pay == s0.pay.(payments := s.pay.payments)
    && (forall i | |s0.pay.payments| <= i < |s.pay.payments| :: Waiting(s.pay.payments[i], s.tenant))
  }

  lemma DriveNext(s0: System, s: System, k: nat, number: string)
    requires DrivenTo(s0, s, k) && Linked(s) && k < |s.batch.rows| && s.batch.rows[k].status == Batches.Valid && s.batch.rows[k].amount > 0
    requires Batches.RowKey(s.batch.id, s.batch.rows[k].number) !in s.batch.keys
    ensures DrivenTo(s0, Next(s, DriveRow(k, Batches.Enqueued, number, BARE)), k + 1)
  {
    DriveOne(s, k, number);
    assert Batches.DriveEach(k + 1)[..|Batches.DriveEach(k + 1)| - 1] == Batches.DriveEach(k);
  }

  lemma DriveStep(s: System, steps: seq<Step>, k: nat, number: string)
    requires Batches.Payable(s.batch) && k < |s.batch.rows| && s.batch.rows[k].amount > 0
    requires DrivenTo(s, Run(s, steps), k) && Linked(Run(s, steps))
    ensures DrivenTo(s, Run(s, steps + [DriveRow(k, Batches.Enqueued, number, BARE)]), k + 1)
  {
    Batches.Driven(s.batch, k);
    Batches.PaidRowsWereValid(s.batch, Batches.DriveEach(k), k);
    DriveNext(s, Run(s, steps), k, number);
    RunExtends(s, steps, DriveRow(k, Batches.Enqueued, number, BARE));
  }

  lemma {:induction false} Driven(s: System, number: nat -> string, k: nat)
    requires Linked(s) && Reachable(s.pay) && s.ids == [] && Batches.Payable(s.batch) && k <= |s.batch.rows|
    requires forall i | 0 <= i < |s.batch.rows| :: s.batch.rows[i].amount > 0
    ensures DrivenTo(s, Run(s, DriveEach(number, k)), k)
  {
    if k == 0 {
      assert Run(s, []) == s && Batches.Run(s.batch, []) == s.batch;
    } else {
      Driven(s, number, k - 1);
      RunSimulates(s, DriveEach(number, k - 1));
      DriveStep(s, DriveEach(number, k - 1), k - 1, number(k - 1));
      assert DriveEach(number, k) == DriveEach(number, k - 1) + [DriveRow(k - 1, Batches.Enqueued, number(k - 1), BARE)];
    }
  }

  /** A SUCCESS answer pays a waiting payment from the float and announces it. */
  lemma PaysOut(s: State, tenant: nat, pid: nat)
    requires Reachable(s) && pid < |s.payments| && Waiting(s.payments[pid], tenant)
    requires Clearing(tenant) in s.books.accounts && FloatLiability(tenant) in s.books.accounts
    ensures var s' := Payments.Next(s, DoExecute(tenant, pid, Answered(PSuccess, Some("paid"))));
      && |s'.payments| == |s.payments| && s'.outbox == s.outbox + [Notice(Succeeded, pid)]
      && s.books.accounts <= s'.books.accounts
      && (forall q | 0 <= q < |s.payments| && q != pid :: s'.payments[q] == s.payments[q])
  {
    var answer := Answered(PSuccess, Some("paid"));
    ProviderCalls.RolledBackIff(s, tenant, pid, answer);
    ProviderCalls.ExecuteIs(s, tenant, pid, answer);
    BookedEffect(ProviderCalls.Called(s, pid, answer), pid, "paid");
  }

  lemma BookedEffect(s: State, pid: nat, ref: string)
    requires BookSuccess(s, pid, ref).Ok?
    ensures var s' := BookSuccess(s, pid, ref).value;
      && pid < |s.payments| == |s'.payments| && s'.outbox == s.outbox + [Notice(Succeeded, pid)] && s.books.accounts <= s'.books.accounts
      && (forall q | 0 <= q < |s.payments| && q != pid :: s'.payments[q] == s.payments[q])
  {
  }

  /** k events from notice on announce the successes of the payments from base on. */
  predicate Announces(outbox: seq<Notice>, notice: nat, base: nat, k: nat) {
    notice + k <= |outbox| && forall j | notice <= j < notice + k :: outbox[j] == Notice(Succeeded, base + j - notice)
  }

  /** After k of the n payments are executed: their events are the last ones, in order, and the others still wait. */
  ghost predicate PaidTo(s0: System, s: System, base: nat, k: nat) {
    && s.batch == s0.batch && s.ids == s0.ids && s.tenant == s0.tenant
    && |s.pay.payments| == |s0.pay.payments| && |s.pay.outbox| == |s0.pay.outbox| + k
    && s0.pay.books.accounts <= s.pay.books.accounts
    && Announces(s.pay.outbox, |s0.pay.outbox|, base, k)
    && (forall i | base + k <= i < |s.pay.payments| :: Waiting(s.pay.payments[i], s.tenant))
  }

  /** One more payment of the batch is paid, and nothing else happens that the batch could see. */
  ghost predicate PaidMore(s: System, s': System, pid: nat) {
    && s'.batch == s.batch && s'.ids == s.ids && s'.tenant == s.tenant
    && |s'.pay.payments| == |s.pay.payments| && s'.pay.outbox == s.pay.outbox + [Notice(Succeeded, pid)]
    && s.pay.books.accounts <= s'.pay.books.accounts
    && (forall q | 0 <= q < |s.pay.payments| && q != pid :: s'.pay.payments[q] == s.pay.payments[q])
  }

  lemma PayOne(s: System, pid: nat)
    requires Linked(s) && Reachable(s.pay) && pid < |s.pay.payments| && Waiting(s.pay.payments[pid], s.tenant)
    requires Clearing(s.tenant) in s.pay.books.accounts && FloatLiability(s.tenant) in s.pay.books.accounts
    ensures PaidMore(s, Next(s, Pay(DoExecute(s.tenant, pid, Answered(PSuccess, Some("paid"))))), pid)
  {
    PaysOut(s.pay, s.tenant, pid);
    PayKeepsBatch(s, DoExecute(s.tenant, pid, Answered(PSuccess, Some("paid"))));
  }

  lemma PaidExtends(s0: System, s: System, s': System, base: nat, k: nat)
    requires PaidTo(s0, s, base, k) && PaidMore(s, s', base + k)
    ensures PaidTo(s0, s', base, k + 1)
  {
  }

  lemma PayNext(s: System, steps: seq<Step>, base: nat, k: nat)
    requires PaidTo(s, Run(s, steps), base, k) && Linked(Run(s, steps)) && Reachable(Run(s, steps).pay) && base + k < |s.pay.payments|
    requires Clearing(s.tenant) in s.pay.books.accounts && FloatLiability(s.tenant) in s.pay.books.accounts
    ensures PaidTo(s, Run(s, steps + [Pay(DoExecute(s.tenant, base + k, Answered(PSuccess, Some("paid"))))]), base, k + 1)
  {
    var step := Pay(DoExecute(s.tenant, base + k, Answered(PSuccess, Some("paid"))));
    PayOne(Run(s, steps), base + k);
    PaidExtends(s, Run(s, steps), Next(Run(s, steps), step), base, k);
    RunExtends(s, steps, step);
  }

  lemma {:induction false} Paid(s: System, base: nat, k: nat)
    requires Linked(s) && Reachable(s.pay) && base + k <= |s.pay.payments|
    requires forall i | base <= i < |s.pay.payments| :: Waiting(s.pay.payments[i], s.tenant)
    requires Clearing(s.tenant) in s.pay.books.accounts && FloatLiability(s.tenant) in s.pay.books.accounts
    ensures PaidTo(s, Run(s, PayEach(s.tenant, base, k)), base, k)
  {
    if k == 0 {
      assert Run(s, []) == s;
    } else {
      Paid(s, base, k - 1);
      RunSimulates(s, PayEach(s.tenant, base, k - 1));
      PayNext(s, PayEach(s.tenant, base, k - 1), base, k - 1);
    }
  }

  lemma {:induction false} IdFound(ids: seq<nat>, base: nat, k: nat)
    requires k < |ids| && forall i | 0 <= i < |ids| :: ids[i] == base + i
    ensures FindId(ids, base + k) == Some(k)
  {
    if k < |ids| - 1 {
      IdFound(ids[..|ids| - 1], base, k);
    }
  }

  lemma DeliverOne(s: System, n: nat, k: nat)
    requires n < |s.pay.outbox| && s.pay.outbox[n].kind == Succeeded && FindId(s.ids, s.pay.outbox[n].ref) == Some(k)
    ensures Next(s, Deliver(n)) == s.(batch := Batches.Next(s.batch, Batches.Resolve(k, Batches.RowStatus.Success)))
  {
  }

  lemma ResolveExtends(b: Batches.State, k: nat)
    requires k > 0
    ensures Batches.Run(b, Batches.ResolveEach(k))
         == Batches.Next(Batches.Run(b, Batches.ResolveEach(k - 1)), Batches.Resolve(k - 1, Batches.RowStatus.Success))
  {
    assert Batches.ResolveEach(k)[..|Batches.ResolveEach(k)| - 1] == Batches.ResolveEach(k - 1);
  }

  /** k events have resolved the first k payments of the batch. */
  ghost predicate DeliveredTo(s: System, s': System, k: nat) {
    s'.batch == Batches.Run(s.batch, Batches.ResolveEach(k)) && s'.ids == s.ids && s'.pay == s.pay
  }

  /** The batch's payments are those from base on, and the events from notice on announce their successes. */
  predicate AllAnnounced(s: System, base: nat, notice: nat) {
    Announces(s.pay.outbox, notice, base, |s.ids|) && forall i | 0 <= i < |s.ids| :: s.ids[i] == base + i
  }

  lemma DeliverNext(s: System, steps: seq<Step>, base: nat, notice: nat, k: nat)
    requires k < |s.ids| && AllAnnounced(s, base, notice) && DeliveredTo(s, Run(s, steps), k)
    ensures DeliveredTo(s, Run(s, steps + [Deliver(notice + k)]), k + 1)
  {
    IdFound(s.ids, base, k);
    assert s.pay.outbox[notice + k] == Notice(Succeeded, base + k);
    DeliverOne(Run(s, steps), notice + k, k);
    RunExtends(s, steps, Deliver(notice + k));
    ResolveExtends(s.batch, k + 1);
  }

  lemma {:induction false} Delivered(s: System, base: nat, notice: nat, k: nat)
    requires k <= |s.ids| && AllAnnounced(s, base, notice)
    ensures DeliveredTo(s, Run(s, DeliverEach(notice, k)), k)
  {
    if k == 0 {
      assert Run(s, []) == s && Batches.Run(s.batch, []) == s.batch;
    } else {
      Delivered(s, base, notice, k - 1);
      DeliverNext(s, DeliverEach(notice, k - 1), base, notice, k - 1);
      assert DeliverEach(notice, k) == DeliverEach(notice, k - 1) + [Deliver(notice + k - 1)];
    }
  }

  /** Opening the chart leaves the batch and the payments alone. */
  lemma ChartOpened(s: System)
    requires Linked(s)
    ensures var s1 := Run(s, [Pay(DoEnsureChart(s.tenant))]);
      && s1 == s.(pay := EnsureSystemChart(s.pay, s.tenant))
      && Clearing(s.tenant) in s1.pay.books.accounts && FloatLiability(s.tenant) in s1.pay.books.accounts
  {
    var step := Pay(DoEnsureChart(s.tenant));
    assert [step][..0] == [] && Run(s, []) == s;
    assert Run(s, [step]) == Next(s, step);
  }

  /** Driving and paying: every row has its payment, in order, and every payment has announced its success. */
  ghost predicate AllPaid(s0: System, s: System) {
    && s.batch == Batches.Run(s0.batch, Batches.DriveEach(|s0.batch.rows|)) && |s.ids| == |s0.batch.rows|
    && AllAnnounced(s, |s0.pay.payments|, |s0.pay.outbox|)
  }

  lemma DrivenAndPaid(s: System, number: nat -> string)
    requires Linked(s) && Reachable(s.pay) && s.ids == [] && Batches.Payable(s.batch)
    requires forall i | 0 <= i < |s.batch.rows| :: s.batch.rows[i].amount > 0
    requires Clearing(s.tenant) in s.pay.books.accounts && FloatLiability(s.tenant) in s.pay.books.accounts
    ensures AllPaid(s, Run(Run(s, DriveEach(number, |s.batch.rows|)), PayEach(s.tenant, |s.pay.payments|, |s.batch.rows|)))
  {
    Driven(s, number, |s.batch.rows|);
    RunSimulates(s, DriveEach(number, |s.batch.rows|));
    Paid(Run(s, DriveEach(number, |s.batch.rows|)), |s.pay.payments|, |s.batch.rows|);
  }

  lemma PaidCompletes(s0: System, s: System)
    requires Batches.Payable(s0.batch) && AllPaid(s0, s)
    ensures Batches.StatusOf(Run(s, DeliverEach(|s0.pay.outbox|, |s0.batch.rows|)).batch.rows) == Batches.Completed
  {
    Delivered(s, |s0.pay.payments|, |s0.pay.outbox|, |s0.batch.rows|);
    Batches.Driven(s0.batch, |s0.batch.rows|);
    Batches.Resolved(s0.batch, s.batch, |s0.batch.rows|);
    Batches.CompletedIff(Batches.Run(s.batch, Batches.ResolveEach(|s0.batch.rows|)).rows);
  }

  lemma RunParts(s: System, a: seq<Step>, b: seq<Step>, c: seq<Step>, d: seq<Step>)
    ensures Run(s, a + b + c + d) == Run(Run(Run(Run(s, a), b), c), d)
  {
    RunJoins(s, a + b + c, d);
    RunJoins(s, a + b, c);
    RunJoins(s, a, b);
  }

  /** A payable batch is completed by the payments' own events. */
  lemma PayableCompletes(s: System, number: nat -> string)
    requires Linked(s) && Reachable(s.pay) && s.ids == [] && Batches.Payable(s.batch)
    requires forall i | 0 <= i < |s.batch.rows| :: s.batch.rows[i].amount > 0
    ensures Batches.StatusOf(Run(s, CompletingRun(s, number)).batch.rows) == Batches.Completed
  {
    var n, base := |s.batch.rows|, |s.pay.payments|;
    var chart := [Pay(DoEnsureChart(s.tenant))];
    RunParts(s, chart, DriveEach(number, n), PayEach(s.tenant, base, n), DeliverEach(|s.pay.outbox|, n));
    ChartOpened(s);
    RunSimulates(s, chart);
    var s1 := Run(s, chart);
    DrivenAndPaid(s1, number);
    PaidCompletes(s1, Run(Run(s1, DriveEach(number, n)), PayEach(s.tenant, base, n)));
  }

  lemma UncleanLeadsNowhere(b: Batches.State, b': Batches.State, rows: seq<Batches.RawRow>)
    requires Leads(b, b') && Batches.NumbersDistinct(rows)
    requires b == Batches.State(b.id, Batches.Stored(rows), [], b.keys) && !Batches.Clean(b.id, rows, b.keys)
    ensures Batches.StatusOf(b'.rows) != Batches.Completed
  {
    var steps :| b' == Batches.Run(b, steps);
    Batches.CompletableIff(b.id, rows, b.keys);
    assert Batches.StatusOf(Batches.Run(b, steps).rows) != Batches.Completed;
  }

  lemma CleanIsPayable(id: string, rows: seq<Batches.RawRow>, keys: set<string>)
    requires Batches.NumbersDistinct(rows) && Batches.Clean(id, rows, keys)
    ensures Batches.Payable(Batches.State(id, Batches.Stored(rows), [], keys))
    ensures forall i | 0 <= i < |rows| :: Batches.Stored(rows)[i].amount > 0
  {
  }

  /**
   A freshly stored batch can become COMPLETED beside the payment machine exactly when no row was refused and no
   row's key is taken: then the explicit run completes it, with whatever payment numbers, and otherwise no run does.
   */
  lemma CompletableIff(pay: State, tenant: nat, id: string, rows: seq<Batches.RawRow>, number: nat -> string)
    requires Reachable(pay) && Batches.NumbersDistinct(rows)
    ensures var s := Start(pay, tenant, id, rows);
      var clean := Batches.Clean(id, rows, KeysOf(pay.payments, tenant));
      && ((exists steps :: Batches.StatusOf(Run(s, steps).batch.rows) == Batches.Completed) <==> clean)
      && (Batches.StatusOf(Run(s, CompletingRun(s, number)).batch.rows) == Batches.Completed <==> clean)
  {
    var s, keys := Start(pay, tenant, id, rows), KeysOf(pay.payments, tenant);
    StartIsLinked(pay, tenant, id, rows);
    if Batches.Clean(id, rows, keys) {
      CleanIsPayable(id, rows, keys);
      PayableCompletes(s, number);
    } else {
      forall steps: seq<Step> ensures Batches.StatusOf(Run(s, steps).batch.rows) != Batches.Completed {
        RunSimulates(s, steps);
        UncleanLeadsNowhere(s.batch, Run(s, steps).batch, rows);
      }
    }
  }
}
