/**
 The payment lifecycle (packages/payments-core/src): every command is one
 database transaction, so it maps the tables to new tables or throws and leaves
 them alone. The class in PaymentDb.dfy performs the same commands in place.
 */
module Payments {
  import opened Prelude
  import opened Ledger
  import Policy

  datatype Status =
    | Draft | Validating | PendingApproval | Approved | Rejected | Queued | Processing
    | ProviderPending | Success | Failed | Reversed | Cancelled

  /** The legal transition table. */
  function Successors(from: Status): set<Status> {
    match from
    case Draft => {Validating, Cancelled}
    case Validating => {PendingApproval, Queued, Failed, Cancelled}
    case PendingApproval => {Approved, Rejected, Cancelled}
    case Approved => {Queued, Failed, Cancelled}
    case Rejected => {}
    case Queued => {Processing, Cancelled, Failed}
    case Processing => {ProviderPending, Success, Failed}
    case ProviderPending => {Success, Failed, Reversed}
    case Success => {Reversed}
    case Failed => {Queued, Cancelled}
    case Reversed => {}
    case Cancelled => {}
  }

  predicate CanTransition(from: Status, to: Status) {
    from == to || to in Successors(from)
  }

  /** What policies look at besides the amount. */
  datatype Facts = Facts(product: string, channel: string, branch: string, department: string, riskFlags: seq<string>)

  /** A payment row. A payment without a wallet is float-funded (a batch row); an unset provider reference is "". */
  datatype Payment = Payment(
    tenant: nat, number: string, wallet: Option<nat>,
    amount: int, fee: int, total: int, key: string, facts: Facts,
    status: Status, version: int, providerRef: string)

  datatype Change = Change(payment: nat, from: Option<Status>, to: Status)

  datatype Attempt = Attempt(payment: nat, ref: string)

  datatype Reversal = Reversal(payment: nat, processed: bool)

  datatype ApprovalRef = ApprovalRef(payment: nat, steps: seq<Policy.StepRequirement>)

  datatype NoticeKind = ApprovalRequested | QueuedNotice | FailedNotice | CancelledNotice | Succeeded | ReversedNotice | Funded

  datatype Notice = Notice(kind: NoticeKind, ref: nat)

  /** Outcome reported by a webhook or a status poll. */
  datatype Outcome = ReportsSuccess | ReportsFailure | ReportsReversal | ReportsUnknown

  datatype EventStatus = Received | Processed | EventFailed | Unmatched

  datatype WebhookEvent = WebhookEvent(id: string, ref: string, outcome: Outcome, status: EventStatus)

  datatype ProviderStatus = PSuccess | PFailed | PReversed | PPending | PUnknown

  /** What a provider call came back with; the reference is optional. */
  datatype ProviderAnswer = Answered(status: ProviderStatus, ref: Option<string>) | Threw

  /** Who reported a movement nobody knows. */
  datatype OrphanSource = FromWebhook | FromPaybill

  datatype Orphan = Orphan(source: OrphanSource, ref: string)

  datatype State = State(
    books: Books,
    payments: seq<Payment>,
    history: seq<Change>,
    attempts: seq<Attempt>,
    reversals: seq<Reversal>,
    requests: seq<ApprovalRef>,
    events: seq<WebhookEvent>,
    records: map<(nat, string), nat>,
    outbox: seq<Notice>,
    orphans: seq<Orphan>)

  /** The state in which only wallets exist, none of them funded yet. */
  function Initial(wallets: seq<Wallet>): State {
    State(Books(wallets, [], [], {}, []), [], [], [], [], [], [], map[], [], [])
  }

  predicate Has(s: State, tenant: nat, pid: nat) {
    pid < |s.payments| && s.payments[pid].tenant == tenant
  }

  function SetPayment(s: State, pid: nat, p: Payment): State
    requires pid < |s.payments|
  {
    s.(payments := s.payments[pid := p])
  }

  function Notify(s: State, kind: NoticeKind, ref: nat): State {
    s.(outbox := s.outbox + [Notice(kind, ref)])
  }

  /** Guarded transition: checks the table, appends to the history, bumps the version. */
  function Transition(s: State, pid: nat, to: Status): (r: Result<State>)
    ensures r.Ok? ==> pid < |s.payments| == |r.value.payments| && r.value.records == s.records && r.value.attempts == s.attempts && r.value.orphans == s.orphans
  {
    if pid >= |s.payments| then Err("PAYMENT_NOT_FOUND")
    else
      var p := s.payments[pid];
      if !CanTransition(p.status, to) then Err("ILLEGAL_TRANSITION")
      else if p.status == to then Ok(s)
      else Ok(SetPayment(s, pid, p.(status := to, version := p.version + 1))
              .(history := s.history + [Change(pid, Some(p.status), to)]))
  }

  // ------------------------------------------------------------------ commands

  /** No PROVIDER_PENDING payment has a provider reference. */
  predicate PendingUnreferenced(ps: seq<Payment>) {
    forall i | 0 <= i < |ps| :: ps[i].status == ProviderPending ==> ps[i].providerRef == ""
  }

  predicate KeyTaken(payments: seq<Payment>, tenant: nat, key: string) {
    exists i :: 0 <= i < |payments| && payments[i].tenant == tenant && payments[i].key == key
  }

  datatype Created = Created(payment: nat, replayed: bool)

  function CreatePayment(s: State, tenant: nat, wallet: nat, amount: int, fee: int, key: string, number: string, facts: Facts):
    (r: Result<(State, Created)>)
  {
    if amount <= 0 then Err("INVALID_AMOUNT")
    else if (tenant, key) in s.records then Ok((s, Created(s.records[(tenant, key)], true)))
    else if wallet >= |s.books.wallets| || s.books.wallets[wallet].tenant != tenant then Err("WALLET_NOT_FOUND")
    else if !s.books.wallets[wallet].active then Err("WALLET_FROZEN")
    else if KeyTaken(s.payments, tenant, key) then Err("23505")
    else
      var pid := |s.payments|;
      Ok((s.(payments := s.payments + [Payment(tenant, number, Some(wallet), amount, fee, amount + fee, key, facts, Draft, 1, "")],
             history := s.history + [Change(pid, None, Draft)],
             records := s.records[(tenant, key) := pid]),
          Created(pid, false)))
  }

  /** Reserves the total and queues the payment; a denied reservation fails it instead. */
  function QueuePayment(s: State, tenant: nat, pid: nat): (r: Result<State>)
    ensures r.Ok? ==> r.value.records == s.records && r.value.attempts == s.attempts && r.value.orphans == s.orphans
  {
    if pid >= |s.payments| then Err("PAYMENT_NOT_FOUND")
    else if s.payments[pid].wallet.None? then Err("WALLET_NOT_FOUND")
    else
      var (books, reserved) :- ReserveFunds(s.books, tenant, pid, s.payments[pid].wallet.value, s.payments[pid].total);
      var s1 :- Transition(s.(books := books), pid, if reserved then Queued else Failed);
      Ok(Notify(s1, if reserved then QueuedNotice else FailedNotice, pid))
  }

  function ContextOf(p: Payment): Policy.Context {
    Policy.Context(p.amount, p.facts.product, p.facts.channel, p.facts.branch, p.facts.department, p.facts.riskFlags)
  }

  function Flagged(s: State, pid: nat, amlHit: bool): State
    requires pid < |s.payments|
  {
    if !amlHit then s
    else
      var p := s.payments[pid];
      SetPayment(s, pid, p.(facts := p.facts.(riskFlags := p.facts.riskFlags + [Policy.AML_FLAG])))
  }

  /** Policy decision: approval steps make it PENDING_APPROVAL with a request, none queues it. */
  function DecideSubmission(s: State, tenant: nat, pid: nat, rules: seq<Policy.Rule>, amlHit: bool): (r: Result<State>)
    requires pid < |s.payments|
    ensures r.Ok? ==> r.value.records == s.records && r.value.attempts == s.attempts && r.value.orphans == s.orphans
  {
    var ctx := ContextOf(s.payments[pid]);
    var decided := Policy.SubmissionRules(rules, ctx, amlHit);
    var steps := Policy.Evaluate(decided, ctx);
    if |steps| == 0 then QueuePayment(s, tenant, pid)
    else if !Policy.ValidRules(decided) then Err("INVALID_RULES")
    else
      var s1 :- Transition(s.(requests := s.requests + [ApprovalRef(pid, steps)]), pid, PendingApproval);
      Ok(Notify(s1, ApprovalRequested, pid))
  }

  function SubmitPayment(s: State, tenant: nat, pid: nat, rules: seq<Policy.Rule>, payeeApproved: bool, amlHit: bool): (r: Result<State>)
    ensures r.Ok? ==> r.value.records == s.records && r.value.attempts == s.attempts && r.value.orphans == s.orphans
  {
    if !Has(s, tenant, pid) then Err("PAYMENT_NOT_FOUND")
    else if s.payments[pid].status !in {Draft, Validating, Rejected, Failed} then Err("INVALID_STATE")
    else if s.payments[pid].wallet.None? then Err("NO_WALLET")
    else if !payeeApproved then Err("PAYEE_NOT_APPROVED")
    else
      var s1 :- Transition(s, pid, Validating);
      DecideSubmission(Flagged(s1, pid, amlHit), tenant, pid, rules, amlHit)
  }

  function ApproveQueued(s: State, tenant: nat, pid: nat): (r: Result<State>) {
    if !Has(s, tenant, pid) then Err("PAYMENT_NOT_FOUND")
    else if s.payments[pid].status != PendingApproval then Err("INVALID_STATE")
    else
      var s1 :- Transition(s, pid, Approved);
      QueuePayment(s1, tenant, pid)
  }

  function CancelPayment(s: State, tenant: nat, pid: nat): (r: Result<State>) {
    if !Has(s, tenant, pid) then Err("PAYMENT_NOT_FOUND")
    else if s.payments[pid].status !in {Draft, Rejected, Failed, Queued} then Err("INVALID_STATE")
    else
      var s1 :- Transition(s, pid, Cancelled);
      Ok(Notify(s1, CancelledNotice, pid))
  }

  function FundWallet(s: State, tenant: nat, wallet: nat, amount: int): (r: Result<State>) {
    if wallet >= |s.books.wallets| || s.books.wallets[wallet].tenant != tenant then Err("WALLET_NOT_FOUND")
    else
      var books :- Credit(s.books, tenant, wallet, FundingRef, amount);
      Ok(Notify(s.(books := books), Funded, wallet))
  }

  /** Credits a wallet with money that came in through a collection. */
  function ReceiveFunds(s: State, tenant: nat, wallet: nat, ref: Reference, amount: int): (r: Result<State>) {
    var books :- Credit(s.books, tenant, wallet, ref, amount);
    Ok(s.(books := books))
  }

  /** Applies or releases the payment's reservation if it is still held. */
  function ConsumeHold(s: State, pid: nat, apply: bool): (r: Result<State>)
    ensures r.Ok? ==> r.value.records == s.records && r.value.attempts == s.attempts && r.value.orphans == s.orphans
  {
    match FindReservation(s.books.reservations, pid)
    case None => Ok(s)
    case Some(k) =>
      var books :- if apply then ApplyReservation(s.books, k) else ReleaseReservation(s.books, k);
      Ok(s.(books := books))
  }

  /** The status and provider reference of a payment that succeeded. */
  function MarkSuccess(s: State, pid: nat, ref: string): (r: Result<State>)
    ensures r.Ok? ==> pid < |s.payments| == |r.value.payments| && r.value.records == s.records && r.value.attempts == s.attempts && r.value.orphans == s.orphans
  {
    var s1 :- Transition(s, pid, Success);
    Ok(SetPayment(s1, pid, s1.payments[pid].(providerRef := ref)))
  }

  function PostSuccess(s: State, pid: nat): (r: Result<State>)
    requires pid < |s.payments|
  {
    var p := s.payments[pid];
    var books :- PostPaymentSuccess(s.books, p.tenant, pid, p.wallet, p.amount, p.fee);
    Ok(Notify(s.(books := books), Succeeded, pid))
  }

  /** Hold applied, status and reference set, journal posted, event emitted. */
  function BookSuccess(s: State, pid: nat, ref: string): (r: Result<State>)
    ensures r.Ok? ==> r.value.records == s.records && r.value.attempts == s.attempts && r.value.orphans == s.orphans
  {
    var s1 :- ConsumeHold(s, pid, true);
    var s2 :- MarkSuccess(s1, pid, ref);
    PostSuccess(s2, pid)
  }

  function ApplyProviderSuccess(s: State, pid: nat, ref: string): (r: Result<State>)
    ensures r.Ok? ==> r.value.records == s.records && r.value.attempts == s.attempts && r.value.orphans == s.orphans
  {
    if pid >= |s.payments| then Err("PAYMENT_NOT_FOUND")
    else if s.payments[pid].status == Success then Ok(s)
    else if s.payments[pid].status !in {Processing, ProviderPending, Queued} then Err("INVALID_STATE")
    else BookSuccess(s, pid, ref)
  }

  /** Whatever is held is released and the payment fails. */
  function BookFailure(s: State, pid: nat): (r: Result<State>)
    ensures r.Ok? ==> r.value.records == s.records && r.value.attempts == s.attempts && r.value.orphans == s.orphans
  {
    var s1 :- ConsumeHold(s, pid, false);
    var s2 :- Transition(s1, pid, Failed);
    Ok(Notify(s2, FailedNotice, pid))
  }

  function ApplyProviderFailure(s: State, pid: nat): (r: Result<State>)
    ensures r.Ok? ==> r.value.records == s.records && r.value.attempts == s.attempts && r.value.orphans == s.orphans
  {
    if pid >= |s.payments| then Err("PAYMENT_NOT_FOUND")
    else if s.payments[pid].status in {Failed, Cancelled, Reversed} then Ok(s)
    else BookFailure(s, pid)
  }

  function RecordAttempt(s: State, pid: nat, ref: string): State {
    s.(attempts := s.attempts + [Attempt(pid, ref)])
  }

  /** What an execution job commits once the provider has answered and the attempt is recorded. */
  function AfterCall(s: State, pid: nat, ref: string, answer: ProviderAnswer): (r: Result<State>)
    ensures r.Ok? ==> r.value.records == s.records && r.value.attempts == s.attempts && r.value.orphans == s.orphans
  {
    match answer
    case Threw => Transition(s, pid, ProviderPending)
    case Answered(status, _) =>
      match status
      case PSuccess => ApplyProviderSuccess(s, pid, ref)
      case PFailed => ApplyProviderFailure(s, pid)
      case PReversed => Transition(s, pid, Status.Reversed)
      case PPending => Transition(s, pid, ProviderPending)
      case PUnknown => Transition(s, pid, ProviderPending)
  }

  /** The provider's reference, or the one the platform sent. */
  function ReferenceOf(p: Payment, answer: ProviderAnswer): string {
    if answer.Answered? && answer.ref.Some? then answer.ref.value else "ZF-" + p.number
  }

  /** Longest provider reference the attempts table holds. */
  const REFERENCE_WIDTH := 200

  /** One execution job. Only QUEUED payments are executed; every other job is a no-op. */
  function ExecutePayment(s: State, tenant: nat, pid: nat, answer: ProviderAnswer): (r: Result<State>)
    ensures r.Ok? ==> r.value.records == s.records && r.value.orphans == s.orphans
  {
    if !Has(s, tenant, pid) then Err("PAYMENT_NOT_FOUND")
    else if s.payments[pid].status != Queued then Ok(s)
    else
      var ref := ReferenceOf(s.payments[pid], answer);
      var s1 :- Transition(s, pid, Processing);
      if |ref| > REFERENCE_WIDTH then Err("22001")
      else AfterCall(RecordAttempt(s1, pid, ref), pid, ref, answer)
  }

  predicate EventSeen(events: seq<WebhookEvent>, id: string) {
    exists i :: 0 <= i < |events| && events[i].id == id
  }

  /** Stores a verified event once: a replay is dropped (unique provider_event_id). */
  function IngestWebhook(s: State, id: string, ref: string, outcome: Outcome): State {
    if EventSeen(s.events, id) then s
    else s.(events := s.events + [WebhookEvent(id, ref, outcome, Received)])
  }

  /** The latest attempt with a provider reference. */
  function FindAttempt(attempts: seq<Attempt>, ref: string): (r: Option<nat>)
    ensures r.Some? ==> r.value < |attempts| && attempts[r.value].ref == ref
  {
    if |attempts| == 0 then None
    else if attempts[|attempts| - 1].ref == ref then Some(|attempts| - 1)
    else FindAttempt(attempts[..|attempts| - 1], ref)
  }

  function MarkEvent(s: State, e: nat, status: EventStatus): State
    requires e < |s.events|
  {
    s.(events := s.events[e := s.events[e].(status := status)])
  }

  /** A REVERSED webhook writes the status directly, past the transition table and without a journal. */
  function ForceReversed(s: State, pid: nat): State {
    if pid < |s.payments| then SetPayment(s, pid, s.payments[pid].(status := Reversed)) else s
  }

  function ApplyCallback(s: State, pid: nat, ref: string, outcome: Outcome): (r: Result<State>)
    ensures r.Ok? ==> r.value.records == s.records && r.value.attempts == s.attempts && r.value.orphans == s.orphans
  {
    match outcome
    case ReportsSuccess => ApplyProviderSuccess(s, pid, ref)
    case ReportsFailure => ApplyProviderFailure(s, pid)
    case ReportsReversal => Ok(ForceReversed(s, pid))
    case ReportsUnknown => Ok(s)
  }

  /** A reconciliation item for a reference nobody knows, once per source and reference. */
  function RecordOrphan(s: State, source: OrphanSource, ref: string): State {
    if Orphan(source, ref) in s.orphans then s else s.(orphans := s.orphans + [Orphan(source, ref)])
  }

  /** Processes an event that no collection answers to. */
  function ProcessWebhookEvent(s: State, e: nat): (r: Result<State>) {
    if e >= |s.events| then Err("NOT_FOUND")
    else if s.events[e].status == Processed then Ok(s)
    else if s.events[e].ref == "" then Ok(MarkEvent(s, e, EventFailed))
    else
      match FindAttempt(s.attempts, s.events[e].ref)
      case None => Ok(RecordOrphan(MarkEvent(s, e, Unmatched), FromWebhook, s.events[e].ref))
      case Some(a) =>
        var s1 :- ApplyCallback(s, s.attempts[a].payment, s.events[e].ref, s.events[e].outcome);
        Ok(if e < |s1.events| then MarkEvent(s1, e, Processed) else s1)
  }

  /** The event's reference is known to no payment attempt. */
  predicate Unattempted(s: State, e: nat) {
    e < |s.events| && s.events[e].status != Processed && s.events[e].ref != "" && FindAttempt(s.attempts, s.events[e].ref).None?
  }

  /** Marks an event that was handed to a collection. */
  function AcknowledgeEvent(s: State, e: nat): (r: Result<State>) {
    if Unattempted(s, e) then Ok(MarkEvent(s, e, Processed)) else Err("NOT_FOUND")
  }

  /** The transaction the stuck-payment monitor runs for a payment it has polled. */
  function StatusPoll(s: State, pid: nat, ref: string, outcome: Outcome): (r: Result<State>) {
    match outcome
    case ReportsSuccess => ApplyProviderSuccess(s, pid, ref)
    case ReportsFailure => ApplyProviderFailure(s, pid)
    case ReportsReversal => Transition(s, pid, Reversed)
    case ReportsUnknown => Ok(s)
  }

  function AddReversal(s: State, pid: nat, processed: bool): State {
    s.(reversals := s.reversals + [Reversal(pid, processed)])
  }

  /** Whether the reversal row found for a payment is PROCESSED. */
  function ReversalProcessed(rs: seq<Reversal>, pid: nat): bool {
    |rs| > 0 &&
    if rs[|rs| - 1].payment == pid then rs[|rs| - 1].processed
    else ReversalProcessed(rs[..|rs| - 1], pid)
  }

  /** Reverses a payment; the answer is what the provider's reversal call came back with. */
  function RequestReversal(s: State, tenant: nat, pid: nat, answer: ProviderAnswer): (r: Result<State>) {
    if !Has(s, tenant, pid) then Err("PAYMENT_NOT_FOUND")
    else if s.payments[pid].status !in {Success, ProviderPending} then Err("INVALID_STATE")
    else if s.payments[pid].providerRef == "" then Err("NO_PROVIDER_REF")
    else if ReversalProcessed(s.reversals, pid) then Ok(s)
    else if answer.Threw? then Err("PROVIDER_ERROR")
    else
      var p := s.payments[pid];
      if answer.status == PSuccess then
        var s1 :- Transition(AddReversal(s, pid, true), pid, Status.Reversed);
        var books :- PostReversal(s1.books, tenant, pid, p.wallet, p.amount);
        Ok(Notify(s1.(books := books), ReversedNotice, pid))
      else
        Transition(AddReversal(s, pid, false), pid, ProviderPending)
  }

  /** Creates the float-funded payment of a batch row, already QUEUED. */
  function MaterializeRow(s: State, tenant: nat, amount: int, key: string, number: string, facts: Facts): (r: Result<State>) {
    if KeyTaken(s.payments, tenant, key) then Err("23505")
    else Ok(s.(payments := s.payments + [Payment(tenant, number, None, amount, 0, amount, key, facts, Queued, 1, "")]))
  }

  function EnsureSystemChart(s: State, tenant: nat): State {
    s.(books := s.books.(accounts := s.books.accounts
        + {Clearing(tenant), FloatLiability(tenant), FeeRevenue(tenant), ProviderSettlement(tenant)}))
  }

  // --------------------------------------------------------------------- runs

  /** Everything that can happen to the tables; jobs, callbacks and polls may repeat in any order. */
  datatype Command =
    | DoEnsureChart(tenant: nat)
    | DoCreate(tenant: nat, wallet: nat, amount: int, fee: int, key: string, number: string, facts: Facts)
    | DoForgetKey(tenant: nat, key: string)
    | DoMaterialize(tenant: nat, amount: int, key: string, number: string, facts: Facts)
    | DoSubmit(tenant: nat, payment: nat, rules: seq<Policy.Rule>, payeeApproved: bool, amlHit: bool)
    | DoApprove(tenant: nat, payment: nat)
    | DoCancel(tenant: nat, payment: nat)
    | DoFund(tenant: nat, wallet: nat, amount: int)
    | DoReceive(tenant: nat, wallet: nat, source: Reference, amount: int)
    | DoExecute(tenant: nat, payment: nat, answer: ProviderAnswer)
    | DoIngest(id: string, ref: string, outcome: Outcome)
    | DoProcessEvent(event: nat)
    | DoAcknowledge(event: nat)
    | DoUnmatched(transaction: string)
    | DoStatusPoll(payment: nat, ref: string, outcome: Outcome)
    | DoReverse(tenant: nat, payment: nat, answer: ProviderAnswer)

  /** What a command commits, or Err when it throws. */
  function Perform(s: State, c: Command): (r: Result<State>) {
    match c
    case DoEnsureChart(t) => Ok(EnsureSystemChart(s, t))
    case DoCreate(t, w, amount, fee, key, number, facts) =>
      var (s', _) :- CreatePayment(s, t, w, amount, fee, key, number, facts); Ok(s')
    case DoForgetKey(t, key) => Ok(s.(records := s.records - {(t, key)}))
    case DoMaterialize(t, amount, key, number, facts) => MaterializeRow(s, t, amount, key, number, facts)
    case DoSubmit(t, pid, rules, payeeApproved, amlHit) => SubmitPayment(s, t, pid, rules, payeeApproved, amlHit)
    case DoApprove(t, pid) => ApproveQueued(s, t, pid)
    case DoCancel(t, pid) => CancelPayment(s, t, pid)
    case DoFund(t, w, amount) => FundWallet(s, t, w, amount)
    case DoReceive(t, w, ref, amount) => ReceiveFunds(s, t, w, ref, amount)
    case DoExecute(t, pid, answer) => ExecutePayment(s, t, pid, answer)
    case DoIngest(id, ref, outcome) => Ok(IngestWebhook(s, id, ref, outcome))
    case DoProcessEvent(e) => ProcessWebhookEvent(s, e)
    case DoAcknowledge(e) => AcknowledgeEvent(s, e)
    case DoUnmatched(transaction) => Ok(RecordOrphan(s, FromPaybill, transaction))
    case DoStatusPoll(pid, ref, outcome) => StatusPoll(s, pid, ref, outcome)
    case DoReverse(t, pid, answer) => RequestReversal(s, t, pid, answer)
  }

  /** A thrown command rolls back. */
  function Next(s: State, c: Command): State {
    match Perform(s, c)
    case Ok(s') => s'
    case Err(_) => s
  }

  function Run(s: State, cs: seq<Command>): State {
    if |cs| == 0 then s else Next(Run(s, cs[..|cs| - 1]), cs[|cs| - 1])
  }

  lemma RunExtends(s: State, cs: seq<Command>, c: Command)
    ensures Run(s, cs + [c]) == Next(Run(s, cs), c)
  {
    assert (cs + [c])[..|cs|] == cs;
  }
}
