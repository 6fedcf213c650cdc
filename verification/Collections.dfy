/**
 Money coming in (packages/payments-core/src/collections.ts and the receipt side
 of packages/etims/src/service.ts). A collection is inserted PENDING, then
 settled, failed or expired by callbacks that may repeat and come late; settling
 credits the wallet, pays the invoice and announces the receipt in one transaction.
 */
module Collections {
  import opened Prelude
  import opened Sums
  import opened Ledger
  import Payments
  import Fiscal
  import Tax

  datatype Channel = StkPush | Paybill | PaymentLink | BankTransfer

  datatype CollectionStatus = Pending | Success | Failed | Expired | Cancelled

  /** A collection row; an unset provider reference is "". */
  datatype Collection = Collection(
    tenant: nat, wallet: nat, channel: Channel, status: CollectionStatus, amount: int,
    invoice: Option<nat>, link: Option<nat>, receiptNo: Option<string>, key: Option<string>, receipt: Option<nat>,
    ref: string)

  /** received holds the collection.received events in order. */
  datatype State = State(pay: Payments.State, fiscal: Fiscal.State, collections: seq<Collection>, received: seq<nat>)

  function Initial(wallets: seq<Wallet>): State {
    State(Payments.Initial(wallets), Fiscal.INITIAL, [], [])
  }

  // ------------------------------------------------------------------ operations

  /** Unique index on (tenant, idempotency key). */
  predicate KeyTaken(cs: seq<Collection>, tenant: nat, key: Option<string>) {
    key.Some? && exists i :: 0 <= i < |cs| && cs[i].tenant == tenant && cs[i].key == key
  }

  /** Unique index on (channel, receipt number), for a row other than self. */
  predicate ReceiptTaken(cs: seq<Collection>, channel: Channel, no: Option<string>, self: nat) {
    no.Some? && exists i :: 0 <= i < |cs| && i != self && cs[i].channel == channel && cs[i].receiptNo == no
  }

  /** The first wallet of a tenant in creation order. */
  function FirstWallet(wallets: seq<Wallet>, tenant: nat, k: nat): (r: Option<nat>)
    ensures r.Some? ==> k <= r.value < |wallets| && wallets[r.value].tenant == tenant
    ensures r.None? ==> forall i | k <= i < |wallets| :: wallets[i].tenant != tenant
    decreases |wallets| - k
  {
    if k >= |wallets| then None else if wallets[k].tenant == tenant then Some(k) else FirstWallet(wallets, tenant, k + 1)
  }

  predicate IsInvoice(docs: seq<Fiscal.Doc>, tenant: nat, i: nat) {
    i < |docs| && docs[i].tenant == tenant && docs[i].kind == Fiscal.Invoice
  }

  /** The one INSERT every channel ends in, under the table's constraints; an invoice was looked up before. */
  function Insert(s: State, c: Collection): (r: Result<(State, nat)>) {
    if c.invoice.Some? && !IsInvoice(s.fiscal.docs, c.tenant, c.invoice.value) then Err("INVOICE_NOT_FOUND")
    else if c.wallet >= |s.pay.books.wallets| then Err("WALLET_NOT_FOUND")
    else if c.amount <= 0 then Err("23514")
    else if KeyTaken(s.collections, c.tenant, c.key) then Err("23505")
    else if ReceiptTaken(s.collections, c.channel, c.receiptNo, |s.collections|) then Err("23505")
    else Ok((s.(collections := s.collections + [c.(status := Pending, receipt := None)]), |s.collections|))
  }

  /** Money received against an invoice. */
  function ApplyInvoicePayment(f: Fiscal.State, tenant: nat, i: nat, amount: int): Fiscal.State {
    if !IsInvoice(f.docs, tenant, i) then f
    else
      var d := f.docs[i];
      var paid := d.paid + amount;
      f.(docs := f.docs[i := d.(paid := paid, settled := if paid >= d.total then Fiscal.Paid else Fiscal.Partial)])
  }

  /** What the wallet-ledger entry of a settlement refers to. */
  function SettlementRef(c: Collection, id: nat, viaLink: bool): Reference {
    if !viaLink then CollectionRef(id) else LinkRef(if c.link.Some? then c.link.value else id)
  }

  /** The amount that really arrived, or the requested one. */
  function Received(c: Collection, amount: Option<int>): int {
    if amount.Some? && amount.value > 0 then amount.value else c.amount
  }

  /** The collection row after it is settled. */
  function SettledRow(c: Collection, amount: Option<int>, no: Option<string>): Collection {
    c.(status := Success, amount := Received(c, amount), receiptNo := if no.Some? then no else c.receiptNo)
  }

  /** Settles once: SUCCESS is a no-op, a late success after FAILED or EXPIRED still credits. True means settled before. */
  function Settle(s: State, id: nat, amount: Option<int>, no: Option<string>, viaLink: bool): (r: Result<(State, bool)>) {
    if id >= |s.collections| then Err("NOT_FOUND")
    else
      var c := s.collections[id];
      if c.status == Success then Ok((s, true))
      else if c.status == Cancelled then Err("CANCELLED")
      else
        var c' := SettledRow(c, amount, no);
        var pay :- Payments.ReceiveFunds(s.pay, c.tenant, c.wallet, SettlementRef(c, id, viaLink), c'.amount);
        if ReceiptTaken(s.collections, c.channel, c'.receiptNo, id) then Err("23505")
        else
          Ok((State(pay,
                    if c.invoice.Some? then ApplyInvoicePayment(s.fiscal, c.tenant, c.invoice.value, c'.amount) else s.fiscal,
                    s.collections[id := c'], s.received + [id]), false))
  }

  function SetStatus(s: State, id: nat, status: CollectionStatus): State
    requires id < |s.collections|
  {
    s.(collections := s.collections[id := s.collections[id].(status := status)])
  }

  function Fail(s: State, id: nat): (r: Result<State>) {
    if id >= |s.collections| then Err("NOT_FOUND")
    else if s.collections[id].status != Pending then Ok(s)
    else Ok(SetStatus(s, id, Failed))
  }

  /** Stores the reference under which the provider will report an STK prompt. */
  function Assign(s: State, id: nat, ref: string): (r: Result<State>) {
    if id >= |s.collections| then Err("NOT_FOUND")
    else Ok(s.(collections := s.collections[id := s.collections[id].(ref := ref)]))
  }

  /** The latest collection with a provider reference. */
  function FindReference(cs: seq<Collection>, ref: string): (r: Option<nat>)
    ensures r.Some? ==> r.value < |cs| && cs[r.value].ref == ref
    ensures r.None? ==> forall i | 0 <= i < |cs| :: cs[i].ref != ref
  {
    if |cs| == 0 then None
    else if cs[|cs| - 1].ref == ref then Some(|cs| - 1)
    else FindReference(cs[..|cs| - 1], ref)
  }

  /** The collection an event is about: no payment attempt has its reference, and a collection does. */
  function Answers(s: State, e: nat): (r: Option<nat>)
    ensures r.Some? ==> r.value < |s.collections|
  {
    if Payments.Unattempted(s.pay, e) then FindReference(s.collections, s.pay.events[e].ref) else None
  }

  /** What the event says happens to the collection. */
  function Report(s: State, id: nat, outcome: Payments.Outcome, amount: Option<int>, no: Option<string>): (r: Result<State>) {
    match outcome
    case ReportsSuccess => var (s', _) :- Settle(s, id, amount, no, false); Ok(s')
    case ReportsFailure => Fail(s, id)
    case ReportsReversal => Ok(s)
    case ReportsUnknown => Ok(s)
  }

  /**
   Processes a stored webhook event. That of a collection settles or fails it in a transaction of
   its own and is marked afterwards, unless the worker dies in between; amount and no are the event's.
   */
  function ProcessEvent(s: State, e: nat, amount: Option<int>, no: Option<string>, dies: bool): (r: Result<State>) {
    match Answers(s, e)
    case None =>
      var pay :- Payments.ProcessWebhookEvent(s.pay, e);
      Ok(s.(pay := pay))
    case Some(id) =>
      var s1 :- Report(s, id, s.pay.events[e].outcome, amount, no);
      if dies then Ok(s1)
      else
        var pay :- Payments.AcknowledgeEvent(s1.pay, e);
        Ok(s1.(pay := pay))
  }

  /** Expires the stale pending STK prompts. */
  function Expire(s: State, stale: set<nat>): State {
    s.(collections := seq(|s.collections|, i requires 0 <= i < |s.collections| => ExpireRow(s.collections[i], i in stale)))
  }

  function ExpireRow(c: Collection, stale: bool): Collection {
    if stale && c.status == Pending && c.channel == StkPush then c.(status := Expired) else c
  }

  /** The receipt document of a settled collection: non-fiscal when it pays an invoice, otherwise a fiscal receipt. */
  function ReceiptDoc(s: State, id: nat, description: string): (r: Result<Fiscal.Doc>)
    requires id < |s.collections| && s.collections[id].tenant in s.fiscal.devices
  {
    var c := s.collections[id];
    if c.invoice.Some? then
      Ok(Fiscal.Doc(c.tenant, Fiscal.PaymentReceipt, 0, Fiscal.Issued, None, "", 0, c.invoice, c.amount, c.amount, Fiscal.NotApplicable, Some(id)))
    else
      var device := s.fiscal.devices[c.tenant];
      var taxType := if device.taxType in Tax.TAX_TYPES then device.taxType else "B";
      var computed :- Tax.Compute([Tax.LineInput(description, 1000, c.amount, 0, taxType)], true);
      Ok(Fiscal.Doc(c.tenant, Fiscal.Receipt, 0, Fiscal.Draft, None, "", 0, None, computed.total, computed.total, Fiscal.Paid, Some(id)))
  }

  /** Issues the receipt of a collection at most once; nothing happens without a settled collection and an active device. */
  function IssueReceipt(s: State, id: nat, description: string): (r: Result<State>) {
    if id >= |s.collections| || s.collections[id].status != Success then Ok(s)
    else
      var c := s.collections[id];
      if c.receipt.Some? then Ok(s)
      else if c.tenant !in s.fiscal.devices || !s.fiscal.devices[c.tenant].active || !s.fiscal.devices[c.tenant].autoReceipt then Ok(s)
      else
        var d :- ReceiptDoc(s, id, description);
        Ok(s.(fiscal := Fiscal.AddDoc(s.fiscal, d),
              collections := s.collections[id := c.(receipt := Some(|s.fiscal.docs|))]))
  }

  // ------------------------------------------------------------------- whole runs

  /** Collections run beside every payment command and every fiscal step. */
  datatype Command =
    | DoPayment(command: Payments.Command)
    | DoFiscal(step: Fiscal.Step)
    | DoInsert(collection: Collection)
    | DoSettle(id: nat, amount: Option<int>, receiptNo: Option<string>, viaLink: bool)
    | DoFail(id: nat)
    | DoExpire(stale: set<nat>)
    | DoAssign(id: nat, ref: string)
    | DoWebhook(event: nat, amount: Option<int>, receiptNo: Option<string>, dies: bool)
    | DoReceipt(id: nat, description: string)

  function Perform(s: State, c: Command): (r: Result<State>) {
    match c
    case DoPayment(command) =>
      // Only a settlement credits a wallet for a collection, and events are looked up here first.
      if command.DoReceive? || command.DoProcessEvent? || command.DoAcknowledge? then Err("NOT_A_PAYMENT_COMMAND")
      else Ok(s.(pay := Payments.Next(s.pay, command)))
    case DoFiscal(step) => Ok(s.(fiscal := Fiscal.Next(s.fiscal, step)))
    case DoInsert(row) => var (s', _) :- Insert(s, row); Ok(s')
    case DoSettle(id, amount, no, viaLink) => var (s', _) :- Settle(s, id, amount, no, viaLink); Ok(s')
    case DoFail(id) => Fail(s, id)
    case DoExpire(stale) => Ok(Expire(s, stale))
    case DoAssign(id, ref) => Assign(s, id, ref)
    case DoWebhook(e, amount, no, dies) => ProcessEvent(s, e, amount, no, dies)
    case DoReceipt(id, description) => IssueReceipt(s, id, description)
  }

  function Next(s: State, c: Command): State {
    var r := Perform(s, c);
    if r.Ok? then r.value else s
  }

  function Run(s: State, cs: seq<Command>): State {
    if |cs| == 0 then s else Next(Run(s, cs[..|cs| - 1]), cs[|cs| - 1])
  }

  // -------------------------------------------------------------------- invariant

  predicate ForCollection(e: WalletEntry) {
    e.ref.CollectionRef? || e.ref.LinkRef?
  }

  /** The wallet-ledger entries that collections caused, in order. */
  function Inflows(es: seq<WalletEntry>): seq<WalletEntry> {
    if |es| == 0 then []
    else Inflows(es[..|es| - 1]) + if ForCollection(es[|es| - 1]) then [es[|es| - 1]] else []
  }

  /** The entry is the credit of collection id: its wallet, its final amount, all of it made available. */
  predicate InflowOf(e: WalletEntry, c: Collection, id: nat) {
    && e.kind == Fund && e.wallet == c.wallet && e.amount == c.amount && e.deltaAvailable == c.amount && e.deltaReserved == 0
    && (e.ref == SettlementRef(c, id, false) || e.ref == SettlementRef(c, id, true))
  }

  /** One credit per announced collection, in the order of the announcements; exactly the SUCCESS collections are announced, each once. */
  ghost predicate Credited(credits: seq<WalletEntry>, received: seq<nat>, cs: seq<Collection>) {
    && |credits| == |received|
    && (forall k | 0 <= k < |received| :: received[k] < |cs| && cs[received[k]].status == Success && InflowOf(credits[k], cs[received[k]], received[k]))
    && (forall k, l | 0 <= k < l < |received| :: received[k] != received[l])
    && (forall i | 0 <= i < |cs| && cs[i].status == Success :: i in received)
  }

  function PaidBy(cs: seq<Collection>, invoice: nat): nat -> int {
    (i: nat) => if i < |cs| && cs[i].status == Success && cs[i].invoice == Some(invoice) then cs[i].amount else 0
  }

  /** Money settled against an invoice. */
  function PaidTotal(cs: seq<Collection>, invoice: nat): int { Sum(|cs|, PaidBy(cs, invoice)) }

  ghost predicate InvoiceFits(d: Fiscal.Doc, paid: int) {
    && d.paid == paid && d.total > 0
    && d.settled == if paid == 0 then Fiscal.Unpaid else if paid >= d.total then Fiscal.Paid else Fiscal.Partial
  }

  ghost predicate InvoicesFit(docs: seq<Fiscal.Doc>, cs: seq<Collection>) {
    forall i | 0 <= i < |docs| && docs[i].kind == Fiscal.Invoice :: InvoiceFits(docs[i], PaidTotal(cs, i))
  }

  ghost predicate RowsFit(docs: seq<Fiscal.Doc>, wallets: nat, cs: seq<Collection>) {
    forall i | 0 <= i < |cs| ::
      && cs[i].wallet < wallets && cs[i].amount > 0
      && (cs[i].invoice.Some? ==> IsInvoice(docs, cs[i].tenant, cs[i].invoice.value))
  }

  /** d is the receipt of the collection: its money, fiscal exactly when no invoice is paid. */
  predicate ReceiptOf(d: Fiscal.Doc, c: Collection, id: nat) {
    && d.collection == Some(id) && d.tenant == c.tenant && d.total == c.amount
    && d.kind == if c.invoice.Some? then Fiscal.PaymentReceipt else Fiscal.Receipt
  }

  /** Receipts and collections point at each other. */
  ghost predicate ReceiptsFit(docs: seq<Fiscal.Doc>, cs: seq<Collection>) {
    && (forall i | 0 <= i < |cs| && cs[i].receipt.Some? ::
          cs[i].status == Success && cs[i].receipt.value < |docs| && ReceiptOf(docs[cs[i].receipt.value], cs[i], i))
    && (forall j | 0 <= j < |docs| && docs[j].collection.Some? ::
          docs[j].collection.value < |cs| && cs[docs[j].collection.value].receipt == Some(j))
  }

  ghost predicate KeysUnique(cs: seq<Collection>) {
    && (forall i, j | 0 <= i < j < |cs| && cs[i].key.Some? :: cs[i].tenant != cs[j].tenant || cs[i].key != cs[j].key)
    && (forall i, j | 0 <= i < j < |cs| && cs[i].receiptNo.Some? :: cs[i].channel != cs[j].channel || cs[i].receiptNo != cs[j].receiptNo)
  }

  ghost predicate Inv(s: State) {
    && Credited(Inflows(s.pay.books.entries), s.received, s.collections)
    && InvoicesFit(s.fiscal.docs, s.collections)
    && RowsFit(s.fiscal.docs, |s.pay.books.wallets|, s.collections)
    && ReceiptsFit(s.fiscal.docs, s.collections)
    && KeysUnique(s.collections)
    && Fiscal.Inv(s.fiscal)
  }
}
