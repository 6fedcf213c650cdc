/** What settling, failing and expiring a collection leaves behind, row by row (packages/payments-core/src/collections.ts and webhooks.ts). */
module Settlements {
  import opened Prelude
  import opened Ledger
  import opened Movements
  import opened Collections
  import CollectionTheorems
  import Fiscal
  import Payments
  import Tax
  import Text

  /** The amount that counts: the provider's when it reports a positive one, otherwise the one asked for. */
  predicate Counts(c: Collection, reported: Option<int>, x: int) {
    (reported.Some? && reported.value > 0 && x == reported.value)
    || ((reported.None? || reported.value <= 0) && x == c.amount)
  }

  /** The invoice a collection pays: an invoice document of its tenant. */
  predicate Pays(docs: seq<Fiscal.Doc>, c: Collection, i: nat) {
    c.invoice == Some(i) && i < |docs| && docs[i].tenant == c.tenant && docs[i].kind == Fiscal.Invoice
  }

  /** The money is on the invoice, if there is one, and nothing else changed there. */
  ghost predicate InvoiceRose(f: Fiscal.State, f': Fiscal.State, c: Collection, x: int) {
    && f'.devices == f.devices && f'.sends == f.sends && |f'.docs| == |f.docs|
    && forall i | 0 <= i < |f.docs| ::
         if Pays(f.docs, c, i) then
           f'.docs[i] == f.docs[i].(paid := f.docs[i].paid + x, settled := if f.docs[i].paid + x >= f.docs[i].total then Fiscal.Paid else Fiscal.Partial)
         else f'.docs[i] == f.docs[i]
  }

  /** Collection id was settled for x: the row, the wallet with its entry and journal, the invoice and the announcement all say x. */
  ghost predicate SettledFor(s: State, s': State, id: nat, no: Option<string>, viaLink: bool, x: int) {
    && id < |s.collections|
    && (var c := s.collections[id];
        var ref := if !viaLink then CollectionRef(id) else if c.link.Some? then LinkRef(c.link.value) else LinkRef(id);
        && s'.collections == s.collections[id := c.(status := Success, amount := x, receiptNo := if no.Some? then no else c.receiptNo)]
        && s'.received == s.received + [id]
        && s'.pay == s.pay.(books := s'.pay.books)
        && Banked(s.pay.books, s'.pay.books, c.tenant, c.wallet, ref, x)
        && InvoiceRose(s.fiscal, s'.fiscal, c, x))
  }

  /** Another collection of the channel has the provider's receipt number. */
  predicate NumberTaken(s: State, id: nat, no: Option<string>)
    requires id < |s.collections|
  {
    var c := s.collections[id];
    exists i :: 0 <= i < |s.collections| && i != id && s.collections[i].channel == c.channel && s.collections[i].receiptNo.Some?
                && s.collections[i].receiptNo == if no.Some? then no else c.receiptNo
  }

  /** x can be credited for the collection. */
  predicate Creditable(s: State, id: nat, x: int)
    requires id < |s.collections|
  {
    var c := s.collections[id];
    x > 0 && c.wallet < |s.pay.books.wallets| && Mirrored(s.pay.books, c.tenant, c.wallet) && FloatLiability(c.tenant) in s.pay.books.accounts
  }

  lemma InvoiceCredited(f: Fiscal.State, c: Collection, x: int)
    ensures InvoiceRose(f, if c.invoice.Some? then ApplyInvoicePayment(f, c.tenant, c.invoice.value, x) else f, c, x)
  {
  }

  lemma NumberTakenIff(s: State, id: nat, no: Option<string>)
    requires id < |s.collections|
    ensures var c := s.collections[id];
      ReceiptTaken(s.collections, c.channel, if no.Some? then no else c.receiptNo, id) <==> NumberTaken(s, id, no)
  {
  }

  /** The settlement as credit, row, invoice and announcement. */
  lemma SettlementIs(s: State, id: nat, reported: Option<int>, no: Option<string>, viaLink: bool, x: int)
    requires id < |s.collections| && Counts(s.collections[id], reported, x)
    requires s.collections[id].status !in {Success, CollectionStatus.Cancelled}
    ensures var c, r := s.collections[id], Settle(s, id, reported, no, viaLink);
      var ref := if !viaLink then CollectionRef(id) else if c.link.Some? then LinkRef(c.link.value) else LinkRef(id);
      var credit := Credit(s.pay.books, c.tenant, c.wallet, ref, x);
      && (r.Ok? <==> credit.Ok? && !ReceiptTaken(s.collections, c.channel, if no.Some? then no else c.receiptNo, id))
      && (r.Ok? ==>
            r.value == (State(s.pay.(books := credit.value),
                              if c.invoice.Some? then ApplyInvoicePayment(s.fiscal, c.tenant, c.invoice.value, x) else s.fiscal,
                              s.collections[id := c.(status := Success, amount := x, receiptNo := if no.Some? then no else c.receiptNo)],
                              s.received + [id]), false))
  {
  }

  /**
   A settlement credits exactly a collection that is neither SUCCESS nor CANCELLED, also one that had FAILED or EXPIRED; the amount
   that counts goes to the row, the wallet, the journal and the invoice alike.
   */
  lemma SettlesIff(s: State, id: nat, reported: Option<int>, no: Option<string>, viaLink: bool, x: int)
    requires id < |s.collections| && Counts(s.collections[id], reported, x)
    requires s.collections[id].status !in {Success, CollectionStatus.Cancelled}
    ensures var r := Settle(s, id, reported, no, viaLink);
      && (r.Ok? <==> Creditable(s, id, x) && !NumberTaken(s, id, no))
      && (r.Ok? ==> !r.value.1 && SettledFor(s, r.value.0, id, no, viaLink, x))
  {
    var c := s.collections[id];
    var ref := if !viaLink then CollectionRef(id) else if c.link.Some? then LinkRef(c.link.value) else LinkRef(id);
    SettlementIs(s, id, reported, no, viaLink, x);
    CreditedIff(s.pay.books, c.tenant, c.wallet, ref, x);
    NumberTakenIff(s, id, no);
    InvoiceCredited(s.fiscal, c, x);
  }

  /** Settled for the amount that counts. */
  ghost predicate SettledForWhatCounts(s: State, s': State, id: nat, reported: Option<int>, no: Option<string>, viaLink: bool) {
    id < |s.collections| && forall x | Counts(s.collections[id], reported, x) :: SettledFor(s, s', id, no, viaLink, x)
  }

  lemma SettlementCounts(s: State, s': State, id: nat, reported: Option<int>, no: Option<string>, viaLink: bool)
    requires Settle(s, id, reported, no, viaLink) == Ok((s', false))
    ensures SettledForWhatCounts(s, s', id, reported, no, viaLink)
  {
    forall x | Counts(s.collections[id], reported, x) ensures SettledFor(s, s', id, no, viaLink, x) {
      SettlesIff(s, id, reported, no, viaLink, x);
    }
  }

  /** One that is SUCCESS is left alone, and one that is CANCELLED is refused. */
  lemma SettledOnlyOnce(s: State, id: nat, reported: Option<int>, no: Option<string>, viaLink: bool)
    requires id < |s.collections|
    ensures s.collections[id].status == Success ==> Settle(s, id, reported, no, viaLink) == Ok((s, true))
    ensures s.collections[id].status == CollectionStatus.Cancelled ==> Settle(s, id, reported, no, viaLink) == Err("CANCELLED")
  {
  }

  // ------------------------------------------------------------------------ events

  /** Event e is unprocessed, no payment attempt has its reference, and collection id is the latest that does. */
  ghost predicate Concerns(s: State, e: nat, id: nat) {
    && e < |s.pay.events| && s.pay.events[e].status != Payments.Processed && s.pay.events[e].ref != ""
    && (forall a | 0 <= a < |s.pay.attempts| :: s.pay.attempts[a].ref != s.pay.events[e].ref)
    && id < |s.collections| && s.collections[id].ref == s.pay.events[e].ref
    && forall i | id < i < |s.collections| :: s.collections[i].ref != s.pay.events[e].ref
  }

  lemma {:induction false} NoAttempt(attempts: seq<Payments.Attempt>, ref: string)
    requires forall a | 0 <= a < |attempts| :: attempts[a].ref != ref
    ensures Payments.FindAttempt(attempts, ref).None?
  {
    if |attempts| > 0 {
      NoAttempt(attempts[..|attempts| - 1], ref);
    }
  }

  lemma {:induction false} LatestReference(cs: seq<Collection>, ref: string, id: nat)
    requires id < |cs| && cs[id].ref == ref && forall i | id < i < |cs| :: cs[i].ref != ref
    ensures FindReference(cs, ref) == Some(id)
  {
    if id < |cs| - 1 {
      LatestReference(cs[..|cs| - 1], ref, id);
    }
  }

  /** The event is marked, unless the worker dies first. */
  predicate MarkedUnless(s: State, s': State, e: nat, dies: bool) {
    && e < |s.pay.events|
    && s'.pay.events == if dies then s.pay.events else s.pay.events[e := s.pay.events[e].(status := Payments.Processed)]
  }

  /** The state with the events as they were in another one. */
  function WithEvents(s': State, s: State): State {
    s'.(pay := s'.pay.(events := s.pay.events))
  }

  /** An event of a collection commits what its outcome does to the collection, and its mark. */
  lemma ReportedThenMarked(s: State, e: nat, id: nat, reported: Option<int>, no: Option<string>, dies: bool)
    requires Concerns(s, e, id)
    ensures var r, report := ProcessEvent(s, e, reported, no, dies), Report(s, id, s.pay.events[e].outcome, reported, no);
      && (r.Ok? <==> report.Ok?)
      && (r.Ok? ==> report.value.pay.events == s.pay.events && WithEvents(r.value, s) == report.value && MarkedUnless(s, r.value, e, dies))
  {
    NoAttempt(s.pay.attempts, s.pay.events[e].ref);
    LatestReference(s.collections, s.pay.events[e].ref, id);
    var report := Report(s, id, s.pay.events[e].outcome, reported, no);
    assert report.Ok? ==> report.value.pay == s.pay.(books := report.value.pay.books);
  }

  /** A success event settles an unsettled collection for the amount that counts; processed again it only marks itself. */
  lemma SuccessEventSettles(s: State, e: nat, id: nat, reported: Option<int>, no: Option<string>, dies: bool, x: int)
    requires Concerns(s, e, id) && s.pay.events[e].outcome == Payments.ReportsSuccess && Counts(s.collections[id], reported, x)
    requires s.collections[id].status != CollectionStatus.Cancelled
    ensures var settled, r := s.collections[id].status == Success, ProcessEvent(s, e, reported, no, dies);
      && (r.Ok? <==> settled || (Creditable(s, id, x) && !NumberTaken(s, id, no)))
      && (r.Ok? ==> MarkedUnless(s, r.value, e, dies) && if settled then WithEvents(r.value, s) == s else SettledFor(s, WithEvents(r.value, s), id, no, false, x))
  {
    ReportedThenMarked(s, e, id, reported, no, dies);
    if s.collections[id].status == Success {
      SettledOnlyOnce(s, id, reported, no, false);
    } else {
      SettlesIff(s, id, reported, no, false, x);
    }
  }

  /** A failure event fails a PENDING collection and no other; an event with any other outcome only marks itself. */
  lemma OtherEventsMoveNoMoney(s: State, e: nat, id: nat, reported: Option<int>, no: Option<string>, dies: bool)
    requires Concerns(s, e, id) && s.pay.events[e].outcome != Payments.ReportsSuccess
    ensures var c, r := s.collections[id], ProcessEvent(s, e, reported, no, dies);
      var fails := s.pay.events[e].outcome == Payments.ReportsFailure && c.status == Pending;
      && r.Ok? && MarkedUnless(s, r.value, e, dies)
      && WithEvents(r.value, s) == s.(collections := s.collections[id := if fails then c.(status := CollectionStatus.Failed) else c])
  {
    ReportedThenMarked(s, e, id, reported, no, dies);
  }

  /** What expiry and failure do to a row. */
  lemma ExpiryIs(s: State, stale: set<nat>, i: nat)
    requires i < |s.collections|
    ensures var c, s' := s.collections[i], Expire(s, stale);
      && |s'.collections| == |s.collections|
      && s'.collections[i] == (if i in stale && c.status == Pending && c.channel == StkPush then c.(status := CollectionStatus.Expired) else c)
  {
  }

  // ------------------------------------------------------------- rows and receipts

  /** Some row of the tenant has the idempotency key, or some row of the channel the receipt number. */
  predicate Clashes(cs: seq<Collection>, c: Collection) {
    || (c.key.Some? && exists i :: 0 <= i < |cs| && cs[i].tenant == c.tenant && cs[i].key == c.key)
    || (c.receiptNo.Some? && exists i :: 0 <= i < |cs| && cs[i].channel == c.channel && cs[i].receiptNo == c.receiptNo)
  }

  /** A collection is inserted, PENDING and without a receipt, exactly for a positive amount into an existing wallet, for an invoice of the tenant if any, and without a clash. */
  lemma InsertedIff(s: State, c: Collection)
    ensures var r := Insert(s, c);
      && (r.Ok? <==>
            && (c.invoice.Some? ==> Pays(s.fiscal.docs, c, c.invoice.value))
            && c.wallet < |s.pay.books.wallets| && c.amount > 0 && !Clashes(s.collections, c))
      && (r.Ok? ==>
            && r.value.1 == |s.collections|
            && r.value.0 == State(s.pay, s.fiscal, s.collections + [c.(status := Pending, receipt := None)], s.received))
  {
    assert ReceiptTaken(s.collections, c.channel, c.receiptNo, |s.collections|) <==>
           c.receiptNo.Some? && exists i :: 0 <= i < |s.collections| && s.collections[i].channel == c.channel && s.collections[i].receiptNo == c.receiptNo;
  }

  /** A receipt is due for a settled collection that has none, in a business whose device is active and issues receipts by itself. */
  predicate ReceiptDue(s: State, id: nat) {
    && id < |s.collections| && s.collections[id].status == Success && s.collections[id].receipt.None?
    && s.collections[id].tenant in s.fiscal.devices
    && s.fiscal.devices[s.collections[id].tenant].active && s.fiscal.devices[s.collections[id].tenant].autoReceipt
  }

  /** One document more, which the collection points to: for the money received; a payment receipt for its invoice, or a fiscal receipt still to be signed. */
  ghost predicate Receipted(s: State, s': State, id: nat) {
    && id < |s.collections| && |s'.fiscal.docs| == |s.fiscal.docs| + 1 && s'.fiscal.docs[..|s.fiscal.docs|] == s.fiscal.docs
    && s'.fiscal.devices == s.fiscal.devices && s'.fiscal.sends == s.fiscal.sends
    && s' == s.(fiscal := s'.fiscal, collections := s.collections[id := s.collections[id].(receipt := Some(|s.fiscal.docs|))])
    && (var c, d := s.collections[id], s'.fiscal.docs[|s.fiscal.docs|];
        && d.tenant == c.tenant && d.collection == Some(id) && d.original == c.invoice && d.total == d.paid == c.amount && d.invoiceNo.None?
        && d.kind == (if c.invoice.Some? then Fiscal.PaymentReceipt else Fiscal.Receipt)
        && d.status == (if c.invoice.Some? then Fiscal.Issued else Fiscal.Draft)
        && d.settled == (if c.invoice.Some? then Fiscal.NotApplicable else Fiscal.Paid))
  }

  /** The receipt's line, whatever tax type the device is set to. */
  lemma ReceiptLine(amount: int, description: string, taxType: string)
    requires amount > 0 && taxType in Tax.TAX_TYPES && exists i :: 0 <= i < |description| && !Text.IsSpace(description[i])
    ensures Tax.Compute([Tax.LineInput(description, 1000, amount, 0, taxType)], true).Ok?
  {
    var inputs := [Tax.LineInput(description, 1000, amount, 0, taxType)];
    Tax.LineCharged(inputs[0], true, amount);
    Tax.DocumentAcceptedIff(inputs, true, [amount]);
    assert [amount][0] > inputs[0].discount;
  }

  /** A receipt is issued exactly when one is due; otherwise nothing happens. */
  lemma ReceiptIssuedIff(s: State, id: nat, description: string)
    requires exists i :: 0 <= i < |description| && !Text.IsSpace(description[i])
    requires id < |s.collections| ==> s.collections[id].amount > 0
    ensures IssueReceipt(s, id, description).Ok?
    ensures ReceiptDue(s, id) ==> Receipted(s, IssueReceipt(s, id, description).value, id)
    ensures !ReceiptDue(s, id) ==> IssueReceipt(s, id, description).value == s
  {
    if ReceiptDue(s, id) && s.collections[id].invoice.None? {
      var c := s.collections[id];
      var t := s.fiscal.devices[c.tenant].taxType;
      ReceiptLine(c.amount, description, if t in Tax.TAX_TYPES then t else "B");
      CollectionTheorems.ReceiptTotal(c.amount, description, if t in Tax.TAX_TYPES then t else "B");
    }
  }
}
