/** What holds in every run of collections, payments and fiscal documents side by side. */
module CollectionTheorems {
  import opened Prelude
  import opened Sums
  import opened Ledger
  import opened Collections
  import Payments
  import PaymentTheorems
  import Fiscal
  import Policy
  import Tax

  // ---------------------------------------------- payments never touch collection credits

  /** No wallet appeared and no entry refers to a collection that did not before. */
  ghost predicate Untouched(b: Books, b': Books) {
    |b'.wallets| == |b.wallets| && Inflows(b'.entries) == Inflows(b.entries)
  }

  lemma InflowsAppended(es: seq<WalletEntry>, e: WalletEntry)
    ensures Inflows(es + [e]) == Inflows(es) + if ForCollection(e) then [e] else []
  {
    assert (es + [e])[..|es|] == es;
  }

  lemma MoveUntouched(b: Books, wallet: nat, kind: EntryKind, ref: Reference, amount: int, da: int, dr: int)
    requires Move(b, wallet, kind, ref, amount, da, dr).Ok? && (ref.PaymentRef? || ref.FundingRef?)
    ensures Untouched(b, Move(b, wallet, kind, ref, amount, da, dr).value)
  {
    var b' := Move(b, wallet, kind, ref, amount, da, dr).value;
    InflowsAppended(b.entries, b'.entries[|b.entries|]);
  }

  lemma QueueUntouched(s: Payments.State, tenant: nat, pid: nat)
    requires Payments.QueuePayment(s, tenant, pid).Ok?
    ensures Untouched(s.books, Payments.QueuePayment(s, tenant, pid).value.books)
  {
    var w, amount := s.payments[pid].wallet.value, s.payments[pid].total;
    var (b, reserved) := ReserveFunds(s.books, tenant, pid, w, amount).value;
    if reserved {
      MoveUntouched(s.books, w, Reserve, PaymentRef(pid), amount, -amount, amount);
    } else {
      MoveUntouched(s.books, w, ReserveDenied, PaymentRef(pid), amount, 0, 0);
    }
  }

  lemma ApproveUntouched(s: Payments.State, tenant: nat, pid: nat)
    requires Payments.ApproveQueued(s, tenant, pid).Ok?
    ensures Untouched(s.books, Payments.ApproveQueued(s, tenant, pid).value.books)
  {
    QueueUntouched(Payments.Transition(s, pid, Payments.Approved).value, tenant, pid);
  }

  lemma HoldUntouched(s: Payments.State, pid: nat, apply: bool)
    requires Payments.ConsumeHold(s, pid, apply).Ok?
    ensures Untouched(s.books, Payments.ConsumeHold(s, pid, apply).value.books)
  {
    var found := FindReservation(s.books.reservations, pid);
    if found.Some? && s.books.reservations[found.value].status == Held {
      var r := s.books.reservations[found.value];
      if apply {
        MoveUntouched(s.books, r.wallet, Apply, PaymentRef(r.payment), r.amount, 0, -r.amount);
      } else {
        MoveUntouched(s.books, r.wallet, Release, PaymentRef(r.payment), r.amount, r.amount, -r.amount);
      }
    }
  }

  lemma SuccessUntouched(s: Payments.State, pid: nat, ref: string)
    requires Payments.ApplyProviderSuccess(s, pid, ref).Ok?
    ensures Untouched(s.books, Payments.ApplyProviderSuccess(s, pid, ref).value.books)
  {
    if s.payments[pid].status != Payments.Success {
      HoldUntouched(s, pid, true);
    }
  }

  lemma FailureUntouched(s: Payments.State, pid: nat)
    requires Payments.ApplyProviderFailure(s, pid).Ok?
    ensures Untouched(s.books, Payments.ApplyProviderFailure(s, pid).value.books)
  {
    if s.payments[pid].status !in {Payments.Failed, Payments.Cancelled, Payments.Status.Reversed} {
      HoldUntouched(s, pid, false);
    }
  }

  lemma CallbackUntouched(s: Payments.State, pid: nat, ref: string, outcome: Payments.Outcome)
    requires Payments.ApplyCallback(s, pid, ref, outcome).Ok?
    ensures Untouched(s.books, Payments.ApplyCallback(s, pid, ref, outcome).value.books)
  {
    match outcome {
      case ReportsSuccess => SuccessUntouched(s, pid, ref);
      case ReportsFailure => FailureUntouched(s, pid);
      case ReportsReversal =>
      case ReportsUnknown =>
    }
  }

  lemma EventUntouched(s: Payments.State, e: nat)
    requires Payments.ProcessWebhookEvent(s, e).Ok?
    ensures Untouched(s.books, Payments.ProcessWebhookEvent(s, e).value.books)
  {
    var found := Payments.FindAttempt(s.attempts, s.events[e].ref);
    if s.events[e].status != Payments.Processed && s.events[e].ref != "" && found.Some? {
      CallbackUntouched(s, s.attempts[found.value].payment, s.events[e].ref, s.events[e].outcome);
    }
  }

  lemma PollUntouched(s: Payments.State, pid: nat, ref: string, outcome: Payments.Outcome)
    requires Payments.StatusPoll(s, pid, ref, outcome).Ok?
    ensures Untouched(s.books, Payments.StatusPoll(s, pid, ref, outcome).value.books)
  {
    if outcome.ReportsSuccess? || outcome.ReportsFailure? {
      CallbackUntouched(s, pid, ref, outcome);
    }
  }

  lemma FundUntouched(s: Payments.State, tenant: nat, wallet: nat, amount: int)
    requires Payments.FundWallet(s, tenant, wallet, amount).Ok?
    ensures Untouched(s.books, Payments.FundWallet(s, tenant, wallet, amount).value.books)
  {
    MoveUntouched(s.books, wallet, Fund, FundingRef, amount, amount, 0);
  }

  lemma ExecuteUntouched(s: Payments.State, tenant: nat, pid: nat, answer: Payments.ProviderAnswer)
    requires Payments.ExecutePayment(s, tenant, pid, answer).Ok?
    ensures Untouched(s.books, Payments.ExecutePayment(s, tenant, pid, answer).value.books)
  {
    if s.payments[pid].status == Payments.Queued && answer.Answered? {
      var ref := Payments.ReferenceOf(s.payments[pid], answer);
      var s1 := Payments.RecordAttempt(Payments.Transition(s, pid, Payments.Processing).value, pid, ref);
      if answer.status == Payments.PSuccess {
        SuccessUntouched(s1, pid, ref);
      } else if answer.status == Payments.PFailed {
        FailureUntouched(s1, pid);
      }
    }
  }

  lemma SubmitUntouched(s: Payments.State, tenant: nat, pid: nat, rules: seq<Policy.Rule>, payeeApproved: bool, amlHit: bool)
    requires Payments.SubmitPayment(s, tenant, pid, rules, payeeApproved, amlHit).Ok?
    ensures Untouched(s.books, Payments.SubmitPayment(s, tenant, pid, rules, payeeApproved, amlHit).value.books)
  {
    var s1 := Payments.Flagged(Payments.Transition(s, pid, Payments.Validating).value, pid, amlHit);
    var ctx := Payments.ContextOf(s1.payments[pid]);
    if |Policy.Evaluate(Policy.SubmissionRules(rules, ctx, amlHit), ctx)| == 0 {
      QueueUntouched(s1, tenant, pid);
    }
  }

  lemma PaymentUntouched(s: Payments.State, c: Payments.Command)
    requires !c.DoReceive?
    ensures Untouched(s.books, Payments.Next(s, c).books)
  {
    if Payments.Perform(s, c).Ok? {
      match c {
        case DoSubmit(t, pid, rules, payeeApproved, amlHit) => SubmitUntouched(s, t, pid, rules, payeeApproved, amlHit);
        case DoApprove(t, pid) => ApproveUntouched(s, t, pid);
        case DoFund(t, w, amount) => FundUntouched(s, t, w, amount);
        case DoExecute(t, pid, answer) => ExecuteUntouched(s, t, pid, answer);
        case DoProcessEvent(e) => EventUntouched(s, e);
        case DoStatusPoll(pid, ref, outcome) => PollUntouched(s, pid, ref, outcome);
        case _ =>
      }
    }
  }

  // ---------------------------------------------------------- fiscal steps keep the money columns

  predicate SameMoney(d: Fiscal.Doc, d': Fiscal.Doc) {
    d'.tenant == d.tenant && d'.kind == d.kind && d'.total == d.total && d'.paid == d.paid
    && d'.settled == d.settled && d'.collection == d.collection
  }

  predicate FreshDoc(d: Fiscal.Doc) {
    d.collection.None? && (d.kind == Fiscal.Invoice ==> d.paid == 0 && d.settled == Fiscal.Unpaid && d.total > 0)
  }

  ghost predicate MoneyKept(docs: seq<Fiscal.Doc>, docs': seq<Fiscal.Doc>) {
    && |docs| <= |docs'|
    && (forall j | 0 <= j < |docs| :: SameMoney(docs[j], docs'[j]))
    && (forall j | |docs| <= j < |docs'| :: FreshDoc(docs'[j]))
  }

  lemma FiscalKeepsMoney(f: Fiscal.State, step: Fiscal.Step)
    ensures MoneyKept(f.docs, Fiscal.Next(f, step).docs)
  {
  }

  // ---------------------------------------------------------------------- each command

  lemma NothingPaidYet(docs: seq<Fiscal.Doc>, wallets: nat, cs: seq<Collection>, i: nat)
    requires RowsFit(docs, wallets, cs) && i >= |docs|
    ensures PaidTotal(cs, i) == 0
  {
    SumZero(|cs|, PaidBy(cs, i));
  }

  lemma FiscalStepKeepsInv(s: State, step: Fiscal.Step)
    requires Inv(s)
    ensures Inv(s.(fiscal := Fiscal.Next(s.fiscal, step)))
  {
    var docs, docs' := s.fiscal.docs, Fiscal.Next(s.fiscal, step).docs;
    FiscalKeepsMoney(s.fiscal, step);
    Fiscal.NextKeepsInv(s.fiscal, step);
    forall i | 0 <= i < |docs'| && docs'[i].kind == Fiscal.Invoice ensures InvoiceFits(docs'[i], PaidTotal(s.collections, i)) {
      if i < |docs| {
        assert SameMoney(docs[i], docs'[i]);
      } else {
        NothingPaidYet(docs, |s.pay.books.wallets|, s.collections, i);
      }
    }
    ReceiptsSurvive(docs, docs', s.collections);
  }

  lemma ReceiptsSurvive(docs: seq<Fiscal.Doc>, docs': seq<Fiscal.Doc>, cs: seq<Collection>)
    requires ReceiptsFit(docs, cs) && MoneyKept(docs, docs')
    ensures ReceiptsFit(docs', cs)
  {
    forall i | 0 <= i < |cs| && cs[i].receipt.Some?
      ensures cs[i].receipt.value < |docs'| && ReceiptOf(docs'[cs[i].receipt.value], cs[i], i)
    {
      assert SameMoney(docs[cs[i].receipt.value], docs'[cs[i].receipt.value]);
    }
    forall j | 0 <= j < |docs'| && docs'[j].collection.Some?
      ensures docs'[j].collection.value < |cs| && cs[docs'[j].collection.value].receipt == Some(j)
    {
      assert j < |docs|;
      assert SameMoney(docs[j], docs'[j]);
    }
  }

  /** Rows that are not SUCCESS may change status among themselves; nothing else moves. */
  ghost predicate OnlyUnsettled(cs: seq<Collection>, cs': seq<Collection>) {
    && |cs'| == |cs|
    && forall i | 0 <= i < |cs| :: cs'[i] == cs[i] || (cs[i].status != Success && cs'[i].status != Success && cs'[i] == cs[i].(status := cs'[i].status))
  }

  lemma UnsettledKeepsInv(s: State, cs: seq<Collection>)
    requires Inv(s) && OnlyUnsettled(s.collections, cs)
    ensures Inv(s.(collections := cs))
  {
    forall i: nat ensures PaidTotal(cs, i) == PaidTotal(s.collections, i) {
      SumAgree(|cs|, PaidBy(cs, i), PaidBy(s.collections, i));
    }
    assert InvoicesFit(s.fiscal.docs, cs);
    assert RowsFit(s.fiscal.docs, |s.pay.books.wallets|, cs);
    assert KeysUnique(cs);
  }

  lemma InsertKeepsKeys(cs: seq<Collection>, c: Collection)
    requires KeysUnique(cs) && !KeyTaken(cs, c.tenant, c.key) && !ReceiptTaken(cs, c.channel, c.receiptNo, |cs|)
    ensures KeysUnique(cs + [c])
  {
  }

  lemma InsertKeepsMoney(docs: seq<Fiscal.Doc>, cs: seq<Collection>, c: Collection)
    requires InvoicesFit(docs, cs) && c.status == Pending
    ensures InvoicesFit(docs, cs + [c])
  {
    forall i | 0 <= i < |docs| && docs[i].kind == Fiscal.Invoice ensures InvoiceFits(docs[i], PaidTotal(cs + [c], i)) {
      SumAgree(|cs|, PaidBy(cs + [c], i), PaidBy(cs, i));
    }
  }

  lemma InsertKeepsInv(s: State, c: Collection)
    requires Inv(s) && Insert(s, c).Ok?
    ensures Inv(Insert(s, c).value.0)
  {
    var row := c.(status := Pending, receipt := None);
    InsertKeepsKeys(s.collections, row);
    InsertKeepsMoney(s.fiscal.docs, s.collections, row);
  }

  lemma ReceiveAppends(s: Payments.State, tenant: nat, wallet: nat, ref: Reference, amount: int)
    requires Payments.ReceiveFunds(s, tenant, wallet, ref, amount).Ok? && (ref.CollectionRef? || ref.LinkRef?)
    ensures var s' := Payments.ReceiveFunds(s, tenant, wallet, ref, amount).value;
      && |s'.books.wallets| == |s.books.wallets|
      && |Inflows(s'.books.entries)| == |Inflows(s.books.entries)| + 1
      && Inflows(s'.books.entries)[..|Inflows(s.books.entries)|] == Inflows(s.books.entries)
      && var e := Inflows(s'.books.entries)[|Inflows(s.books.entries)|];
         e.kind == Fund && e.wallet == wallet && e.ref == ref && e.amount == e.deltaAvailable == amount && e.deltaReserved == 0
  {
    var s' := Payments.ReceiveFunds(s, tenant, wallet, ref, amount).value;
    assert s'.books.entries == s.books.entries + [s'.books.entries[|s.books.entries|]];
    InflowsAppended(s.books.entries, s'.books.entries[|s.books.entries|]);
  }

  lemma SettledCredited(credits: seq<WalletEntry>, e: WalletEntry, received: seq<nat>, cs: seq<Collection>, id: nat, c': Collection)
    requires Credited(credits, received, cs) && id < |cs| && cs[id].status != Success && c'.status == Success && InflowOf(e, c', id)
    ensures Credited(credits + [e], received + [id], cs[id := c'])
  {
    var cs', received', credits' := cs[id := c'], received + [id], credits + [e];
    forall k | 0 <= k < |received'|
      ensures received'[k] < |cs'| && cs'[received'[k]].status == Success && InflowOf(credits'[k], cs'[received'[k]], received'[k])
    {
      assert k < |received| ==> received[k] != id;
    }
    forall i | 0 <= i < |cs'| && cs'[i].status == Success ensures i in received' {
      assert i == id || i in received;
    }
  }

  /** The paid total of an invoice after one more collection settled. */
  lemma PaidTotalSettled(cs: seq<Collection>, id: nat, c': Collection, i: nat)
    requires id < |cs| && cs[id].status != Success && c'.status == Success && c'.invoice == cs[id].invoice
    ensures PaidTotal(cs[id := c'], i) == PaidTotal(cs, i) + if c'.invoice == Some(i) then c'.amount else 0
  {
    SumDelta(|cs|, PaidBy(cs, i), PaidBy(cs[id := c'], i), id);
  }

  lemma PaidNonNegative(docs: seq<Fiscal.Doc>, wallets: nat, cs: seq<Collection>, i: nat)
    requires RowsFit(docs, wallets, cs)
    ensures PaidTotal(cs, i) >= 0
  {
    SumDominates(|cs|, PaidBy(cs, i));
  }

  lemma SettledInvoices(s: State, id: nat, c': Collection)
    requires Inv(s) && id < |s.collections| && s.collections[id].status != Success && c'.status == Success && c'.amount > 0
    requires c'.invoice == s.collections[id].invoice && c'.tenant == s.collections[id].tenant
    ensures var f := if c'.invoice.Some? then ApplyInvoicePayment(s.fiscal, c'.tenant, c'.invoice.value, c'.amount) else s.fiscal;
      InvoicesFit(f.docs, s.collections[id := c'])
  {
    var f := if c'.invoice.Some? then ApplyInvoicePayment(s.fiscal, c'.tenant, c'.invoice.value, c'.amount) else s.fiscal;
    var cs := s.collections[id := c'];
    forall i | 0 <= i < |f.docs| && f.docs[i].kind == Fiscal.Invoice ensures InvoiceFits(f.docs[i], PaidTotal(cs, i)) {
      PaidTotalSettled(s.collections, id, c', i);
      PaidNonNegative(s.fiscal.docs, |s.pay.books.wallets|, s.collections, i);
      assert InvoiceFits(s.fiscal.docs[i], PaidTotal(s.collections, i));
    }
  }

  /** The same documents up to their payment columns. */
  ghost predicate SameDocs(docs: seq<Fiscal.Doc>, docs': seq<Fiscal.Doc>) {
    |docs'| == |docs| && forall j | 0 <= j < |docs| :: SameMoney(docs[j], docs'[j].(paid := docs[j].paid, settled := docs[j].settled))
  }

  /** Paying an invoice changes no other column and keeps the numbers. */
  lemma InvoicePaymentKeeps(f: Fiscal.State, tenant: nat, i: nat, amount: int)
    requires Fiscal.Inv(f)
    ensures var f' := ApplyInvoicePayment(f, tenant, i, amount);
      && Fiscal.Inv(f')
      && SameDocs(f.docs, f'.docs)
  {
    if IsInvoice(f.docs, tenant, i) {
      assert Fiscal.DocFits(f, i);
      Fiscal.ChangeKeepsInv(f, i, ApplyInvoicePayment(f, tenant, i, amount).docs[i]);
    }
  }

  lemma SettledRows(docs: seq<Fiscal.Doc>, docs': seq<Fiscal.Doc>, wallets: nat, cs: seq<Collection>, id: nat, c': Collection)
    requires RowsFit(docs, wallets, cs) && ReceiptsFit(docs, cs) && KeysUnique(cs) && id < |cs| && cs[id].status != Success
    requires c' == cs[id].(status := c'.status, amount := c'.amount, receiptNo := c'.receiptNo)
    requires c'.amount > 0 && !ReceiptTaken(cs, c'.channel, c'.receiptNo, id)
    requires SameDocs(docs, docs')
    ensures RowsFit(docs', wallets, cs[id := c']) && ReceiptsFit(docs', cs[id := c']) && KeysUnique(cs[id := c'])
  {
    var cs' := cs[id := c'];
    forall i, j | 0 <= i < j < |cs'| && cs'[i].receiptNo.Some?
      ensures cs'[i].channel != cs'[j].channel || cs'[i].receiptNo != cs'[j].receiptNo
    {
      if i != id && j != id {
        assert cs[i].channel != cs[j].channel || cs[i].receiptNo != cs[j].receiptNo;
      }
    }
    assert cs[id].receipt.None?;
  }

  /** The credit of a settlement is appended to the inflows. */
  lemma SettleCredits(s: State, id: nat, amount: Option<int>, no: Option<string>, viaLink: bool)
    requires Inv(s) && Settle(s, id, amount, no, viaLink).Ok? && s.collections[id].status != Success
    ensures var s' := Settle(s, id, amount, no, viaLink).value.0;
      |s'.pay.books.wallets| == |s.pay.books.wallets| && Credited(Inflows(s'.pay.books.entries), s'.received, s'.collections)
  {
    var c := s.collections[id];
    var c' := SettledRow(c, amount, no);
    var was, now := Inflows(s.pay.books.entries), Inflows(Settle(s, id, amount, no, viaLink).value.0.pay.books.entries);
    ReceiveAppends(s.pay, c.tenant, c.wallet, SettlementRef(c, id, viaLink), c'.amount);
    assert now == was + [now[|was|]];
    SettledCredited(was, now[|was|], s.received, s.collections, id, c');
  }

  lemma SettleKeepsInv(s: State, id: nat, amount: Option<int>, no: Option<string>, viaLink: bool)
    requires Inv(s) && Settle(s, id, amount, no, viaLink).Ok?
    ensures Inv(Settle(s, id, amount, no, viaLink).value.0)
  {
    var c := s.collections[id];
    if c.status != Success {
      var c' := SettledRow(c, amount, no);
      SettleCredits(s, id, amount, no, viaLink);
      SettledInvoices(s, id, c');
      var f := s.fiscal;
      if c.invoice.Some? {
        f := ApplyInvoicePayment(s.fiscal, c.tenant, c.invoice.value, c'.amount);
        InvoicePaymentKeeps(s.fiscal, c.tenant, c.invoice.value, c'.amount);
      }
      SettledRows(s.fiscal.docs, f.docs, |s.pay.books.wallets|, s.collections, id, c');
    }
  }

  /** A fiscal receipt's total is the money received, whatever the tax type. */
  lemma ReceiptTotal(amount: int, description: string, taxType: string)
    requires amount > 0 && Tax.Compute([Tax.LineInput(description, 1000, amount, 0, taxType)], true).Ok?
    ensures Tax.Compute([Tax.LineInput(description, 1000, amount, 0, taxType)], true).value.total == amount
  {
    var input := Tax.LineInput(description, 1000, amount, 0, taxType);
    var d := Tax.Compute([input], true).value;
    assert Tax.LineOf([input][0], true) == Ok(d.lines[0]);
    Tax.WholeUnit(amount);
    assert d.lines[0].total == amount;
    var f := Tax.TotalOf(d.lines);
    assert Sum(1, f) == Sum(0, f) + f(0);
  }

  lemma ReceiptDocFits(s: State, id: nat, description: string)
    requires Inv(s) && id < |s.collections| && s.collections[id].tenant in s.fiscal.devices && ReceiptDoc(s, id, description).Ok?
    ensures ReceiptOf(ReceiptDoc(s, id, description).value, s.collections[id], id)
    ensures ReceiptDoc(s, id, description).value.kind != Fiscal.Invoice
  {
    if s.collections[id].invoice.None? {
      var t := s.fiscal.devices[s.collections[id].tenant].taxType;
      ReceiptTotal(s.collections[id].amount, description, if t in Tax.TAX_TYPES then t else "B");
    }
  }

  lemma ReceiptAdded(docs: seq<Fiscal.Doc>, d: Fiscal.Doc, cs: seq<Collection>, id: nat)
    requires ReceiptsFit(docs, cs) && id < |cs| && cs[id].status == Success && cs[id].receipt.None? && ReceiptOf(d, cs[id], id)
    ensures ReceiptsFit(docs + [d], cs[id := cs[id].(receipt := Some(|docs|))])
  {
    var docs', cs' := docs + [d], cs[id := cs[id].(receipt := Some(|docs|))];
    forall j | 0 <= j < |docs'| && docs'[j].collection.Some?
      ensures docs'[j].collection.value < |cs'| && cs'[docs'[j].collection.value].receipt == Some(j)
    {
      if j < |docs| {
        assert cs[docs[j].collection.value].receipt == Some(j);
      }
    }
  }

  lemma ReceiptRows(docs: seq<Fiscal.Doc>, d: Fiscal.Doc, wallets: nat, cs: seq<Collection>, id: nat, receipt: Option<nat>)
    requires RowsFit(docs, wallets, cs) && InvoicesFit(docs, cs) && KeysUnique(cs) && id < |cs| && d.kind != Fiscal.Invoice
    ensures var cs' := cs[id := cs[id].(receipt := receipt)];
      RowsFit(docs + [d], wallets, cs') && InvoicesFit(docs + [d], cs') && KeysUnique(cs')
  {
    var cs' := cs[id := cs[id].(receipt := receipt)];
    forall i | 0 <= i < |docs + [d]| && (docs + [d])[i].kind == Fiscal.Invoice
      ensures InvoiceFits((docs + [d])[i], PaidTotal(cs', i))
    {
      assert InvoiceFits(docs[i], PaidTotal(cs, i));
      SumAgree(|cs|, PaidBy(cs', i), PaidBy(cs, i));
    }
  }

  lemma ReceiptKeepsInv(s: State, id: nat, description: string)
    requires Inv(s) && IssueReceipt(s, id, description).Ok?
    ensures Inv(IssueReceipt(s, id, description).value)
  {
    var s' := IssueReceipt(s, id, description).value;
    if s' != s {
      var d := ReceiptDoc(s, id, description).value;
      ReceiptDocFits(s, id, description);
      Fiscal.AddDocKeepsInv(s.fiscal, d);
      var d' := s'.fiscal.docs[|s.fiscal.docs|];
      ReceiptAdded(s.fiscal.docs, d', s.collections, id);
      ReceiptRows(s.fiscal.docs, d', |s.pay.books.wallets|, s.collections, id, Some(|s.fiscal.docs|));
    }
  }

  lemma AssignKeepsInv(s: State, id: nat, ref: string)
    requires Inv(s) && id < |s.collections|
    ensures Inv(s.(collections := s.collections[id := s.collections[id].(ref := ref)]))
  {
    var cs := s.collections[id := s.collections[id].(ref := ref)];
    forall i: nat ensures PaidTotal(cs, i) == PaidTotal(s.collections, i) {
      SumAgree(|cs|, PaidBy(cs, i), PaidBy(s.collections, i));
    }
    assert InvoicesFit(s.fiscal.docs, cs);
    assert KeysUnique(cs);
  }

  lemma ReportKeepsInv(s: State, id: nat, outcome: Payments.Outcome, amount: Option<int>, no: Option<string>, s1: State)
    requires Inv(s) && Report(s, id, outcome, amount, no) == Ok(s1)
    ensures Inv(s1)
  {
    match outcome {
      case ReportsSuccess => SettleKeepsInv(s, id, amount, no, false);
      case ReportsFailure => UnsettledKeepsInv(s, s1.collections);
      case ReportsReversal =>
      case ReportsUnknown =>
    }
  }

  /** Processing a stored event, for a collection or a payment, whole or cut short, keeps credits, invoices and receipts consistent. */
  lemma EventKeepsInv(s: State, e: nat, amount: Option<int>, no: Option<string>, dies: bool)
    requires Inv(s) && ProcessEvent(s, e, amount, no, dies).Ok?
    ensures Inv(ProcessEvent(s, e, amount, no, dies).value)
  {
    match Answers(s, e) {
      case None => EventUntouched(s.pay, e);
      case Some(id) =>
        var s1 := Report(s, id, s.pay.events[e].outcome, amount, no).value;
        ReportKeepsInv(s, id, s.pay.events[e].outcome, amount, no, s1);
    }
  }

  lemma NextKeepsInv(s: State, c: Command)
    requires Inv(s)
    ensures Inv(Next(s, c))
  {
    if Perform(s, c).Ok? {
      match c {
        case DoPayment(command) => PaymentUntouched(s.pay, command);
        case DoFiscal(step) => FiscalStepKeepsInv(s, step);
        case DoInsert(row) => InsertKeepsInv(s, row);
        case DoSettle(id, amount, no, viaLink) => SettleKeepsInv(s, id, amount, no, viaLink);
        case DoFail(id) => UnsettledKeepsInv(s, Next(s, c).collections);
        case DoExpire(stale) => UnsettledKeepsInv(s, Expire(s, stale).collections);
        case DoAssign(id, ref) => AssignKeepsInv(s, id, ref);
        case DoWebhook(e, amount, no, dies) => EventKeepsInv(s, e, amount, no, dies);
        case DoReceipt(id, description) => ReceiptKeepsInv(s, id, description);
      }
    }
  }

  lemma InitialInv(wallets: seq<Wallet>)
    ensures Inv(Initial(wallets))
  {
    var s := Initial(wallets);
    assert Credited([], s.received, s.collections);
    assert InvoicesFit(s.fiscal.docs, s.collections) && ReceiptsFit(s.fiscal.docs, s.collections);
    assert Fiscal.Inv(s.fiscal);
  }

  lemma {:induction false} RunKeepsInv(wallets: seq<Wallet>, cs: seq<Command>)
    ensures Inv(Run(Initial(wallets), cs))
  {
    if |cs| == 0 {
      InitialInv(wallets);
    } else {
      RunKeepsInv(wallets, cs[..|cs| - 1]);
      NextKeepsInv(Run(Initial(wallets), cs[..|cs| - 1]), cs[|cs| - 1]);
    }
  }

  // --------------------------------------------------------------------------- theorems

  /**
   Exactly-once crediting: the collection credits in the wallet ledger and the
   collection.received events correspond one to one and in order, each for the
   wallet and the amount of its collection; a collection has one if and only if it is SUCCESS.
   */
  lemma CreditedExactlyOnce(wallets: seq<Wallet>, cs: seq<Command>)
    ensures var s := Run(Initial(wallets), cs);
      var credits := Inflows(s.pay.books.entries);
      && |credits| == |s.received|
      && (forall k | 0 <= k < |credits| :: s.received[k] < |s.collections| && InflowOf(credits[k], s.collections[s.received[k]], s.received[k]))
      && (forall k, l | 0 <= k < l < |credits| :: s.received[k] != s.received[l])
      && (forall i | 0 <= i < |s.collections| :: s.collections[i].status == Success <==> i in s.received)
  {
    RunKeepsInv(wallets, cs);
  }

  /** An invoice's paid amount is the sum of its SUCCESS collections, and it is PAID if and only if that reaches the total. */
  lemma InvoicePaidIffCovered(wallets: seq<Wallet>, cs: seq<Command>, i: nat)
    requires var docs := Run(Initial(wallets), cs).fiscal.docs; i < |docs| && docs[i].kind == Fiscal.Invoice
    ensures var s := Run(Initial(wallets), cs);
      && s.fiscal.docs[i].paid == PaidTotal(s.collections, i)
      && (s.fiscal.docs[i].settled == Fiscal.Paid <==> PaidTotal(s.collections, i) >= s.fiscal.docs[i].total)
      && (s.fiscal.docs[i].settled == Fiscal.Unpaid <==> PaidTotal(s.collections, i) == 0)
  {
    RunKeepsInv(wallets, cs);
    var s := Run(Initial(wallets), cs);
    assert InvoiceFits(s.fiscal.docs[i], PaidTotal(s.collections, i));
  }

  /** At most one receipt per collection, for the money received; it is fiscal if and only if no invoice is paid, and a payment receipt never gets a number. */
  lemma OneReceiptPerCollection(wallets: seq<Wallet>, cs: seq<Command>, i: nat, j: nat)
    requires var docs := Run(Initial(wallets), cs).fiscal.docs;
      i < |docs| && j < |docs| && docs[i].collection.Some? && docs[i].collection == docs[j].collection
    ensures i == j
    ensures var s := Run(Initial(wallets), cs);
      var d, id := s.fiscal.docs[i], s.fiscal.docs[i].collection.value;
      && id < |s.collections| && s.collections[id].status == Success
      && d.total == s.collections[id].amount && d.tenant == s.collections[id].tenant
      && (d.kind == Fiscal.Receipt <==> s.collections[id].invoice.None?)
      && (d.kind == Fiscal.PaymentReceipt <==> s.collections[id].invoice.Some?)
      && (d.kind == Fiscal.PaymentReceipt ==> d.invoiceNo.None?)
  {
    RunKeepsInv(wallets, cs);
    var s := Run(Initial(wallets), cs);
    assert Fiscal.DocFits(s.fiscal, i);
    assert s.collections[s.fiscal.docs[i].collection.value].receipt == Some(i);
    assert s.collections[s.fiscal.docs[j].collection.value].receipt == Some(j);
  }

  /** SUCCESS never reverts: wallet, amount and invoice are final, whatever callbacks, failures and expiries follow. */
  lemma {:induction false} SuccessIsFinal(s: State, cs: seq<Command>, id: nat)
    requires id < |s.collections| && s.collections[id].status == Success
    ensures id < |Run(s, cs).collections|
    ensures Run(s, cs).collections[id] == s.collections[id].(receipt := Run(s, cs).collections[id].receipt, ref := Run(s, cs).collections[id].ref)
  {
    if |cs| > 0 {
      SuccessIsFinal(s, cs[..|cs| - 1], id);
      StepKeepsSuccess(Run(s, cs[..|cs| - 1]), cs[|cs| - 1], id);
    }
  }

  /** The row is as it was, except that it may have got a receipt or a provider reference. */
  predicate SameRow(cs: seq<Collection>, cs': seq<Collection>, id: nat) {
    id < |cs| && id < |cs'| && cs'[id] == cs[id].(receipt := cs'[id].receipt, ref := cs'[id].ref)
  }

  lemma SettleKeepsSuccess(s: State, k: nat, amount: Option<int>, no: Option<string>, viaLink: bool, id: nat)
    requires id < |s.collections| && s.collections[id].status == Success && Settle(s, k, amount, no, viaLink).Ok?
    ensures SameRow(s.collections, Settle(s, k, amount, no, viaLink).value.0.collections, id)
  {
  }

  lemma EventKeepsSuccess(s: State, e: nat, amount: Option<int>, no: Option<string>, dies: bool, id: nat)
    requires id < |s.collections| && s.collections[id].status == Success && ProcessEvent(s, e, amount, no, dies).Ok?
    ensures SameRow(s.collections, ProcessEvent(s, e, amount, no, dies).value.collections, id)
  {
    var found := Answers(s, e);
    if found.Some? && s.pay.events[e].outcome.ReportsSuccess? {
      SettleKeepsSuccess(s, found.value, amount, no, false, id);
    }
  }

  lemma StepKeepsSuccess(s: State, c: Command, id: nat)
    requires id < |s.collections| && s.collections[id].status == Success
    ensures SameRow(s.collections, Next(s, c).collections, id)
  {
    if Perform(s, c).Ok? {
      match c {
        case DoSettle(k, amount, no, viaLink) => SettleKeepsSuccess(s, k, amount, no, viaLink, id);
        case DoWebhook(e, amount, no, dies) => EventKeepsSuccess(s, e, amount, no, dies, id);
        case _ =>
      }
    }
  }

  /**
   A success event may be processed again, because it was redelivered or because the worker died
   before marking it: whatever happened in between, it credits nothing more to its collection.
   */
  lemma RedeliveryCreditsNothing(s: State, s1: State, e: nat, id: nat, amount: Option<int>, no: Option<string>, dies: bool,
                                 cs: seq<Command>, amount': Option<int>, no': Option<string>, dies': bool)
    requires Answers(s, e) == Some(id) && s.pay.events[e].outcome.ReportsSuccess? && ProcessEvent(s, e, amount, no, dies) == Ok(s1)
    requires Answers(Run(s1, cs), e) == Some(id)
    ensures var s2, s3 := Run(s1, cs), Next(Run(s1, cs), DoWebhook(e, amount', no', dies'));
      s3.collections == s2.collections && s3.received == s2.received && s3.pay.books == s2.pay.books && s3.fiscal == s2.fiscal
  {
    EventSettles(s, s1, e, id, amount, no, dies);
    SuccessIsFinal(s1, cs, id);
    SettledEventIsInert(Run(s1, cs), e, id, amount', no', dies');
  }

  lemma EventSettles(s: State, s1: State, e: nat, id: nat, amount: Option<int>, no: Option<string>, dies: bool)
    requires Answers(s, e) == Some(id) && s.pay.events[e].outcome.ReportsSuccess? && ProcessEvent(s, e, amount, no, dies) == Ok(s1)
    ensures id < |s1.collections| && s1.collections[id].status == Success
  {
    assert Settle(s, id, amount, no, false).Ok?;
  }

  lemma SettledEventIsInert(s: State, e: nat, id: nat, amount: Option<int>, no: Option<string>, dies: bool)
    requires Answers(s, e) == Some(id) && s.collections[id].status == Success
    ensures var s' := Next(s, DoWebhook(e, amount, no, dies));
      s'.collections == s.collections && s'.received == s.received && s'.pay.books == s.pay.books && s'.fiscal == s.fiscal
  {
  }

  /** One provider receipt (a paybill transaction, a bank reference) belongs to one collection, so it is credited at most once. */
  lemma OneCollectionPerProviderReceipt(wallets: seq<Wallet>, cs: seq<Command>, i: nat, j: nat)
    requires var rows := Run(Initial(wallets), cs).collections;
      i < |rows| && j < |rows| && rows[i].channel == rows[j].channel && rows[i].receiptNo == rows[j].receiptNo && rows[i].receiptNo.Some?
    ensures i == j
  {
    RunKeepsInv(wallets, cs);
    assert KeysUnique(Run(Initial(wallets), cs).collections);
  }

  /** A settlement is one payment-side command or none. */
  lemma SettleReachable(s: State, id: nat, amount: Option<int>, no: Option<string>, viaLink: bool)
    requires PaymentTheorems.Reachable(s.pay) && Settle(s, id, amount, no, viaLink).Ok?
    ensures PaymentTheorems.Reachable(Settle(s, id, amount, no, viaLink).value.0.pay)
  {
    var row := s.collections[id];
    if row.status != Success {
      PaymentTheorems.ReachableNext(s.pay, Payments.DoReceive(row.tenant, row.wallet, SettlementRef(row, id, viaLink), Received(row, amount)));
    }
  }

  lemma EventReachable(s: State, e: nat, amount: Option<int>, no: Option<string>, dies: bool)
    requires PaymentTheorems.Reachable(s.pay) && ProcessEvent(s, e, amount, no, dies).Ok?
    ensures PaymentTheorems.Reachable(ProcessEvent(s, e, amount, no, dies).value.pay)
  {
    match Answers(s, e) {
      case None => PaymentTheorems.ReachableNext(s.pay, Payments.DoProcessEvent(e));
      case Some(id) =>
        var s1 := Report(s, id, s.pay.events[e].outcome, amount, no).value;
        if s.pay.events[e].outcome.ReportsSuccess? {
          SettleReachable(s, id, amount, no, false);
        }
        PaymentTheorems.ReachableNext(s1.pay, Payments.DoAcknowledge(e));
    }
  }

  /** Every command is, for the payment tables, a run of payment commands. */
  lemma CommandReachable(s: State, c: Command)
    requires PaymentTheorems.Reachable(s.pay)
    ensures PaymentTheorems.Reachable(Next(s, c).pay)
  {
    if Perform(s, c).Ok? {
      match c {
        case DoPayment(command) => PaymentTheorems.ReachableNext(s.pay, command);
        case DoSettle(id, amount, no, viaLink) => SettleReachable(s, id, amount, no, viaLink);
        case DoWebhook(e, amount, no, dies) => EventReachable(s, e, amount, no, dies);
        case _ => assert Next(s, c).pay == s.pay;
      }
    }
  }

  /** Whatever collections do, the payment tables stay reachable by payment commands alone, so every payment theorem holds beside them. */
  lemma {:induction false} PaymentsStayReachable(wallets: seq<Wallet>, cs: seq<Command>)
    requires PaymentTheorems.Unfunded(wallets)
    ensures PaymentTheorems.Reachable(Run(Initial(wallets), cs).pay)
  {
    if |cs| == 0 {
      assert Payments.Run(Payments.Initial(wallets), []) == Payments.Initial(wallets);
    } else {
      PaymentsStayReachable(wallets, cs[..|cs| - 1]);
      CommandReachable(Run(Initial(wallets), cs[..|cs| - 1]), cs[|cs| - 1]);
    }
  }

  /** The gap between journal and wallet row is not affected by collections: it is still the fees booked and the principals reversed. */
  lemma WalletGapBesideCollections(wallets: seq<Wallet>, cs: seq<Command>, w: nat)
    requires PaymentTheorems.Unfunded(wallets) && w < |Run(Initial(wallets), cs).pay.books.wallets|
    ensures var p := Run(Initial(wallets), cs).pay;
      Gap(p.books, w) == PaymentTheorems.FeesBooked(p, w) + PaymentTheorems.PrincipalsReversed(p, w)
  {
    PaymentsStayReachable(wallets, cs);
    PaymentTheorems.WalletGap(Run(Initial(wallets), cs).pay, w);
  }
}
