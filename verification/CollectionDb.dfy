/** Collections in place, beside the payment database and the fiscal tables. */
module CollectionDb {
  import opened Prelude
  import opened Text
  import opened Ledger
  import opened Collections
  import opened Settlements
  import opened PaymentDb
  import opened FiscalDb
  import Fiscal
  import Payments

  datatype PaybillResult = Settled | Duplicate | Unmatched

  /** What a paybill account number resolves to. */
  datatype Target = Target(tenant: nat, invoice: Option<nat>)

  const COLLECTION_MIN_MINOR := 100

  /** Longest bank reference the column holds. */
  const REFERENCE_COLUMN := 120

  /** The receipt number a bank reference is recorded under. */
  function BankReceipt(ref: string): string {
    Cut(UpperCase(Trim(ref)), 40)
  }

  function BankKey(ref: string): string {
    "bank:" + UpperCase(Trim(ref))
  }

  /** The wallet that receives a tenant's money: its first one, if it is active. */
  function ResolveWallet(wallets: seq<Wallet>, tenant: nat): Result<nat> {
    match FirstWallet(wallets, tenant, 0)
    case None => Err("WALLET_NOT_FOUND")
    case Some(w) => if wallets[w].active then Ok(w) else Err("WALLET_INACTIVE")
  }

  /** Wallet w receives the tenant's money: it is the tenant's first, and active. */
  predicate IsReceiver(wallets: seq<Wallet>, tenant: nat, w: nat) {
    && w < |wallets| && wallets[w].tenant == tenant && wallets[w].active
    && forall i | 0 <= i < w :: wallets[i].tenant != tenant
  }

  /** The row of money that has arrived: SUCCESS in the receiving wallet, for the amount and the invoice, under the receipt number. */
  predicate ArrivedAs(row: Collection, wallets: seq<Wallet>, tenant: nat, channel: Channel, amount: int, invoice: Option<nat>, no: string, key: string, ref: string) {
    && row == Collection(tenant, row.wallet, channel, Success, amount, invoice, None, Some(no), Some(key), None, ref)
    && IsReceiver(wallets, tenant, row.wallet)
  }

  lemma {:induction false} FirstWalletIsFirst(wallets: seq<Wallet>, tenant: nat, k: nat)
    requires FirstWallet(wallets, tenant, k).Some?
    ensures forall i | k <= i < FirstWallet(wallets, tenant, k).value :: wallets[i].tenant != tenant
    decreases |wallets| - k
  {
    if wallets[k].tenant != tenant {
      FirstWalletIsFirst(wallets, tenant, k + 1);
    }
  }

  /** A wallet is found exactly when the tenant has an active first one. */
  lemma ReceiverIsFirst(wallets: seq<Wallet>, tenant: nat)
    ensures ResolveWallet(wallets, tenant).Ok? <==> exists w :: 0 <= w < |wallets| && IsReceiver(wallets, tenant, w)
    ensures ResolveWallet(wallets, tenant).Ok? ==> IsReceiver(wallets, tenant, ResolveWallet(wallets, tenant).value)
  {
    var first := FirstWallet(wallets, tenant, 0);
    if first.Some? {
      FirstWalletIsFirst(wallets, tenant, 0);
      assert wallets[first.value].active ==> IsReceiver(wallets, tenant, first.value);
      forall w | 0 <= w < |wallets| && IsReceiver(wallets, tenant, w) ensures w == first.value {}
    }
  }

  /** Settling a row just inserted: it becomes SUCCESS as it is and is announced last. */
  lemma SettledArrival(s: State, s1: State, row: Collection)
    requires s1 == s.(collections := s.collections + [row.(status := Pending, receipt := None)])
    requires Settle(s1, |s.collections|, None, row.receiptNo, false).Ok?
    ensures var s2 := Settle(s1, |s.collections|, None, row.receiptNo, false).value.0;
      s2.collections == s.collections + [row.(status := Success, receipt := None)] && s2.received == s.received + [|s.collections|]
  {
  }

  lemma OneCommand(s: State, c: Command)
    ensures Run(s, [c]) == Next(s, c)
  {
    assert [c][..0] == [];
    assert Run(s, []) == s;
  }

  lemma TwoCommands(s: State, a: Command, b: Command)
    ensures Run(s, [a, b]) == Next(Next(s, a), b)
  {
    assert [a, b][..1] == [a];
    OneCommand(s, a);
  }

  class CollectionTables {
    const db: Database
    const fiscal: FiscalTables
    var collections: seq<Collection>
    var received: seq<nat>

    constructor (db: Database, fiscal: FiscalTables)
      ensures this.db == db && this.fiscal == fiscal && Snapshot() == State(db.Snapshot(), fiscal.Snapshot(), [], [])
    {
      this.db, this.fiscal, collections, received := db, fiscal, [], [];
    }

    function Snapshot(): State
      reads this, db, db.ledger, fiscal
    {
      State(db.Snapshot(), fiscal.Snapshot(), collections, received)
    }

    method InsertCollection(c: Collection) returns (r: Result<nat>)
      modifies this`collections
      ensures match Insert(old(Snapshot()), c)
              case Ok((s, id)) => r == Ok(id) && Snapshot() == s
              case Err(code) => r == Err(code) && Snapshot() == old(Snapshot())
    {
      if c.invoice.Some? && !IsInvoice(fiscal.docs, c.tenant, c.invoice.value) {
        return Err("INVOICE_NOT_FOUND");
      }
      if c.wallet >= |db.ledger.wallets| {
        return Err("WALLET_NOT_FOUND");
      }
      if c.amount <= 0 {
        return Err("23514");
      }
      if KeyTaken(collections, c.tenant, c.key) || ReceiptTaken(collections, c.channel, c.receiptNo, |collections|) {
        return Err("23505");
      }
      collections := collections + [c.(status := Pending, receipt := None)];
      return Ok(|collections| - 1);
    }

    method PayInvoice(tenant: nat, i: nat, amount: int)
      modifies fiscal`docs
      ensures fiscal.Snapshot() == ApplyInvoicePayment(old(fiscal.Snapshot()), tenant, i, amount)
    {
      if !IsInvoice(fiscal.docs, tenant, i) {
        return;
      }
      var d := fiscal.docs[i];
      var paid := d.paid + amount;
      fiscal.docs := fiscal.docs[i := d.(paid := paid, settled := if paid >= d.total then Fiscal.Paid else Fiscal.Partial)];
    }

    /** The settled row, its invoice's payment and the received event. */
    method StoreSettlement(id: nat, settled: Collection)
      requires id < |collections| && settled.invoice == collections[id].invoice && settled.tenant == collections[id].tenant
      modifies this, fiscal`docs
      ensures collections == old(collections)[id := settled] && received == old(received) + [id]
      ensures fiscal.Snapshot() ==
                if settled.invoice.Some? then ApplyInvoicePayment(old(fiscal.Snapshot()), settled.tenant, settled.invoice.value, settled.amount)
                else old(fiscal.Snapshot())
    {
      collections := collections[id := settled];
      if settled.invoice.Some? {
        PayInvoice(settled.tenant, settled.invoice.value, settled.amount);
      }
      received := received + [id];
    }

    /** Credit, row, invoice and event in one transaction; true when it was settled before. */
    method SettleCollection(id: nat, amount: Option<int>, no: Option<string>, viaLink: bool) returns (r: Result<bool>)
      modifies this, db.ledger, fiscal`docs
      ensures match Settle(old(Snapshot()), id, amount, no, viaLink)
              case Ok((s, already)) => r == Ok(already) && Snapshot() == s
              case Err(code) => r == Err(code) && Snapshot() == old(Snapshot())
      ensures r == Ok(true) ==> Snapshot() == old(Snapshot())
      ensures r == Ok(false) ==> SettledForWhatCounts(old(Snapshot()), Snapshot(), id, amount, no, viaLink)
    {
      if id >= |collections| {
        return Err("NOT_FOUND");
      }
      var c := collections[id];
      if c.status == Success {
        return Ok(true);
      }
      if c.status == Cancelled {
        return Err("CANCELLED");
      }
      var was := db.ledger.Snapshot();
      var settled := SettledRow(c, amount, no);
      var credited := db.ledger.CreditWallet(c.tenant, c.wallet, SettlementRef(c, id, viaLink), settled.amount);
      if credited.Err? {
        return Err(credited.code);
      }
      if ReceiptTaken(collections, c.channel, settled.receiptNo, id) {
        db.ledger.Restore(was);
        return Err("23505");
      }
      StoreSettlement(id, settled);
      SettlementCounts(old(Snapshot()), Snapshot(), id, amount, no, viaLink);
      return Ok(false);
    }

    method FailCollection(id: nat) returns (r: Result<()>)
      modifies this`collections
      ensures match Fail(old(Snapshot()), id)
              case Ok(s) => r == Ok(()) && Snapshot() == s
              case Err(code) => r == Err(code) && Snapshot() == old(Snapshot())
    {
      if id >= |collections| {
        return Err("NOT_FOUND");
      }
      if collections[id].status == Pending {
        collections := collections[id := collections[id].(status := Failed)];
      }
      return Ok(());
    }

    method ReportToCollection(id: nat, outcome: Payments.Outcome, amount: Option<int>, no: Option<string>) returns (r: Result<()>)
      modifies this, db.ledger, fiscal`docs
      ensures match Report(old(Snapshot()), id, outcome, amount, no)
              case Ok(s) => r.Ok? && Snapshot() == s
              case Err(code) => r == Err(code) && Snapshot() == old(Snapshot())
    {
      if outcome == Payments.ReportsSuccess {
        var settled := SettleCollection(id, amount, no, false);
        return if settled.Ok? then Ok(()) else Err(settled.code);
      }
      if outcome == Payments.ReportsFailure {
        r := FailCollection(id);
        return;
      }
      return Ok(());
    }

    /** An event of a collection is reported to it and then marked; any other goes to the payments. */
    method ProcessWebhookEvent(e: nat, amount: Option<int>, no: Option<string>, dies: bool) returns (r: Result<()>)
      modifies this, db, db.ledger, fiscal`docs
      ensures match ProcessEvent(old(Snapshot()), e, amount, no, dies)
              case Ok(s) => r.Ok? && Snapshot() == s
              case Err(code) => r == Err(code) && Snapshot() == old(Snapshot())
    {
      if !Payments.Unattempted(db.Snapshot(), e) {
        r := db.ProcessWebhookEvent(e);
        return;
      }
      var event := db.events[e];
      var found := FindReference(collections, event.ref);
      if found.None? {
        r := db.ProcessWebhookEvent(e);
        return;
      }
      r := ReportToCollection(found.value, event.outcome, amount, no);
      if r.Err? {
        return;
      }
      if !dies {
        db.SetEventStatus(e, Payments.Processed);
      }
      return Ok(());
    }

    method ExpireStaleCollections(stale: set<nat>)
      modifies this`collections
      ensures Snapshot() == Expire(old(Snapshot()), stale)
    {
      for i := 0 to |collections|
        invariant |collections| == |old(collections)|
        invariant forall j | 0 <= j < |collections| ::
          collections[j] == if j < i then ExpireRow(old(collections)[j], j in stale) else old(collections)[j]
      {
        if i in stale && collections[i].status == Pending && collections[i].channel == StkPush {
          collections := collections[i := collections[i].(status := Expired)];
        }
      }
    }

    /** Whether a paybill transaction is on record. */
    predicate Recorded(transId: string)
      reads this
    {
      exists i :: 0 <= i < |collections| && collections[i].channel == Paybill && collections[i].receiptNo == Some(transId)
    }

    /** The account names an invoice that is paid already. */
    predicate IsPaid(target: Target)
      reads fiscal
    {
      && target.invoice.Some? && target.invoice.value < |fiscal.docs|
      && fiscal.docs[target.invoice.value].tenant == target.tenant && fiscal.docs[target.invoice.value].kind == Fiscal.Invoice
      && fiscal.docs[target.invoice.value].settled == Fiscal.Paid
    }

    /** The insert and the settlement of money that has already arrived: two transactions, that is two commands of the system. */
    method InsertAndSettle(row: Collection) returns (inserted: Result<nat>, settled: Result<bool>, ghost steps: seq<Command>)
      modifies this, db.ledger, fiscal`docs
      ensures Snapshot() == Run(old(Snapshot()), steps)
      ensures match Insert(old(Snapshot()), row)
              case Ok((_, id)) => inserted == Ok(id)
              case Err(code) => inserted == Err(code) && Snapshot() == old(Snapshot())
      ensures inserted.Ok? ==> |collections| == |old(collections)| + 1
      ensures inserted.Ok? && settled.Ok? ==>
                && inserted.value == |old(collections)|
                && collections == old(collections) + [row.(status := Success, receipt := None)]
                && received == old(received) + [|old(collections)|]
    {
      ghost var s0 := Snapshot();
      inserted := InsertCollection(row);
      settled, steps := Ok(false), [];
      if inserted.Err? {
        return;
      }
      ghost var s1 := Snapshot();
      settled := SettleCollection(inserted.value, None, row.receiptNo, false);
      steps := [DoInsert(row), DoSettle(inserted.value, None, row.receiptNo, false)];
      TwoCommands(s0, steps[0], steps[1]);
      if settled.Ok? {
        SettledArrival(s0, s1, row);
      }
    }

    /**
     A paybill confirmation, possibly redelivered. Whatever the outcome it is a run of
     the system, a duplicate changes nothing, SETTLED means one credited collection more
     that carries the transaction, and one nobody can be credited for is put up for reconciliation once.
     */
    method RecordC2BPayment(transId: string, amount: int, target: Option<Target>) returns (r: Result<PaybillResult>, ghost steps: seq<Command>)
      modifies this, db`orphans, db.ledger, fiscal`docs
      ensures Snapshot() == Run(old(Snapshot()), steps)
      ensures old(Recorded(transId)) ==> r == Ok(Duplicate)
      ensures r == Ok(Duplicate) ==> Snapshot() == old(Snapshot())
      ensures r == Ok(Unmatched) <==> target.None? && !old(Recorded(transId))
      ensures r == Ok(Unmatched) ==>
                Snapshot() == old(Snapshot()).(pay := Payments.RecordOrphan(old(Snapshot()).pay, Payments.FromPaybill, transId))
      ensures r == Ok(Settled) ==>
                && |collections| == |old(collections)| + 1 && collections[..|old(collections)|] == old(collections)
                && target.Some? && ArrivedAs(collections[|old(collections)|], old(db.ledger.wallets), target.value.tenant, Paybill, amount,
                                             if old(IsPaid(target.value)) then None else target.value.invoice, transId, "c2b:" + transId, transId)
                && received == old(received) + [|old(collections)|]
    {
      steps := [];
      if Recorded(transId) {
        return Ok(Duplicate), steps;
      }
      if target.None? {
        db.AddOrphan(Payments.FromPaybill, transId);
        steps := [DoPayment(Payments.DoUnmatched(transId))];
        OneCommand(old(Snapshot()), steps[0]);
        return Ok(Unmatched), steps;
      }
      var wallet := ResolveWallet(db.ledger.wallets, target.value.tenant);
      if wallet.Err? {
        return Err(wallet.code), steps;
      }
      var invoice := target.value.invoice;
      if IsPaid(target.value) {
        invoice := None;
      }
      ReceiverIsFirst(db.ledger.wallets, target.value.tenant);
      var inserted, settled;
      inserted, settled, steps := InsertAndSettle(
        Collection(target.value.tenant, wallet.value, Paybill, Pending, amount, invoice, None, Some(transId), Some("c2b:" + transId), None, transId));
      if inserted.Err? {
        return if inserted.code == "23505" then Ok(Duplicate) else Err(inserted.code), steps;
      }
      if settled.Err? {
        return Err(settled.code), steps;
      }
      return Ok(Settled), steps;
    }

    /** The bank reference is on record. */
    predicate BankRecorded(receiptNo: string)
      reads this
    {
      exists i :: 0 <= i < |collections| && collections[i].channel == BankTransfer && collections[i].receiptNo == Some(receiptNo)
    }

    /** An invoice of the tenant that is neither cancelled nor paid. */
    predicate Payable(tenant: nat, i: nat)
      reads fiscal
    {
      && i < |fiscal.docs| && fiscal.docs[i].tenant == tenant && fiscal.docs[i].kind == Fiscal.Invoice
      && fiscal.docs[i].status != Fiscal.Cancelled && fiscal.docs[i].settled != Fiscal.Paid
    }

    method LoadInvoice(tenant: nat, invoice: Option<nat>) returns (r: Result<()>)
      ensures r.Ok? <==> (invoice.Some? ==> Payable(tenant, invoice.value))
      ensures r.Err? ==> invoice.Some? && r.code in {"INVOICE_NOT_FOUND", "INVOICE_CANCELLED", "INVOICE_PAID"}
    {
      if invoice.None? {
        return Ok(());
      }
      if !IsInvoice(fiscal.docs, tenant, invoice.value) {
        return Err("INVOICE_NOT_FOUND");
      }
      if fiscal.docs[invoice.value].status == Fiscal.Cancelled {
        return Err("INVOICE_CANCELLED");
      }
      if fiscal.docs[invoice.value].settled == Fiscal.Paid {
        return Err("INVOICE_PAID");
      }
      return Ok(());
    }

    /** The checks before a bank transfer is recorded; the wallet is the tenant's first one. */
    method CheckTransfer(tenant: nat, amount: int, ref: string, invoice: Option<nat>) returns (r: Result<nat>)
      ensures r.Ok? <==>
                && amount >= 100 && 4 <= |Trim(ref)| <= 120 && (invoice.Some? ==> Payable(tenant, invoice.value))
                && exists w :: 0 <= w < |db.ledger.wallets| && IsReceiver(db.ledger.wallets, tenant, w)
      ensures r.Ok? ==> r.value < |db.ledger.wallets| && IsReceiver(db.ledger.wallets, tenant, r.value)
      ensures r != Err("DUPLICATE_REFERENCE")
    {
      if amount < COLLECTION_MIN_MINOR {
        return Err("AMOUNT_TOO_SMALL");
      }
      if |Trim(ref)| < 4 {
        return Err("REFERENCE_REQUIRED");
      }
      var loaded := LoadInvoice(tenant, invoice);
      if loaded.Err? {
        return Err(loaded.code);
      }
      ReceiverIsFirst(db.ledger.wallets, tenant);
      var wallet := ResolveWallet(db.ledger.wallets, tenant);
      if wallet.Err? {
        return wallet;
      }
      if |Trim(ref)| > REFERENCE_COLUMN {
        return Err("22001");
      }
      return wallet;
    }

    /**
     A bank transfer. It is recorded under the first 40 characters of its trimmed, upper-cased
     reference, and a reference recorded there before is refused before any money moves.
     */
    method RecordBankCollection(tenant: nat, amount: int, ref: string, invoice: Option<nat>) returns (r: Result<nat>, ghost steps: seq<Command>)
      modifies this, db.ledger, fiscal`docs
      ensures Snapshot() == Run(old(Snapshot()), steps)
      ensures r.Ok? ==>
                && r.value == |old(collections)| && |collections| == r.value + 1 && collections[..r.value] == old(collections)
                && amount >= 100 && 4 <= |Trim(ref)| <= 120
                && ArrivedAs(collections[r.value], old(db.ledger.wallets), tenant, BankTransfer, amount, invoice,
                             Cut(UpperCase(Trim(ref)), 40), "bank:" + UpperCase(Trim(ref)), Trim(ref))
                && received == old(received) + [r.value]
      ensures old(BankRecorded(BankReceipt(ref))) ==> r.Err? && Snapshot() == old(Snapshot())
      ensures r == Err("DUPLICATE_REFERENCE") && |collections| == |old(collections)| ==>
                old(BankRecorded(BankReceipt(ref))) || KeyTaken(old(collections), tenant, Some(BankKey(ref)))
    {
      steps := [];
      var wallet := CheckTransfer(tenant, amount, ref, invoice);
      if wallet.Err? {
        return Err(wallet.code), steps;
      }
      var inserted, settled;
      inserted, settled, steps := InsertAndSettle(
        Collection(tenant, wallet.value, BankTransfer, Pending, amount, invoice, None, Some(BankReceipt(ref)), Some(BankKey(ref)), None, Trim(ref)));
      if inserted.Err? {
        var code := inserted.code;
        return Err(if code == "23505" then "DUPLICATE_REFERENCE" else code), steps;
      }
      if settled.Err? {
        return Err(settled.code), steps;
      }
      return inserted, steps;
    }
  }
}
