/**
 Fiscal documents (packages/etims/src/service.ts): a document gets its invoice
 number in one transaction, is sent to the tax authority outside any transaction,
 and is signed or refused in a second one, in any interleaving and with retries.
 */
module Fiscal {
  import opened Prelude
  import opened Sums
  import Tax

  datatype Kind = Invoice | Receipt | CreditNote | PaymentReceipt

  datatype DocStatus = Draft | Queued | Signed | Failed | Issued | Cancelled

  datatype PaymentStatus = Unpaid | Partial | Paid | NotApplicable

  datatype Doc = Doc(
    tenant: nat, kind: Kind, serial: nat, status: DocStatus, invoiceNo: Option<nat>, signature: string, attempts: nat,
    original: Option<nat>, total: int, paid: int, settled: PaymentStatus, collection: Option<nat>)

  /** A tenant's device; active means initialised with a key. */
  datatype Device = Device(active: bool, last: nat, autoReceipt: bool, taxType: string)

  /** A payload handed to the network. */
  datatype Send = Send(doc: nat, invoiceNo: nat)

  datatype State = State(devices: map<nat, Device>, docs: seq<Doc>, sends: seq<Send>)

  const INITIAL := State(map[], [], [])

  // ------------------------------------------------------------------ operations

  /** Highest document number of a tenant and kind. */
  function MaxSerial(docs: seq<Doc>, tenant: nat, kind: Kind): nat {
    if |docs| == 0 then 0
    else
      var d, before := docs[|docs| - 1], MaxSerial(docs[..|docs| - 1], tenant, kind);
      if d.tenant == tenant && d.kind == kind && d.serial > before then d.serial else before
  }

  function AddDoc(s: State, d: Doc): State {
    s.(docs := s.docs + [d.(serial := MaxSerial(s.docs, d.tenant, d.kind) + 1)])
  }

  function NewDoc(tenant: nat, kind: Kind, total: int): Doc {
    if kind == Receipt then Doc(tenant, kind, 0, Draft, None, "", 0, None, total, total, Paid, None)
    else Doc(tenant, kind, 0, Draft, None, "", 0, None, total, 0, Unpaid, None)
  }

  function CreateDocument(s: State, tenant: nat, kind: Kind, lines: seq<Tax.LineInput>, inclusive: bool): (r: Result<State>)
    requires kind in {Invoice, Receipt}
  {
    var computed :- Tax.Compute(lines, inclusive);
    Ok(AddDoc(s, NewDoc(tenant, kind, computed.total)))
  }

  /** A full credit note; which earlier credit note the source looks at is not determined, so that check is a parameter. */
  function CreateCreditNote(s: State, tenant: nat, original: nat, alreadyCredited: bool): (r: Result<State>) {
    if !(original < |s.docs| && s.docs[original].tenant == tenant) then Err("NOT_FOUND")
    else if s.docs[original].status != Signed || s.docs[original].kind !in {Invoice, Receipt} then Err("NOT_CREDITABLE")
    else if alreadyCredited then Err("ALREADY_CREDITED")
    else Ok(AddDoc(s, Doc(tenant, CreditNote, 0, Draft, None, "", 0, Some(original), s.docs[original].total, 0, NotApplicable, None)))
  }

  /** Registering, re-registering or reconfiguring a device never touches its counter. */
  function SetDevice(s: State, tenant: nat, active: bool, autoReceipt: bool, taxType: string): State {
    var last := if tenant in s.devices then s.devices[tenant].last else 0;
    s.(devices := s.devices[tenant := Device(active, last, autoReceipt, taxType)])
  }

  /** An UPDATE of a document row under the trigger that keeps signed documents immutable. */
  function UpdateDoc(s: State, i: nat, d: Doc): (r: Result<State>)
    requires i < |s.docs|
  {
    var was := s.docs[i];
    if was.status == Signed
       && (d.status != was.status || d.total != was.total || d.signature != was.signature
           || d.invoiceNo != was.invoiceNo || d.serial != was.serial)
    then Err("P0001")
    else Ok(s.(docs := s.docs[i := d]))
  }

  /** First transaction: allocate or reuse the invoice number and queue; None when the document is already signed. */
  function Prepare(s: State, tenant: nat, i: nat): (r: Result<(State, Option<nat>)>) {
    if !(i < |s.docs| && s.docs[i].tenant == tenant) then Err("NOT_FOUND")
    else
      var d := s.docs[i];
      if d.status == Signed then Ok((s, None))
      else if d.kind == PaymentReceipt then Err("NOT_FISCAL")
      else if d.status == Cancelled then Err("CANCELLED")
      else if tenant !in s.devices || !s.devices[tenant].active then Err("DEVICE_NOT_INITIALISED")
      else
        var device := s.devices[tenant];
        var no := if d.invoiceNo.None? then device.last + 1 else d.invoiceNo.value;
        var devices := if d.invoiceNo.None? then s.devices[tenant := device.(last := no)] else s.devices;
        var docs := s.docs[i := d.(status := Queued, invoiceNo := Some(no), attempts := d.attempts + 1)];
        Ok((State(devices, docs, s.sends + [Send(i, no)]), Some(|s.sends|)))
  }

  /** Second transaction after a signature came back for send k. */
  function Sign(s: State, k: nat, signature: string): (r: Result<State>) {
    if k >= |s.sends| || s.sends[k].doc >= |s.docs| then Err("NOT_FOUND")
    else
      var i := s.sends[k].doc;
      UpdateDoc(s, i, s.docs[i].(status := Signed, signature := signature))
  }

  /** The update after the call for send k failed. */
  function Refuse(s: State, k: nat, retryable: bool): (r: Result<State>) {
    if k >= |s.sends| || s.sends[k].doc >= |s.docs| then Err("NOT_FOUND")
    else
      var i := s.sends[k].doc;
      UpdateDoc(s, i, s.docs[i].(status := if retryable then Queued else Failed))
  }

  // ------------------------------------------------------------------- whole runs

  datatype Step =
    | DoDevice(tenant: nat, active: bool, autoReceipt: bool, taxType: string)
    | DoCreate(tenant: nat, kind: Kind, lines: seq<Tax.LineInput>, inclusive: bool)
    | DoCredit(tenant: nat, original: nat, alreadyCredited: bool)
    | DoPrepare(tenant: nat, doc: nat)
    | DoSign(send: nat, signature: string)
    | DoRefuse(send: nat, retryable: bool)

  function Perform(s: State, step: Step): (r: Result<State>) {
    match step
    case DoDevice(t, active, auto, taxType) => Ok(SetDevice(s, t, active, auto, taxType))
    case DoCreate(t, kind, lines, inclusive) =>
      if kind in {Invoice, Receipt} then CreateDocument(s, t, kind, lines, inclusive) else Err("NOT_FOUND")
    case DoCredit(t, original, credited) => CreateCreditNote(s, t, original, credited)
    case DoPrepare(t, i) => var (s', _) :- Prepare(s, t, i); Ok(s')
    case DoSign(k, signature) => Sign(s, k, signature)
    case DoRefuse(k, retryable) => Refuse(s, k, retryable)
  }

  function Next(s: State, step: Step): State {
    var r := Perform(s, step);
    if r.Ok? then r.value else s
  }

  function Run(s: State, steps: seq<Step>): State {
    if |steps| == 0 then s else Next(Run(s, steps[..|steps| - 1]), steps[|steps| - 1])
  }

  // -------------------------------------------------------------------- invariant

  predicate Carries(d: Doc, tenant: nat, no: nat) {
    d.tenant == tenant && d.invoiceNo == Some(no)
  }

  predicate Used(docs: seq<Doc>, tenant: nat, no: nat) {
    exists i :: 0 <= i < |docs| && Carries(docs[i], tenant, no)
  }

  function LastNo(devices: map<nat, Device>, tenant: nat): nat {
    if tenant in devices then devices[tenant].last else 0
  }

  /** The numbers of a tenant's documents are 1 .. last, each on exactly one document. */
  ghost predicate Numbered(devices: map<nat, Device>, docs: seq<Doc>, tenant: nat) {
    && (forall i | 0 <= i < |docs| && docs[i].tenant == tenant && docs[i].invoiceNo.Some? ::
          1 <= docs[i].invoiceNo.value <= LastNo(devices, tenant))
    && (forall i, j | 0 <= i < j < |docs| && docs[i].tenant == docs[j].tenant == tenant && docs[i].invoiceNo.Some? ::
          docs[i].invoiceNo != docs[j].invoiceNo)
    && (forall no | 1 <= no <= LastNo(devices, tenant) :: Used(docs, tenant, no))
  }

  /** Every payload carries the number its document has. */
  ghost predicate SendsFit(docs: seq<Doc>, sends: seq<Send>) {
    forall k | 0 <= k < |sends| :: sends[k].doc < |docs| && docs[sends[k].doc].invoiceNo == Some(sends[k].invoiceNo)
  }

  function SendOf(sends: seq<Send>, i: nat): nat -> int {
    (k: nat) => if k < |sends| && sends[k].doc == i then 1 else 0
  }

  /** A document past DRAFT has a number, a payment receipt never does, and attempts counts the payloads. */
  ghost predicate DocFits(s: State, i: nat)
    requires i < |s.docs|
  {
    var d := s.docs[i];
    && (d.status in {Queued, Signed, Failed} ==> d.invoiceNo.Some?)
    && (d.kind == PaymentReceipt ==> d.invoiceNo.None?)
    && d.attempts == Sum(|s.sends|, SendOf(s.sends, i))
    && d.serial == Earlier(s.docs, i, d.tenant, d.kind) + 1
  }

  function OfKind(docs: seq<Doc>, tenant: nat, kind: Kind): nat -> int {
    (i: nat) => if i < |docs| && docs[i].tenant == tenant && docs[i].kind == kind then 1 else 0
  }

  /** Documents of a tenant and kind before position i. */
  function Earlier(docs: seq<Doc>, i: nat, tenant: nat, kind: Kind): int { Sum(i, OfKind(docs, tenant, kind)) }

  ghost predicate Inv(s: State) {
    && (forall tenant: nat :: Numbered(s.devices, s.docs, tenant))
    && SendsFit(s.docs, s.sends)
    && (forall i | 0 <= i < |s.docs| :: DocFits(s, i))
  }

  // ---------------------------------------------------------------- preservation

  /** The columns that identify a document never change. */
  predicate SameIdentity(d: Doc, d': Doc) {
    d'.tenant == d.tenant && d'.kind == d.kind && d'.serial == d.serial
  }

  lemma EarlierAgree(docs: seq<Doc>, docs': seq<Doc>, i: nat, tenant: nat, kind: Kind)
    requires i <= |docs| <= |docs'| && forall j | 0 <= j < |docs| :: SameIdentity(docs[j], docs'[j])
    ensures Earlier(docs', i, tenant, kind) == Earlier(docs, i, tenant, kind)
  {
    SumAgree(i, OfKind(docs', tenant, kind), OfKind(docs, tenant, kind));
  }

  /** MAX + 1 is COUNT + 1, because the numbers so far have no gaps. */
  lemma {:induction false} MaxIsCount(docs: seq<Doc>, tenant: nat, kind: Kind)
    requires forall i | 0 <= i < |docs| :: docs[i].serial == Earlier(docs, i, docs[i].tenant, docs[i].kind) + 1
    ensures MaxSerial(docs, tenant, kind) == Earlier(docs, |docs|, tenant, kind)
  {
    if |docs| > 0 {
      var before := docs[..|docs| - 1];
      forall i | 0 <= i < |before| ensures before[i].serial == Earlier(before, i, before[i].tenant, before[i].kind) + 1 {
        EarlierAgree(before, docs, i, before[i].tenant, before[i].kind);
      }
      MaxIsCount(before, tenant, kind);
      EarlierAgree(before, docs, |before|, tenant, kind);
    }
  }

  lemma AddDocNumbered(devices: map<nat, Device>, docs: seq<Doc>, d: Doc, tenant: nat)
    requires Numbered(devices, docs, tenant) && d.invoiceNo.None?
    ensures Numbered(devices, docs + [d], tenant)
  {
    forall no | 1 <= no <= LastNo(devices, tenant) ensures Used(docs + [d], tenant, no) {
      assert Used(docs, tenant, no);
      var i :| 0 <= i < |docs| && Carries(docs[i], tenant, no);
      assert Carries((docs + [d])[i], tenant, no);
    }
  }

  lemma {:induction false} NoSendsYet(docs: seq<Doc>, sends: seq<Send>)
    requires SendsFit(docs, sends)
    ensures Sum(|sends|, SendOf(sends, |docs|)) == 0
  {
    SumZero(|sends|, SendOf(sends, |docs|));
  }

  lemma NewDocFits(s: State, d: Doc)
    requires Inv(s) && d.invoiceNo.None? && d.status !in {Queued, Signed, Failed} && d.attempts == 0
    ensures DocFits(AddDoc(s, d), |s.docs|)
  {
    NoSendsYet(s.docs, s.sends);
    forall j | 0 <= j < |s.docs| ensures s.docs[j].serial == Earlier(s.docs, j, s.docs[j].tenant, s.docs[j].kind) + 1 {
      assert DocFits(s, j);
    }
    MaxIsCount(s.docs, d.tenant, d.kind);
    EarlierAgree(s.docs, AddDoc(s, d).docs, |s.docs|, d.tenant, d.kind);
  }

  lemma AddDocKeepsInv(s: State, d: Doc)
    requires Inv(s) && d.invoiceNo.None? && d.status !in {Queued, Signed, Failed} && d.attempts == 0
    ensures Inv(AddDoc(s, d))
  {
    var s' := AddDoc(s, d);
    forall tenant: nat ensures Numbered(s'.devices, s'.docs, tenant) {
      AddDocNumbered(s.devices, s.docs, s'.docs[|s.docs|], tenant);
    }
    NewDocFits(s, d);
    forall i | 0 <= i < |s.docs| ensures DocFits(s', i) {
      assert DocFits(s, i);
      EarlierAgree(s.docs, s'.docs, i, s.docs[i].tenant, s.docs[i].kind);
    }
  }

  /** Changing columns other than identity, number and attempts. */
  lemma ChangeKeepsInv(s: State, i: nat, d: Doc)
    requires Inv(s) && i < |s.docs| && SameIdentity(s.docs[i], d) && d.invoiceNo == s.docs[i].invoiceNo && d.attempts == s.docs[i].attempts
    requires d.status in {Queued, Signed, Failed} ==> d.invoiceNo.Some?
    ensures Inv(s.(docs := s.docs[i := d]))
  {
    var docs' := s.docs[i := d];
    var s' := s.(docs := docs');
    forall tenant: nat ensures Numbered(s.devices, docs', tenant) {
      assert Numbered(s.devices, s.docs, tenant);
      UsedKept(s.docs, docs', tenant, LastNo(s.devices, tenant));
    }
    forall j | 0 <= j < |docs'| ensures DocFits(s', j) {
      assert DocFits(s, j);
      EarlierAgree(s.docs, docs', j, docs'[j].tenant, docs'[j].kind);
    }
  }

  lemma UsedKept(docs: seq<Doc>, docs': seq<Doc>, tenant: nat, last: nat)
    requires |docs| == |docs'| && forall no | 1 <= no <= last :: Used(docs, tenant, no)
    requires forall j | 0 <= j < |docs| ::
      docs'[j].tenant == docs[j].tenant && (docs[j].invoiceNo.Some? ==> docs'[j].invoiceNo == docs[j].invoiceNo)
    ensures forall no | 1 <= no <= last :: Used(docs', tenant, no)
  {
    forall no | 1 <= no <= last ensures Used(docs', tenant, no) {
      assert Used(docs, tenant, no);
      var j :| 0 <= j < |docs| && Carries(docs[j], tenant, no);
      assert Carries(docs'[j], tenant, no);
    }
  }

  lemma SetDeviceKeepsInv(s: State, t: nat, active: bool, auto: bool, taxType: string)
    requires Inv(s)
    ensures Inv(SetDevice(s, t, active, auto, taxType))
  {
    var s' := SetDevice(s, t, active, auto, taxType);
    forall tenant: nat ensures Numbered(s'.devices, s'.docs, tenant) {
      assert Numbered(s.devices, s.docs, tenant);
      assert LastNo(s'.devices, tenant) == LastNo(s.devices, tenant);
    }
    forall i | 0 <= i < |s'.docs| ensures DocFits(s', i) {
      assert DocFits(s, i);
    }
  }

  /** Giving document i the next number keeps its tenant's numbers consecutive. */
  lemma NumberGiven(s: State, devices': map<nat, Device>, docs': seq<Doc>, i: nat, no: nat, tenant: nat)
    requires Numbered(s.devices, s.docs, tenant) && i < |s.docs| && s.docs[i].invoiceNo.None?
    requires no == LastNo(s.devices, s.docs[i].tenant) + 1
    requires |docs'| == |s.docs| && docs' == s.docs[i := docs'[i]] && docs'[i].tenant == s.docs[i].tenant && docs'[i].invoiceNo == Some(no)
    requires LastNo(devices', tenant) == if tenant == s.docs[i].tenant then no else LastNo(s.devices, tenant)
    ensures Numbered(devices', docs', tenant)
  {
    UsedKept(s.docs, docs', tenant, LastNo(s.devices, tenant));
    if tenant == s.docs[i].tenant {
      assert Carries(docs'[i], tenant, no);
    }
  }

  lemma NumberKept(s: State, docs': seq<Doc>, i: nat, tenant: nat)
    requires Numbered(s.devices, s.docs, tenant) && i < |s.docs|
    requires |docs'| == |s.docs| && docs' == s.docs[i := docs'[i]] && docs'[i].tenant == s.docs[i].tenant && docs'[i].invoiceNo == s.docs[i].invoiceNo
    ensures Numbered(s.devices, docs', tenant)
  {
    UsedKept(s.docs, docs', tenant, LastNo(s.devices, tenant));
  }

  lemma SendAdded(sends: seq<Send>, x: Send, i: nat)
    ensures Sum(|sends| + 1, SendOf(sends + [x], i)) == Sum(|sends|, SendOf(sends, i)) + if x.doc == i then 1 else 0
  {
    SumAgree(|sends|, SendOf(sends + [x], i), SendOf(sends, i));
  }

  lemma PrepareKeepsInv(s: State, t: nat, i: nat)
    requires Inv(s) && Prepare(s, t, i).Ok?
    ensures Inv(Prepare(s, t, i).value.0)
  {
    var s' := Prepare(s, t, i).value.0;
    if s.docs[i].status != Signed {
      var d' := s'.docs[i];
      assert s'.docs == s.docs[i := d'];
      assert DocFits(s, i);
      forall tenant: nat ensures Numbered(s'.devices, s'.docs, tenant) {
        assert Numbered(s.devices, s.docs, tenant);
        if s.docs[i].invoiceNo.None? {
          NumberGiven(s, s'.devices, s'.docs, i, d'.invoiceNo.value, tenant);
        } else {
          NumberKept(s, s'.docs, i, tenant);
        }
      }
      forall j | 0 <= j < |s'.docs| ensures DocFits(s', j) {
        assert DocFits(s, j);
        EarlierAgree(s.docs, s'.docs, j, s'.docs[j].tenant, s'.docs[j].kind);
        SendAdded(s.sends, s'.sends[|s.sends|], j);
      }
    }
  }

  lemma AnswerKeepsInv(s: State, step: Step)
    requires Inv(s) && (step.DoSign? || step.DoRefuse?) && Perform(s, step).Ok?
    ensures Inv(Perform(s, step).value)
  {
    var i := s.sends[step.send].doc;
    assert DocFits(s, i);
    ChangeKeepsInv(s, i, Perform(s, step).value.docs[i]);
  }

  lemma CreateKeepsInv(s: State, step: Step)
    requires Inv(s) && (step.DoCreate? || step.DoCredit?) && Perform(s, step).Ok?
    ensures Inv(Perform(s, step).value)
  {
    match step {
      case DoCreate(t, kind, lines, inclusive) => AddDocKeepsInv(s, NewDoc(t, kind, Tax.Compute(lines, inclusive).value.total));
      case DoCredit(t, original, _) =>
        AddDocKeepsInv(s, Doc(t, CreditNote, 0, Draft, None, "", 0, Some(original), s.docs[original].total, 0, NotApplicable, None));
    }
  }

  lemma NextKeepsInv(s: State, step: Step)
    requires Inv(s)
    ensures Inv(Next(s, step))
  {
    if Perform(s, step).Ok? {
      match step {
        case DoDevice(t, active, auto, taxType) => SetDeviceKeepsInv(s, t, active, auto, taxType);
        case DoCreate(_, _, _, _) => CreateKeepsInv(s, step);
        case DoCredit(_, _, _) => CreateKeepsInv(s, step);
        case DoPrepare(t, i) => PrepareKeepsInv(s, t, i);
        case DoSign(_, _) => AnswerKeepsInv(s, step);
        case DoRefuse(_, _) => AnswerKeepsInv(s, step);
      }
    }
  }

  lemma {:induction false} RunKeepsInv(steps: seq<Step>)
    ensures Inv(Run(INITIAL, steps))
  {
    if |steps| > 0 {
      RunKeepsInv(steps[..|steps| - 1]);
      NextKeepsInv(Run(INITIAL, steps[..|steps| - 1]), steps[|steps| - 1]);
    }
  }

  // --------------------------------------------------------------------- theorems

  /** Sequence integrity: in every run a tenant's invoice numbers are exactly 1 .. last, each on one document. */
  lemma NumbersAreConsecutive(steps: seq<Step>, tenant: nat)
    ensures var s := Run(INITIAL, steps);
      && (forall no: nat :: Used(s.docs, tenant, no) <==> 1 <= no <= LastNo(s.devices, tenant))
      && (forall i, j, no | 0 <= i < |s.docs| && 0 <= j < |s.docs| && Carries(s.docs[i], tenant, no) && Carries(s.docs[j], tenant, no) :: i == j)
  {
    RunKeepsInv(steps);
    var s := Run(INITIAL, steps);
    assert Numbered(s.devices, s.docs, tenant);
  }

  /** Every payload ever sent for a document carries the same number, no other document of the tenant was ever sent with it, and attempts counts them. */
  lemma PayloadsCarryOneNumber(steps: seq<Step>, k: nat, l: nat)
    requires k < |Run(INITIAL, steps).sends| && l < |Run(INITIAL, steps).sends|
    ensures var s := Run(INITIAL, steps);
      var a, b := s.sends[k], s.sends[l];
      && a.doc < |s.docs| && b.doc < |s.docs|
      && (a.doc == b.doc ==> a.invoiceNo == b.invoiceNo)
      && (s.docs[a.doc].tenant == s.docs[b.doc].tenant && a.invoiceNo == b.invoiceNo ==> a.doc == b.doc)
      && s.docs[a.doc].attempts == Sum(|s.sends|, SendOf(s.sends, a.doc))
  {
    RunKeepsInv(steps);
    var s := Run(INITIAL, steps);
    var a, b := s.sends[k], s.sends[l];
    assert DocFits(s, a.doc);
    assert Numbered(s.devices, s.docs, s.docs[a.doc].tenant);
  }

  /** Document numbers (MAX + 1) of a tenant and kind count up from 1 without gaps or repeats. */
  lemma SerialsCountUp(steps: seq<Step>, i: nat)
    requires i < |Run(INITIAL, steps).docs|
    ensures var docs := Run(INITIAL, steps).docs;
      docs[i].serial == Earlier(docs, i, docs[i].tenant, docs[i].kind) + 1
  {
    RunKeepsInv(steps);
    assert DocFits(Run(INITIAL, steps), i);
  }

  /** A signed document stays signed, with the same number, signature and amount, whatever late answers arrive. */
  lemma {:induction false} SignedIsFinal(s: State, steps: seq<Step>, i: nat)
    requires i < |s.docs| && s.docs[i].status == Signed
    ensures i < |Run(s, steps).docs| && Run(s, steps).docs[i] == s.docs[i]
  {
    if |steps| > 0 {
      var n := |steps| - 1;
      SignedIsFinal(s, steps[..n], i);
      StepKeepsSigned(Run(s, steps[..n]), steps[n], i);
    }
  }

  lemma StepKeepsSigned(s: State, step: Step, i: nat)
    requires i < |s.docs| && s.docs[i].status == Signed
    ensures i < |Next(s, step).docs| && Next(s, step).docs[i] == s.docs[i]
  {
  }

  /** A number once given is never taken away or changed. */
  lemma {:induction false} NumberIsForever(s: State, steps: seq<Step>, i: nat)
    requires i < |s.docs| && s.docs[i].invoiceNo.Some?
    ensures i < |Run(s, steps).docs| && Run(s, steps).docs[i].invoiceNo == s.docs[i].invoiceNo
  {
    if |steps| > 0 {
      NumberIsForever(s, steps[..|steps| - 1], i);
    }
  }

  // ---------------------------------------------------------- what each step leaves

  /** The document can be sent: it is the tenant's, fiscal, neither signed nor cancelled, and the device is initialised. */
  predicate Sendable(s: State, tenant: nat, i: nat) {
    && i < |s.docs| && s.docs[i].tenant == tenant
    && s.docs[i].kind != PaymentReceipt && s.docs[i].status !in {Signed, DocStatus.Cancelled}
    && tenant in s.devices && s.devices[tenant].active
  }

  /** Document i is queued under number no with one more attempt, and one payload more carries that number. */
  predicate QueuedUnder(s: State, s': State, i: nat, no: nat) {
    && i < |s.docs|
    && s'.docs == s.docs[i := s.docs[i].(status := Queued, invoiceNo := Some(no), attempts := s.docs[i].attempts + 1)]
    && s'.sends == s.sends + [Send(i, no)]
  }

  /** A sendable document keeps the number it has, or takes the device's next one, which is then used up; a signed one is done; anything else is refused. */
  lemma PreparedIff(s: State, tenant: nat, i: nat)
    ensures var r := Prepare(s, tenant, i);
      && (r.Ok? && r.value.1.Some? <==> Sendable(s, tenant, i))
      && (r.Ok? && r.value.1.None? <==> i < |s.docs| && s.docs[i].tenant == tenant && s.docs[i].status == Signed)
      && (r.Ok? && r.value.1.None? ==> r.value.0 == s)
      && (Sendable(s, tenant, i) ==>
            && r.value.1 == Some(|s.sends|)
            && (s.docs[i].invoiceNo.Some? ==> QueuedUnder(s, r.value.0, i, s.docs[i].invoiceNo.value) && r.value.0.devices == s.devices)
            && (s.docs[i].invoiceNo.None? ==>
                  && QueuedUnder(s, r.value.0, i, s.devices[tenant].last + 1)
                  && r.value.0.devices == s.devices[tenant := s.devices[tenant].(last := s.devices[tenant].last + 1)]))
  {
  }

  /** An answer to a payload: a signature signs the document under its number, a failure leaves it QUEUED or FAILED; a document that is signed already takes no other. */
  lemma AnsweredIs(s: State, k: nat, signature: string, retryable: bool)
    requires k < |s.sends| && s.sends[k].doc < |s.docs|
    ensures var i := s.sends[k].doc;
      var d := s.docs[i];
      && (d.status != Signed ==>
            && Next(s, DoSign(k, signature)) == s.(docs := s.docs[i := d.(status := Signed, signature := signature)])
            && Next(s, DoRefuse(k, retryable)) == s.(docs := s.docs[i := d.(status := if retryable then Queued else DocStatus.Failed)]))
      && (d.status == Signed ==> Next(s, DoSign(k, signature)) == s && Next(s, DoRefuse(k, retryable)) == s)
  {
    var d := s.docs[s.sends[k].doc];
    assert s.docs[s.sends[k].doc := d] == s.docs;
  }

  /** A new document: a draft for the computed total without a number; a receipt counts as paid, an invoice as unpaid. */
  lemma CreatedIs(s: State, tenant: nat, kind: Kind, lines: seq<Tax.LineInput>, inclusive: bool)
    requires kind in {Invoice, Receipt}
    ensures var computed, r := Tax.Compute(lines, inclusive), CreateDocument(s, tenant, kind, lines, inclusive);
      && (r.Ok? <==> computed.Ok?)
      && (r.Ok? ==>
            && |r.value.docs| == |s.docs| + 1 && r.value == s.(docs := s.docs + [r.value.docs[|s.docs|]])
            && (var d := r.value.docs[|s.docs|];
                && d.tenant == tenant && d.kind == kind && d.status == Draft && d.invoiceNo.None? && d.signature == "" && d.attempts == 0
                && d.original.None? && d.collection.None? && d.total == computed.value.total
                && (kind == Receipt ==> d.paid == d.total && d.settled == Paid)
                && (kind == Invoice ==> d.paid == 0 && d.settled == Unpaid)))
  {
  }

  /** A credit note is for the whole of a signed invoice or receipt of the tenant that no earlier note credits. */
  lemma CreditedIff(s: State, tenant: nat, original: nat, alreadyCredited: bool)
    ensures var r := CreateCreditNote(s, tenant, original, alreadyCredited);
      && (r.Ok? <==>
            && original < |s.docs| && s.docs[original].tenant == tenant
            && s.docs[original].status == Signed && s.docs[original].kind in {Invoice, Receipt} && !alreadyCredited)
      && (r.Ok? ==>
            && |r.value.docs| == |s.docs| + 1 && r.value == s.(docs := s.docs + [r.value.docs[|s.docs|]])
            && (var d := r.value.docs[|s.docs|];
                && d.tenant == tenant && d.kind == CreditNote && d.original == Some(original) && d.total == s.docs[original].total
                && d.status == Draft && d.invoiceNo.None? && d.attempts == 0 && d.collection.None?))
  {
  }

  /** Setting up a device again keeps its counter, and a new one starts at zero. */
  lemma DeviceSetIs(s: State, tenant: nat, active: bool, autoReceipt: bool, taxType: string)
    ensures var last := if tenant in s.devices then s.devices[tenant].last else 0;
      SetDevice(s, tenant, active, autoReceipt, taxType) == State(s.devices[tenant := Device(active, last, autoReceipt, taxType)], s.docs, s.sends)
  {
  }
}

/** Fiscalisation in place. */
module FiscalDb {
  import opened Prelude
  import opened Fiscal

  /** How the call to the authority ends. */
  datatype Answer = Signature(value: string) | Unavailable(retryable: bool)

  /**
   Both phases of a sendable document: its number is the one it had or the device's next one, one payload more carries it, and the
   answer decides between SIGNED with that signature, QUEUED and FAILED.
   */
  ghost predicate Fiscalised(s: State, s': State, tenant: nat, i: nat, answer: Answer)
    requires Sendable(s, tenant, i)
  {
    var d, device := s.docs[i], s.devices[tenant];
    var no := if d.invoiceNo.Some? then d.invoiceNo.value else device.last + 1;
    && s'.devices == (if d.invoiceNo.Some? then s.devices else s.devices[tenant := device.(last := no)])
    && s'.sends == s.sends + [Send(i, no)]
    && s'.docs == s.docs[i := d.(
         status := match answer { case Signature(_) => Signed case Unavailable(retryable) => if retryable then Queued else Fiscal.Failed },
         signature := if answer.Signature? then answer.value else d.signature,
         invoiceNo := Some(no), attempts := d.attempts + 1)]
  }

  class FiscalTables {
    var devices: map<nat, Device>
    var docs: seq<Doc>
    var sends: seq<Send>

    constructor ()
      ensures Snapshot() == INITIAL
    {
      devices, docs, sends := map[], [], [];
    }

    function Snapshot(): State
      reads this
    {
      State(devices, docs, sends)
    }

    /** The prepared transaction: returns the send, or None when the document is signed already. */
    method PrepareTx(tenant: nat, i: nat) returns (r: Result<Option<nat>>)
      modifies this
      ensures match Prepare(old(Snapshot()), tenant, i)
              case Ok((s, send)) => r == Ok(send) && Snapshot() == s
              case Err(c) => r == Err(c) && Snapshot() == old(Snapshot())
    {
      if !(i < |docs| && docs[i].tenant == tenant) {
        return Err("NOT_FOUND");
      }
      var d := docs[i];
      if d.status == Signed {
        return Ok(None);
      }
      if d.kind == PaymentReceipt {
        return Err("NOT_FISCAL");
      }
      if d.status == Fiscal.Cancelled {
        return Err("CANCELLED");
      }
      if tenant !in devices || !devices[tenant].active {
        return Err("DEVICE_NOT_INITIALISED");
      }
      var no := 0;
      if d.invoiceNo.None? {
        no := devices[tenant].last + 1;
        devices := devices[tenant := devices[tenant].(last := no)];
      } else {
        no := d.invoiceNo.value;
      }
      docs := docs[i := d.(status := Queued, invoiceNo := Some(no), attempts := d.attempts + 1)];
      sends := sends + [Send(i, no)];
      return Ok(Some(|sends| - 1));
    }

    method Update(i: nat, d: Doc) returns (r: Result<()>)
      requires i < |docs|
      modifies this`docs
      ensures match UpdateDoc(old(Snapshot()), i, d)
              case Ok(s) => r == Ok(()) && Snapshot() == s
              case Err(c) => r == Err(c) && Snapshot() == old(Snapshot())
    {
      var was := docs[i];
      if was.status == Signed
         && (d.status != was.status || d.total != was.total || d.signature != was.signature
             || d.invoiceNo != was.invoiceNo || d.serial != was.serial) {
        return Err("P0001");
      }
      docs := docs[i := d];
      return Ok(());
    }

    /** The second transaction: the signature, or what becomes of the document without one. */
    method AnswerTx(i: nat, answer: Answer)
      requires i < |docs| && docs[i].status == Queued
      modifies this`docs
      ensures docs == old(docs)[i := old(docs)[i].(
                status := match answer { case Signature(_) => Signed case Unavailable(retryable) => if retryable then Queued else Fiscal.Failed },
                signature := if answer.Signature? then answer.value else old(docs)[i].signature)]
    {
      match answer {
        case Signature(signature) =>
          var _ := Update(i, docs[i].(status := Signed, signature := signature));
        case Unavailable(retryable) =>
          var _ := Update(i, docs[i].(status := if retryable then Queued else Fiscal.Failed));
      }
    }

    /** Both phases without interference; the steps taken are a run of the protocol. */
    method FiscaliseDocument(tenant: nat, i: nat, answer: Answer) returns (r: Result<Doc>, ghost steps: seq<Step>)
      requires Inv(Snapshot())
      modifies this
      ensures Snapshot() == Run(old(Snapshot()), steps) && Inv(Snapshot())
      ensures Sendable(old(Snapshot()), tenant, i) ==> Fiscalised(old(Snapshot()), Snapshot(), tenant, i, answer)
      ensures !Sendable(old(Snapshot()), tenant, i) ==> Snapshot() == old(Snapshot())
      ensures r.Ok? <==> i < |docs| && docs[i].tenant == tenant && docs[i].status == Signed
      ensures r.Ok? ==> r.value == docs[i] && docs[i].invoiceNo.Some?
      ensures r == Err("UNAVAILABLE") <==> Sendable(old(Snapshot()), tenant, i) && answer.Unavailable?
      ensures |docs| == |old(docs)| && forall j | 0 <= j < |docs| && old(docs)[j].invoiceNo.Some? :: docs[j].invoiceNo == old(docs)[j].invoiceNo
      ensures i < |old(docs)| && old(docs)[i].invoiceNo.Some? ==> devices == old(devices)
    {
      ghost var s0 := Snapshot();
      var prepared := PrepareTx(tenant, i);
      steps := [DoPrepare(tenant, i)];
      OneStep(s0, DoPrepare(tenant, i));
      if prepared.Err? {
        return Err(prepared.code), steps;
      }
      ghost var s1 := Snapshot();
      if prepared.value.None? {
        assert DocFits(s0, i);
        return Ok(docs[i]), steps;
      }
      ghost var k := prepared.value.value;
      ghost var step := if answer.Signature? then DoSign(k, answer.value) else DoRefuse(k, answer.retryable);
      AnswerTx(i, answer);
      AnsweredIs(s1, k, if answer.Signature? then answer.value else "", answer.Unavailable? && answer.retryable);
      TwoSteps(s0, DoPrepare(tenant, i), step);
      steps := [DoPrepare(tenant, i), step];
      return if answer.Signature? then Ok(docs[i]) else Err("UNAVAILABLE"), steps;
    }

    /** The sweep over the queued documents the query returned: it never gives out a new number. */
    method RetryQueuedDocuments(rows: seq<nat>, maxAttempts: nat, answers: seq<Answer>) returns (signed: nat, failed: nat)
      requires Inv(Snapshot()) && |answers| == |rows|
      requires forall k | 0 <= k < |rows| :: rows[k] < |docs| && docs[rows[k]].status == Queued && docs[rows[k]].attempts < maxAttempts
      modifies this
      ensures Inv(Snapshot()) && signed + failed == |rows|
      ensures devices == old(devices) && |docs| == |old(docs)|
      ensures forall j | 0 <= j < |docs| && old(docs)[j].invoiceNo.Some? :: docs[j].invoiceNo == old(docs)[j].invoiceNo
    {
      signed, failed := 0, 0;
      forall k | 0 <= k < |rows| ensures docs[rows[k]].invoiceNo.Some? {
        assert DocFits(Snapshot(), rows[k]);
      }
      for k := 0 to |rows|
        invariant Inv(Snapshot()) && signed + failed == k
        invariant devices == old(devices) && |docs| == |old(docs)|
        invariant forall j | 0 <= j < |docs| && old(docs)[j].invoiceNo.Some? :: docs[j].invoiceNo == old(docs)[j].invoiceNo
      {
        assert docs[rows[k]].invoiceNo.Some?;
        var r, _ := FiscaliseDocument(docs[rows[k]].tenant, rows[k], answers[k]);
        if r.Ok? {
          signed := signed + 1;
        } else {
          failed := failed + 1;
        }
      }
    }
  }

  lemma OneStep(s: State, a: Step)
    requires Inv(s)
    ensures Run(s, [a]) == Next(s, a) && Inv(Next(s, a))
  {
    assert [a][..0] == [];
    assert Run(s, []) == s;
    NextKeepsInv(s, a);
  }

  lemma TwoSteps(s: State, a: Step, b: Step)
    requires Inv(s)
    ensures Run(s, [a, b]) == Next(Next(s, a), b) && Inv(Next(Next(s, a), b))
  {
    assert [a, b][..1] == [a];
    OneStep(s, a);
    NextKeepsInv(Next(s, a), b);
  }
}
