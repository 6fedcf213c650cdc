/** Bulk payment batches (packages/payments-core/src/bulk.ts, services/worker/src). */
module Batches {
  import opened Prelude
  import opened Sums
  import opened Text
  import opened Phones
  import Policy

  const MAX_ROWS := 50_000
  const MAX_AMOUNT := 5_000_000_00

  /** A parsed row; number is the decimal row number. */
  datatype RawRow = RawRow(number: string, name: string, phone: string, amount: int)

  datatype RowStatus = Valid | Error | Pending | Success | Failed | Skipped

  datatype Row = Row(number: string, phone: string, amount: int, status: RowStatus)

  datatype Created = Created(rows: seq<Row>, total: int, valid: nat, errors: nat)

  // ------------------------------------------------------------------- validation

  /** The row checks that look at the row alone. */
  predicate Passes(r: RawRow) {
    Normalize(r.phone).Some? && 0 < r.amount <= MAX_AMOUNT && |Trim(r.name)| >= 2
  }

  /** What duplicates are detected by. */
  function KeyOf(r: RawRow): (string, int)
    requires Passes(r)
  {
    (Normalize(r.phone).value, r.amount)
  }

  /** The distinct keys of the rows that pass. */
  function Keys(rows: seq<RawRow>): set<(string, int)> {
    set r | r in rows && Passes(r) :: KeyOf(r)
  }

  predicate Accepted(rows: seq<RawRow>, i: nat)
    requires i < |rows|
  {
    Passes(rows[i]) && KeyOf(rows[i]) !in Keys(rows[..i])
  }

  function StoredRow(rows: seq<RawRow>, i: nat): Row
    requires i < |rows|
  {
    if Accepted(rows, i) then Row(rows[i].number, Normalize(rows[i].phone).value, rows[i].amount, Valid)
    else Row(rows[i].number, rows[i].phone, rows[i].amount, Error)
  }

  function Stored(rows: seq<RawRow>): seq<Row> {
    seq(|rows|, i requires 0 <= i < |rows| => StoredRow(rows, i))
  }

  /** Unique index on (batch, row number). */
  predicate NumbersDistinct(rows: seq<RawRow>) {
    forall i, j | 0 <= i < j < |rows| :: rows[i].number != rows[j].number
  }

  /** Sum of the amounts of a set of keys. */
  ghost function KeyTotal(keys: set<(string, int)>): int {
    if keys == {} then 0
    else
      var k :| k in keys;
      k.1 + KeyTotal(keys - {k})
  }

  /** The sum does not depend on the order in which keys are taken. */
  lemma {:induction false} KeyTotalRemove(keys: set<(string, int)>, k: (string, int))
    requires k in keys
    ensures KeyTotal(keys) == k.1 + KeyTotal(keys - {k})
    decreases |keys|
  {
    var j :| j in keys && KeyTotal(keys) == j.1 + KeyTotal(keys - {j});
    if j != k {
      KeyTotalRemove(keys - {j}, k);
      KeyTotalRemove(keys - {k}, j);
      assert keys - {j} - {k} == keys - {k} - {j};
    }
  }

  lemma KeysNext(rows: seq<RawRow>, i: nat)
    requires i < |rows|
    ensures Keys(rows[..i + 1]) == Keys(rows[..i]) + if Passes(rows[i]) then {KeyOf(rows[i])} else {}
  {
    assert rows[..i + 1] == rows[..i] + [rows[i]];
  }

  function AmountIf(rows: seq<Row>, status: RowStatus): nat -> int {
    (i: nat) => if i < |rows| && rows[i].status == status then rows[i].amount else 0
  }

  function CountIf(rows: seq<Row>, status: RowStatus): nat -> int {
    (i: nat) => if i < |rows| && rows[i].status == status then 1 else 0
  }

  lemma KeyAdded(keys: set<(string, int)>, k: (string, int))
    requires k !in keys
    ensures KeyTotal(keys + {k}) == KeyTotal(keys) + k.1 && |keys + {k}| == |keys| + 1
  {
    KeyTotalRemove(keys + {k}, k);
    assert keys + {k} - {k} == keys;
  }

  /** A row as the loop stores it, given the keys seen before. */
  function Judge(row: RawRow, seen: set<(string, int)>): Row {
    var phone := Normalize(row.phone);
    if phone.None? then Row(row.number, row.phone, row.amount, Error)
    else if row.amount <= 0 then Row(row.number, row.phone, row.amount, Error)
    else if row.amount > MAX_AMOUNT then Row(row.number, row.phone, row.amount, Error)
    else if |Trim(row.name)| < 2 then Row(row.number, row.phone, row.amount, Error)
    else if (phone.value, row.amount) in seen then Row(row.number, row.phone, row.amount, Error)
    else Row(row.number, phone.value, row.amount, Valid)
  }

  /** The loop's verdict is the specified one, and what it remembers are the keys so far. */
  lemma JudgeIsStored(rows: seq<RawRow>, i: nat)
    requires i < |rows|
    ensures Judge(rows[i], Keys(rows[..i])) == StoredRow(rows, i) == Stored(rows)[i]
    ensures AmountIf(Stored(rows), Valid)(i) == if StoredRow(rows, i).status == Valid then rows[i].amount else 0
    ensures CountIf(Stored(rows), Valid)(i) == if StoredRow(rows, i).status == Valid then 1 else 0
    ensures Keys(rows[..i + 1])
         == Keys(rows[..i]) + if StoredRow(rows, i).status == Valid then {(StoredRow(rows, i).phone, rows[i].amount)} else {}
  {
    KeysNext(rows, i);
  }

  /** One more row adds its amount and counts one exactly when its key is new. */
  lemma TotalsNext(rows: seq<RawRow>, i: nat)
    requires i < |rows|
    ensures KeyTotal(Keys(rows[..i + 1])) == KeyTotal(Keys(rows[..i])) + AmountIf(Stored(rows), Valid)(i)
    ensures |Keys(rows[..i + 1])| == |Keys(rows[..i])| + CountIf(Stored(rows), Valid)(i)
  {
    JudgeIsStored(rows, i);
    var before, after := Keys(rows[..i]), Keys(rows[..i + 1]);
    if StoredRow(rows, i).status == Valid {
      var k := (StoredRow(rows, i).phone, rows[i].amount);
      assert k !in before && after == before + {k};
      KeyAdded(before, k);
    } else {
      assert after == before;
    }
  }

  ghost function TotalUpTo(rows: seq<RawRow>): nat -> int {
    (i: nat) => if i <= |rows| then KeyTotal(Keys(rows[..i])) else 0
  }

  ghost function CountUpTo(rows: seq<RawRow>): nat -> int {
    (i: nat) => if i <= |rows| then |Keys(rows[..i])| else 0
  }

  lemma NoKeysYet(rows: seq<RawRow>)
    ensures TotalUpTo(rows)(0) == 0 && CountUpTo(rows)(0) == 0
  {
    assert Keys(rows[..0]) == {};
  }

  lemma AllKeys(rows: seq<RawRow>)
    ensures TotalUpTo(rows)(|rows|) == KeyTotal(Keys(rows)) && CountUpTo(rows)(|rows|) == |Keys(rows)|
  {
    assert rows[..|rows|] == rows;
  }

  lemma TotalsGrow(rows: seq<RawRow>, i: nat)
    requires i < |rows|
    ensures TotalUpTo(rows)(i + 1) == TotalUpTo(rows)(i) + AmountIf(Stored(rows), Valid)(i)
    ensures CountUpTo(rows)(i + 1) == CountUpTo(rows)(i) + CountIf(Stored(rows), Valid)(i)
  {
    TotalsNext(rows, i);
  }

  /** Validating in file order adds up to the distinct keys. */
  lemma ValidAreKeys(rows: seq<RawRow>)
    ensures Sum(|rows|, AmountIf(Stored(rows), Valid)) == KeyTotal(Keys(rows))
    ensures Sum(|rows|, CountIf(Stored(rows), Valid)) == |Keys(rows)|
  {
    SumsToEnd(rows, AmountIf(Stored(rows), Valid), CountIf(Stored(rows), Valid), TotalUpTo(rows), CountUpTo(rows));
    AllKeys(rows);
  }

  lemma SumsToEnd(rows: seq<RawRow>, amount: nat -> int, one: nat -> int, total: nat -> int, count: nat -> int)
    requires amount == AmountIf(Stored(rows), Valid) && one == CountIf(Stored(rows), Valid)
    requires total == TotalUpTo(rows) && count == CountUpTo(rows)
    ensures Sum(|rows|, amount) == total(|rows|) && Sum(|rows|, one) == count(|rows|)
  {
    NoKeysYet(rows);
    forall i: nat | i < |rows| ensures total(i + 1) == total(i) + amount(i) && count(i + 1) == count(i) + one(i) {
      TotalsGrow(rows, i);
    }
    SumTelescopes(|rows|, amount, total);
    SumTelescopes(|rows|, one, count);
  }

  /** What the loop has established after the first i rows. */
  ghost predicate Progress(rows: seq<RawRow>, i: nat, seen: set<(string, int)>, inserted: seq<Row>, total: int, valid: int) {
    && i <= |rows| && seen == Keys(rows[..i]) && inserted == Stored(rows)[..i]
    && total == Sum(i, AmountIf(Stored(rows), Valid)) && valid == Sum(i, CountIf(Stored(rows), Valid))
  }

  lemma ProgressStep(rows: seq<RawRow>, i: nat, seen: set<(string, int)>, inserted: seq<Row>, total: int, valid: int)
    requires Progress(rows, i, seen, inserted, total, valid) && i < |rows|
    ensures var row := Judge(rows[i], seen);
      if row.status == Valid then Progress(rows, i + 1, seen + {(row.phone, row.amount)}, inserted + [row], total + row.amount, valid + 1)
      else Progress(rows, i + 1, seen, inserted + [row], total, valid)
  {
    JudgeIsStored(rows, i);
    assert Stored(rows)[..i + 1] == Stored(rows)[..i] + [Stored(rows)[i]];
  }

  /** The validation loop: total and counts are those of the distinct keys that pass. */
  method ValidateRows(rows: seq<RawRow>) returns (c: Created)
    ensures c.rows == Stored(rows)
    ensures c.total == KeyTotal(Keys(rows)) == Sum(|rows|, AmountIf(Stored(rows), Valid))
    ensures c.valid == |Keys(rows)| && c.valid + c.errors == |rows|
  {
    var total, valid, errors := 0, 0, 0;
    var seen: set<(string, int)> := {};
    var inserted: seq<Row> := [];
    for i := 0 to |rows|
      invariant Progress(rows, i, seen, inserted, total, valid)
      invariant valid >= 0 && errors >= 0 && valid + errors == i
    {
      ProgressStep(rows, i, seen, inserted, total, valid);
      var row := Judge(rows[i], seen);
      inserted := inserted + [row];
      if row.status == Valid {
        seen := seen + {(row.phone, row.amount)};
        valid := valid + 1;
        total := total + row.amount;
      } else {
        errors := errors + 1;
      }
    }
    assert rows[..|rows|] == rows && Stored(rows)[..|rows|] == Stored(rows);
    ValidAreKeys(rows);
    return Created(inserted, total, valid, errors);
  }

  /** What makes row i payable on its own: a subscriber number, written with any spaces and dashes, an amount up to KES 5,000,000 and a name. */
  predicate PayableRow(r: RawRow, t: string) {
    NineDigits(t) && Writes(Without(r.phone, {' ', '-'}), t) && 1 <= r.amount <= 500000000 && |Trim(r.name)| >= 2
  }

  /** An earlier row asks for the same amount for the same number. */
  predicate Repeats(rows: seq<RawRow>, i: nat, t: string)
    requires i < |rows|
  {
    exists j :: 0 <= j < i && Normalize(rows[j].phone) == Some("+254" + t) && rows[j].amount == rows[i].amount
  }

  /** Such a row is stored VALID under the international form of its number, unless an earlier row repeats it. */
  lemma PayableRowStored(rows: seq<RawRow>, i: nat, t: string)
    requires i < |rows| && PayableRow(rows[i], t) && !Repeats(rows, i, t)
    ensures Stored(rows)[i] == Row(rows[i].number, "+254" + t, rows[i].amount, Valid)
  {
    SubscriberAccepted(rows[i].phone, t, {' ', '-'});
    assert KeyOf(rows[i]) == ("+254" + t, rows[i].amount);
  }

  /** The rows that are refused: a number, an amount or a name that is no good, or one that a stored row before it repeats. */
  lemma RefusedIff(rows: seq<RawRow>, i: nat)
    requires i < |rows|
    ensures Stored(rows)[i].number == rows[i].number && Stored(rows)[i].amount == rows[i].amount
    ensures Stored(rows)[i].status == (if Normalize(rows[i].phone).None? || rows[i].amount < 1 || rows[i].amount > 500000000 || |Trim(rows[i].name)| < 2
              || (exists j :: 0 <= j < i && Stored(rows)[j].status == Valid && Normalize(rows[j].phone) == Normalize(rows[i].phone) && rows[j].amount == rows[i].amount)
            then Error else Valid)
  {
    if Passes(rows[i]) && KeyOf(rows[i]) in Keys(rows[..i]) {
      var j := FirstWithKey(rows, i, KeyOf(rows[i]));
      assert Stored(rows)[j].status == Valid;
    }
    if j :| 0 <= j < i && Stored(rows)[j].status == Valid && Normalize(rows[j].phone) == Normalize(rows[i].phone) && rows[j].amount == rows[i].amount {
      assert rows[j] in rows[..i] && Passes(rows[j]);
      assert Passes(rows[i]) ==> KeyOf(rows[i]) == KeyOf(rows[j]);
    }
  }

  /** The first row that passes with a key is the one that is accepted for it. */
  lemma {:induction false} FirstWithKey(rows: seq<RawRow>, n: nat, k: (string, int)) returns (j: nat)
    requires n <= |rows| && k in Keys(rows[..n])
    ensures j < n && Accepted(rows, j) && KeyOf(rows[j]) == k
  {
    KeysNext(rows, n - 1);
    if k in Keys(rows[..n - 1]) {
      j := FirstWithKey(rows, n - 1, k);
    } else {
      j := n - 1;
    }
  }

  /** What an accepted file is stored as. */
  ghost predicate StoredAsAsked(rows: seq<RawRow>, stored: seq<Row>) {
    && |stored| == |rows|
    && (forall i | 0 <= i < |rows| :: stored[i].number == rows[i].number && stored[i].amount == rows[i].amount && stored[i].status in {Valid, Error})
    && (forall i: nat, t | i < |rows| && PayableRow(rows[i], t) && !Repeats(rows, i, t) :: stored[i] == Row(rows[i].number, "+254" + t, rows[i].amount, Valid))
  }

  lemma FileStored(rows: seq<RawRow>)
    ensures StoredAsAsked(rows, Stored(rows))
  {
    forall i: nat, t | i < |rows| && PayableRow(rows[i], t) && !Repeats(rows, i, t)
      ensures Stored(rows)[i] == Row(rows[i].number, "+254" + t, rows[i].amount, Valid)
    {
      PayableRowStored(rows, i, t);
    }
  }

  method CreateBatch(rows: seq<RawRow>) returns (r: Result<Created>)
    ensures r.Err? <==> |rows| == 0 || |rows| > 50000 || exists i, j :: 0 <= i < j < |rows| && rows[i].number == rows[j].number
    ensures r.Ok? ==> StoredAsAsked(rows, r.value.rows)
    ensures r.Ok? ==>
      && r.value.rows == Stored(rows)
      && r.value.total == KeyTotal(Keys(rows)) == Sum(|rows|, AmountIf(Stored(rows), Valid))
      && r.value.valid == |Keys(rows)| && r.value.valid + r.value.errors == |rows|
  {
    if |rows| == 0 {
      return Err("EMPTY_BATCH");
    }
    if |rows| > MAX_ROWS {
      return Err("TOO_LARGE");
    }
    var c := ValidateRows(rows);
    if !NumbersDistinct(rows) {
      return Err("23505");
    }
    FileStored(rows);
    return Ok(c);
  }

  /** Rows that validated have pairwise distinct phone and amount, and each key that passes is represented. */
  lemma ValidRowsDistinct(rows: seq<RawRow>, i: nat, j: nat)
    requires i < j < |rows| && Stored(rows)[i].status == Stored(rows)[j].status == Valid
    ensures (Stored(rows)[i].phone, Stored(rows)[i].amount) != (Stored(rows)[j].phone, Stored(rows)[j].amount)
  {
    assert rows[i] in rows[..j];
    assert KeyOf(rows[i]) in Keys(rows[..j]);
  }

  /** Reordering the file changes neither the total nor the counts. */
  lemma OrderIrrelevant(rows: seq<RawRow>, rows': seq<RawRow>)
    requires multiset(rows) == multiset(rows')
    ensures Keys(rows) == Keys(rows')
    ensures KeyTotal(Keys(rows)) == KeyTotal(Keys(rows')) && |rows| == |rows'|
  {
    assert |multiset(rows)| == |rows| && |multiset(rows')| == |rows'|;
    forall r ensures r in rows <==> r in rows' {
      assert r in rows <==> r in multiset(rows);
      assert r in rows' <==> r in multiset(rows');
    }
  }

  // --------------------------------------------------------------------- submission

  datatype BatchStatus = Validated | InReview | Submitted | Approved | Processing | Completed | PartiallyFailed | BatchFailed

  datatype Batch = Batch(id: string, product: string, channel: string, status: BatchStatus, total: int, valid: nat)

  /** What the approval policy is asked about. */
  function ContextOf(b: Batch): Policy.Context {
    Policy.Context(b.total, b.product, b.channel, "", "", [])
  }

  function SubmitBatch(b: Batch, rules: seq<Policy.Rule>): (r: Result<(Batch, seq<Policy.StepRequirement>)>) {
    if b.status !in {Validated, InReview} then Err("INVALID_STATE")
    else if b.valid == 0 then Err("NO_VALID_ROWS")
    else
      var steps := Policy.Evaluate(rules, ContextOf(b));
      if |steps| == 0 then Ok((b.(status := Approved), []))
      else if !Policy.ValidRules(rules) then Err("INVALID_RULES")
      else Ok((b.(status := Submitted), steps))
  }

  function ApproveBatch(b: Batch): (r: Result<Batch>) {
    if b.status != Submitted then Err("INVALID_STATE") else Ok(b.(status := Approved))
  }

  // ---------------------------------------------------------------------- execution

  /** A payment created for a batch row. */
  datatype BatchPayment = BatchPayment(row: nat, key: string, amount: int)

  /** The rows in row-number order, the batch's payments, and the idempotency keys the tenant's payments already use. */
  datatype State = State(id: string, rows: seq<Row>, payments: seq<BatchPayment>, keys: set<string>)

  function RowKey(id: string, number: string): string {
    "batch:" + id + ":row:" + number
  }

  /** How one row of a chunk goes: the database may fail, and the job may fail to be enqueued after the payment exists. */
  datatype Outcome = Enqueued | NotEnqueued | DatabaseError

  function SetRow(s: State, i: nat, status: RowStatus): State
    requires i < |s.rows|
  {
    s.(rows := s.rows[i := s.rows[i].(status := status)])
  }

  /** The row's transaction: payment with a deterministic key and row PENDING, or an error. */
  function Materialize(s: State, i: nat, outcome: Outcome): (r: Result<State>) {
    if i >= |s.rows| then Err("ROW_NOT_FOUND")
    else if s.rows[i].status != Valid then Err("ROW_STATE")
    else if outcome == DatabaseError then Err("DATABASE")
    else
      var key := RowKey(s.id, s.rows[i].number);
      if key in s.keys then Err("23505")
      else Ok(SetRow(s, i, Pending).(payments := s.payments + [BatchPayment(i, key, s.rows[i].amount)], keys := s.keys + {key}))
  }

  /** One row of a chunk: whatever throws marks the row FAILED. */
  function DriveRow(s: State, i: nat, outcome: Outcome): State
    requires i < |s.rows|
  {
    match Materialize(s, i, outcome)
    case Ok(s1) => if outcome == NotEnqueued then SetRow(s1, i, Failed) else s1
    case Err(_) => SetRow(s, i, Failed)
  }

  /** Everything that happens to a batch under execution; drivers may stop and start again anywhere. */
  datatype Step =
    | Drive(row: nat, outcome: Outcome)
    | Resolve(payment: nat, status: RowStatus)
    | OtherPayment(key: string)

  function Next(s: State, step: Step): State {
    match step
    case Drive(i, outcome) => if i < |s.rows| && s.rows[i].status == Valid then DriveRow(s, i, outcome) else s
    case Resolve(k, status) =>
      // The row is found by the payment that resolved.
      if k < |s.payments| && s.payments[k].row < |s.rows| && status in {Success, Failed, Skipped} then SetRow(s, s.payments[k].row, status) else s
    case OtherPayment(key) => s.(keys := s.keys + {key})
  }

  function Run(s: State, steps: seq<Step>): State {
    if |steps| == 0 then s else Next(Run(s, steps[..|steps| - 1]), steps[|steps| - 1])
  }

  // -------------------------------------------------------------------------- safety

  function AmountOf(ps: seq<BatchPayment>): nat -> int {
    (k: nat) => if k < |ps| then ps[k].amount else 0
  }

  function PaidOut(s: State): int { Sum(|s.payments|, AmountOf(s.payments)) }

  function Open(s: State): int { Sum(|s.rows|, AmountIf(s.rows, Valid)) }

  /** No row has two payments, a VALID row has none, and each payment is for its row's amount. */
  ghost predicate PaymentsFit(s: State) {
    && (forall k | 0 <= k < |s.payments| ::
          s.payments[k].row < |s.rows| && s.rows[s.payments[k].row].status != Valid && s.payments[k].amount == s.rows[s.payments[k].row].amount)
    && (forall k, l | 0 <= k < l < |s.payments| :: s.payments[k].row != s.payments[l].row)
  }

  ghost predicate PositiveRows(s: State) {
    forall i | 0 <= i < |s.rows| && s.rows[i].status == Valid :: s.rows[i].amount > 0
  }

  lemma OpenUpdated(rows: seq<Row>, i: nat, row: Row)
    requires i < |rows| && row.status != Valid
    ensures Sum(|rows|, AmountIf(rows[i := row], Valid)) == Sum(|rows|, AmountIf(rows, Valid)) - if rows[i].status == Valid then rows[i].amount else 0
  {
    SumDelta(|rows|, AmountIf(rows, Valid), AmountIf(rows[i := row], Valid), i);
  }

  lemma PaidOutMore(ps: seq<BatchPayment>, p: BatchPayment)
    ensures Sum(|ps| + 1, AmountOf(ps + [p])) == Sum(|ps|, AmountOf(ps)) + p.amount
  {
    SumAgree(|ps|, AmountOf(ps + [p]), AmountOf(ps));
  }

  lemma DriveConserves(s: State, i: nat, outcome: Outcome)
    requires PaymentsFit(s) && PositiveRows(s) && i < |s.rows| && s.rows[i].status == Valid
    ensures PaymentsFit(DriveRow(s, i, outcome)) && PositiveRows(DriveRow(s, i, outcome))
    ensures PaidOut(DriveRow(s, i, outcome)) + Open(DriveRow(s, i, outcome)) <= PaidOut(s) + Open(s)
  {
    var s' := DriveRow(s, i, outcome);
    assert s'.rows == s.rows[i := s'.rows[i]];
    OpenUpdated(s.rows, i, s'.rows[i]);
    PaidOutMore(s.payments, BatchPayment(i, RowKey(s.id, s.rows[i].number), s.rows[i].amount));
  }

  lemma ResolveConserves(s: State, i: nat, status: RowStatus)
    requires PaymentsFit(s) && PositiveRows(s) && i < |s.rows| && status != Valid
    ensures PaymentsFit(SetRow(s, i, status)) && PositiveRows(SetRow(s, i, status))
    ensures Open(SetRow(s, i, status)) <= Open(s)
  {
    OpenUpdated(s.rows, i, s.rows[i].(status := status));
  }

  /** A step moves money from open to paid out or drops it, never the other way. */
  lemma StepConserves(s: State, step: Step)
    requires PaymentsFit(s) && PositiveRows(s)
    ensures PaymentsFit(Next(s, step)) && PositiveRows(Next(s, step))
    ensures PaidOut(Next(s, step)) + Open(Next(s, step)) <= PaidOut(s) + Open(s)
    ensures |Next(s, step).rows| == |s.rows|
  {
    match step {
      case Drive(i, outcome) =>
        if i < |s.rows| && s.rows[i].status == Valid {
          DriveConserves(s, i, outcome);
        }
      case Resolve(k, status) =>
        if Next(s, step) != s {
          ResolveConserves(s, s.payments[k].row, status);
        }
      case OtherPayment(_) =>
    }
  }

  lemma {:induction false} RunConserves(s: State, steps: seq<Step>)
    requires PaymentsFit(s) && PositiveRows(s)
    ensures PaymentsFit(Run(s, steps)) && PositiveRows(Run(s, steps))
    ensures PaidOut(Run(s, steps)) + Open(Run(s, steps)) <= PaidOut(s) + Open(s)
    ensures |Run(s, steps).rows| == |s.rows|
  {
    if |steps| > 0 {
      RunConserves(s, steps[..|steps| - 1]);
      StepConserves(Run(s, steps[..|steps| - 1]), steps[|steps| - 1]);
    }
  }

  lemma {:induction false} RunKeepsRows(s: State, steps: seq<Step>)
    ensures |Run(s, steps).rows| == |s.rows|
  {
    if |steps| > 0 {
      RunKeepsRows(s, steps[..|steps| - 1]);
    }
  }

  lemma OpenNonNegative(s: State)
    requires PositiveRows(s)
    ensures Open(s) >= 0
  {
    SumDominates(|s.rows|, AmountIf(s.rows, Valid));
  }

  /** However often the driver runs, crashes and resumes: one payment per row at most, and never more money than the total that was put up for approval. */
  lemma NeverMoreThanApproved(rows: seq<RawRow>, b: Batch, keys: set<string>, steps: seq<Step>)
    requires b.total == Sum(|rows|, AmountIf(Stored(rows), Valid))
    ensures var s := Run(State(b.id, Stored(rows), [], keys), steps);
      && PaidOut(s) <= b.total
      && (forall k, l | 0 <= k < l < |s.payments| :: s.payments[k].row != s.payments[l].row)
      && (forall k | 0 <= k < |s.payments| :: s.payments[k].row < |rows| && s.payments[k].amount == rows[s.payments[k].row].amount
                                               && Accepted(rows, s.payments[k].row))
  {
    var s0 := State(b.id, Stored(rows), [], keys);
    var s := Run(s0, steps);
    RunConserves(s0, steps);
    OpenNonNegative(s);
    forall k | 0 <= k < |s.payments|
      ensures s.payments[k].row < |rows| && s.payments[k].amount == rows[s.payments[k].row].amount && Accepted(rows, s.payments[k].row)
    {
      PaidRowsWereValid(s0, steps, s.payments[k].row);
    }
  }

  /**
   A submission asks the policy about the batch's own total, product and channel, which covers everything the batch will ever
   pay. It is approved on the spot exactly when every rule rules that out; otherwise one approval is needed and enough.
   */
  lemma SubmissionCovers(rows: seq<RawRow>, b: Batch, rules: seq<Policy.Rule>, keys: set<string>, steps: seq<Step>)
    requires b.total == Sum(|rows|, AmountIf(Stored(rows), Valid)) && SubmitBatch(b, rules).Ok?
    ensures b.status in {Validated, InReview} && b.valid > 0
    ensures var (b', required) := SubmitBatch(b, rules).value;
      var asked := Policy.Context(b.total, b.product, b.channel, "", "", []);
      var immediate := forall i | 0 <= i < |rules| :: Policy.Excluded(rules[i], asked);
      && PaidOut(Run(State(b.id, Stored(rows), [], keys), steps)) <= asked.amount
      && b' == b.(status := if immediate then Approved else Submitted)
      && (forall k: nat | Policy.Decides(rules, asked, k) :: Policy.Demand(rules[k], required))
      && (immediate <==> required == [])
      && ApproveBatch(b') == if immediate then Err("INVALID_STATE") else Ok(b.(status := Approved))
  {
    NeverMoreThanApproved(rows, b, keys, steps);
    Policy.DecisionIs(rules, ContextOf(b));
  }

  lemma {:induction false} PaidRowsWereValid(s: State, steps: seq<Step>, i: nat)
    requires s.payments == [] && i < |s.rows|
    ensures |Run(s, steps).rows| == |s.rows| && Run(s, steps).rows[i].amount == s.rows[i].amount
    ensures Run(s, steps).rows[i].status == Valid ==> s.rows[i].status == Valid
    ensures (exists k :: 0 <= k < |Run(s, steps).payments| && Run(s, steps).payments[k].row == i) ==> s.rows[i].status == Valid
  {
    if |steps| > 0 {
      var before, step := Run(s, steps[..|steps| - 1]), steps[|steps| - 1];
      PaidRowsWereValid(s, steps[..|steps| - 1], i);
      var after := Next(before, step);
      if k :| 0 <= k < |after.payments| && after.payments[k].row == i {
        if k < |before.payments| {
          assert before.payments[k].row == i;
        }
      }
    }
  }

  // ------------------------------------------------------------------------ the driver

  const CHUNK := 200
  const MAX_CHUNKS := 500

  /** The first VALID rows at position k or later, at most limit of them. */
  function ValidFrom(rows: seq<Row>, limit: nat, k: nat): (ids: seq<nat>)
    ensures |ids| <= limit
    ensures forall i | 0 <= i < |ids| :: k <= ids[i] < |rows| && rows[ids[i]].status == Valid
    ensures forall i, j | 0 <= i < j < |ids| :: ids[i] < ids[j]
    decreases |rows| - k
  {
    if limit == 0 || k >= |rows| then []
    else if rows[k].status == Valid then [k] + ValidFrom(rows, limit - 1, k + 1)
    else ValidFrom(rows, limit, k + 1)
  }

  /** A chunk that is not full holds every VALID row. */
  lemma {:induction false} ShortChunkIsLast(rows: seq<Row>, limit: nat, k: nat)
    requires k <= |rows|
    ensures |ValidFrom(rows, limit, k)| < limit ==> |ValidFrom(rows, limit, k)| == ValidCount(rows) - Sum(k, CountIf(rows, Valid))
    decreases |rows| - k
  {
    if limit > 0 && k < |rows| {
      ShortChunkIsLast(rows, if rows[k].status == Valid then limit - 1 else limit, k + 1);
    }
  }

  function ValidCount(rows: seq<Row>): int { Sum(|rows|, CountIf(rows, Valid)) }

  lemma ValidCountDrops(rows: seq<Row>, i: nat, row: Row)
    requires i < |rows| && rows[i].status == Valid && row.status != Valid
    ensures ValidCount(rows[i := row]) == ValidCount(rows) - 1
  {
    SumDelta(|rows|, CountIf(rows, Valid), CountIf(rows[i := row], Valid), i);
  }

  lemma NoneValid(rows: seq<Row>)
    ensures ValidCount(rows) >= 0
    ensures ValidCount(rows) == 0 <==> forall i | 0 <= i < |rows| :: rows[i].status != Valid
  {
    var f := CountIf(rows, Valid);
    SumDominates(|rows|, f);
    if forall i | 0 <= i < |rows| :: rows[i].status != Valid {
      SumZero(|rows|, f);
    } else {
      var i :| 0 <= i < |rows| && rows[i].status == Valid;
      assert f(i) == 1;
    }
  }

  predicate HasStatus(rows: seq<Row>, statuses: set<RowStatus>) {
    exists i :: 0 <= i < |rows| && rows[i].status in statuses
  }

  /** Recomputed after each chunk. */
  function StatusOf(rows: seq<Row>): BatchStatus {
    if HasStatus(rows, {Pending, Valid}) then Processing
    else if !HasStatus(rows, {Failed, Error}) then Completed
    else if HasStatus(rows, {Success}) then PartiallyFailed
    else BatchFailed
  }

  /** Driving one VALID row: one more step of the run, one VALID row fewer, no other row touched. */
  lemma RowDriven(s0: State, steps: seq<Step>, s: State, i: nat, outcome: Outcome)
    requires s == Run(s0, steps) && i < |s.rows| && s.rows[i].status == Valid
    ensures DriveRow(s, i, outcome) == Run(s0, steps + [Drive(i, outcome)])
    ensures var rows := DriveRow(s, i, outcome).rows;
      |rows| == |s.rows| && rows[i].status != Valid && rows == s.rows[i := rows[i]] && ValidCount(rows) == ValidCount(s.rows) - 1
  {
    assert (steps + [Drive(i, outcome)])[..|steps|] == steps;
    ValidCountDrops(s.rows, i, DriveRow(s, i, outcome).rows[i]);
  }

  class Driver {
    var state: State
    var status: BatchStatus

    constructor (state: State)
      ensures this.state == state && status == Approved
    {
      this.state, status := state, Approved;
    }

    /** One chunk: every pulled row leaves VALID, whatever happens to it. */
    method DriveChunk(outcome: nat -> Outcome) returns (pulled: nat, ghost steps: seq<Step>)
      modifies this
      ensures pulled <= CHUNK
      ensures state == Run(old(state), steps)
      ensures ValidCount(state.rows) == ValidCount(old(state).rows) - pulled
      ensures pulled < CHUNK ==> ValidCount(state.rows) == 0
      ensures pulled > 0 ==> status == StatusOf(state.rows)
    {
      var ids := ValidFrom(state.rows, CHUNK, 0);
      ShortChunkIsLast(state.rows, CHUNK, 0);
      steps := [];
      for k := 0 to |ids|
        invariant |state.rows| == |old(state).rows| && |steps| == k
        invariant state == Run(old(state), steps)
        invariant forall i | k <= i < |ids| :: state.rows[ids[i]].status == Valid
        invariant ValidCount(state.rows) == ValidCount(old(state).rows) - k
      {
        RowDriven(old(state), steps, state, ids[k], outcome(ids[k]));
        state := DriveRow(state, ids[k], outcome(ids[k]));
        steps := steps + [Drive(ids[k], outcome(ids[k]))];
      }
      pulled := |ids|;
      if pulled > 0 {
        status := StatusOf(state.rows);
      }
    }

    /** The whole job. 500 chunks of 200 rows are enough for any batch that CreateBatch accepts. */
    method Execute(outcome: nat -> Outcome) returns (ghost steps: seq<Step>)
      modifies this
      ensures state == Run(old(state), steps)
      ensures ValidCount(old(state).rows) <= MAX_CHUNKS * CHUNK ==> forall i | 0 <= i < |state.rows| :: state.rows[i].status != Valid
      ensures ValidCount(old(state).rows) > MAX_CHUNKS * CHUNK ==> ValidCount(state.rows) == ValidCount(old(state).rows) - MAX_CHUNKS * CHUNK
    {
      var chunk := 0;
      steps := [];
      while chunk < MAX_CHUNKS
        invariant 0 <= chunk <= MAX_CHUNKS
        invariant state == Run(old(state), steps)
        invariant ValidCount(state.rows) == ValidCount(old(state).rows) - chunk * CHUNK
      {
        ghost var more;
        var pulled;
        pulled, more := DriveChunk(outcome);
        RunJoins(old(state), steps, more);
        steps := steps + more;
        if pulled == 0 {
          break;
        }
        chunk := chunk + 1;
        if pulled < CHUNK {
          break;
        }
      }
      NoneValid(state.rows);
    }
  }

  lemma {:induction false} RunJoins(s: State, a: seq<Step>, b: seq<Step>)
    ensures Run(s, a + b) == Run(Run(s, a), b)
    decreases |b|
  {
    if |b| == 0 {
      assert a + b == a;
    } else {
      assert (a + b)[..|a + b| - 1] == a + b[..|b| - 1];
      RunJoins(s, a, b[..|b| - 1]);
    }
  }

  lemma {:induction false} CountAtMost(rows: seq<Row>, n: nat)
    ensures Sum(n, CountIf(rows, Valid)) <= n
  {
    if n > 0 {
      CountAtMost(rows, n - 1);
    }
  }

  /** The bound that matters: an accepted batch has at most 50,000 rows, well within 500 chunks of 200. */
  lemma AcceptedBatchFits(rows: seq<RawRow>)
    requires |rows| <= MAX_ROWS
    ensures ValidCount(Stored(rows)) <= MAX_CHUNKS * CHUNK
  {
    CountAtMost(Stored(rows), |rows|);
  }

  // ---------------------------------------------------------------------- completion

  /** COMPLETED says that every row succeeded or was skipped. */
  lemma CompletedIff(rows: seq<Row>)
    ensures StatusOf(rows) == Completed <==> forall i | 0 <= i < |rows| :: rows[i].status in {Success, Skipped}
  {
    if forall i | 0 <= i < |rows| :: rows[i].status in {Success, Skipped} {
      assert !HasStatus(rows, {Pending, Valid}) && !HasStatus(rows, {Failed, Error});
    } else {
      var i :| 0 <= i < |rows| && rows[i].status !in {Success, Skipped};
      match rows[i].status {
        case Pending => assert HasStatus(rows, {Pending, Valid});
        case Valid => assert HasStatus(rows, {Pending, Valid});
        case Failed => assert HasStatus(rows, {Failed, Error});
        case Error => assert HasStatus(rows, {Failed, Error});
        case _ =>
      }
    }
  }

  predicate Any(rows: seq<Row>, a: RowStatus, b: RowStatus) {
    exists i :: 0 <= i < |rows| && (rows[i].status == a || rows[i].status == b)
  }

  /** The other three: PROCESSING while any row is open, then PARTIALLY_FAILED or FAILED by whether any row succeeded. */
  lemma StatusIs(rows: seq<Row>)
    ensures StatusOf(rows) == Processing <==> Any(rows, Pending, Valid)
    ensures StatusOf(rows) == PartiallyFailed <==> !Any(rows, Pending, Valid) && Any(rows, Failed, Error) && Any(rows, Success, Success)
    ensures StatusOf(rows) == BatchFailed <==> !Any(rows, Pending, Valid) && Any(rows, Failed, Error) && !Any(rows, Success, Success)
  {
    assert HasStatus(rows, {Pending, Valid}) <==> Any(rows, Pending, Valid);
    assert HasStatus(rows, {Failed, Error}) <==> Any(rows, Failed, Error);
    assert HasStatus(rows, {Success}) <==> Any(rows, Success, Success);
  }

  /** A row without a payment that is refused or failed, or will fail because its key is taken. */
  ghost predicate Blocked(s: State, i: nat) {
    && i < |s.rows| && (forall k | 0 <= k < |s.payments| :: s.payments[k].row != i)
    && (s.rows[i].status in {Error, Failed} || (s.rows[i].status == Valid && RowKey(s.id, s.rows[i].number) in s.keys))
  }

  lemma StepKeepsBlocked(s: State, step: Step, i: nat)
    requires Blocked(s, i)
    ensures Blocked(Next(s, step), i)
  {
  }

  /** No run ever gets a blocked row out, so its batch never completes: once nothing is pending it is PARTIALLY_FAILED or FAILED. */
  lemma {:induction false} BlockedRowBlocksCompletion(s: State, steps: seq<Step>, i: nat)
    requires Blocked(s, i)
    ensures Blocked(Run(s, steps), i) && StatusOf(Run(s, steps).rows) != Completed
  {
    if |steps| > 0 {
      BlockedRowBlocksCompletion(s, steps[..|steps| - 1], i);
      StepKeepsBlocked(Run(s, steps[..|steps| - 1]), steps[|steps| - 1], i);
    }
    CompletedIff(Run(s, steps).rows);
  }

  function DriveEach(n: nat): seq<Step> {
    if n == 0 then [] else DriveEach(n - 1) + [Drive(n - 1, Enqueued)]
  }

  function ResolveEach(n: nat): seq<Step> {
    if n == 0 then [] else ResolveEach(n - 1) + [Resolve(n - 1, Success)]
  }

  /** Drives the rows in order, then reports success for each payment. */
  function CompletingRun(n: nat): seq<Step> {
    DriveEach(n) + ResolveEach(n)
  }

  /** Every row is VALID, and its key is neither taken nor the key of another row. */
  ghost predicate Payable(s: State) {
    && s.payments == []
    && (forall i | 0 <= i < |s.rows| :: s.rows[i].status == Valid && RowKey(s.id, s.rows[i].number) !in s.keys)
    && (forall i, j | 0 <= i < j < |s.rows| :: s.rows[i].number != s.rows[j].number)
  }

  lemma RowKeysDiffer(id: string, a: string, b: string)
    requires a != b
    ensures RowKey(id, a) != RowKey(id, b)
  {
    var n := |"batch:" + id + ":row:"|;
    assert RowKey(id, a)[n..] == a && RowKey(id, b)[n..] == b;
  }

  /** After k rows are driven: they are PENDING with a payment each, the others are as they were. */
  ghost predicate DrivenTo(s0: State, s: State, k: nat) {
    && |s.rows| == |s0.rows| && |s.payments| == k <= |s0.rows| && s.id == s0.id
    && (forall i | 0 <= i < k :: s.payments[i].row == i)
    && (forall i | 0 <= i < |s.rows| :: s.rows[i].number == s0.rows[i].number && s.rows[i].status == if i < k then Pending else Valid)
    && (forall i | k <= i < |s.rows| :: RowKey(s.id, s.rows[i].number) !in s.keys)
  }

  lemma DriveNext(s0: State, s: State, k: nat)
    requires Payable(s0) && DrivenTo(s0, s, k) && k < |s0.rows|
    ensures DrivenTo(s0, Next(s, Drive(k, Enqueued)), k + 1)
  {
    var s' := Next(s, Drive(k, Enqueued));
    forall i | k + 1 <= i < |s'.rows| ensures RowKey(s'.id, s'.rows[i].number) !in s'.keys {
      RowKeysDiffer(s.id, s.rows[i].number, s.rows[k].number);
    }
  }

  lemma {:induction false} Driven(s: State, k: nat)
    requires Payable(s) && k <= |s.rows|
    ensures DrivenTo(s, Run(s, DriveEach(k)), k)
  {
    if k > 0 {
      Driven(s, k - 1);
      assert DriveEach(k)[..|DriveEach(k)| - 1] == DriveEach(k - 1);
      DriveNext(s, Run(s, DriveEach(k - 1)), k - 1);
    }
  }

  lemma {:induction false} Resolved(s0: State, s: State, k: nat)
    requires DrivenTo(s0, s, |s.rows|) && k <= |s.rows|
    ensures var s' := Run(s, ResolveEach(k));
      s'.payments == s.payments && |s'.rows| == |s.rows| && forall i | 0 <= i < k :: s'.rows[i].status == Success
  {
    if k > 0 {
      Resolved(s0, s, k - 1);
      assert ResolveEach(k)[..|ResolveEach(k)| - 1] == ResolveEach(k - 1);
    }
  }

  lemma PayableCompletes(s: State)
    requires Payable(s)
    ensures StatusOf(Run(s, CompletingRun(|s.rows|)).rows) == Completed
  {
    var n := |s.rows|;
    Driven(s, n);
    Resolved(s, Run(s, DriveEach(n)), n);
    RunJoins(s, DriveEach(n), ResolveEach(n));
    CompletedIff(Run(s, CompletingRun(n)).rows);
  }

  /** What a caller can check before the batch is driven: no row is refused, and no row's key is taken. */
  predicate Clean(id: string, rows: seq<RawRow>, keys: set<string>) {
    forall i | 0 <= i < |rows| :: Accepted(rows, i) && RowKey(id, rows[i].number) !in keys
  }

  /**
   A freshly stored batch can become COMPLETED exactly when no row was refused and no row's key is
   taken by another payment; then driving and resolving the rows in order completes it, and otherwise nothing does.
   */
  lemma CompletableIff(id: string, rows: seq<RawRow>, keys: set<string>)
    requires NumbersDistinct(rows)
    ensures var s := State(id, Stored(rows), [], keys);
      && ((exists steps :: StatusOf(Run(s, steps).rows) == Completed) <==> Clean(id, rows, keys))
      && (StatusOf(Run(s, CompletingRun(|rows|)).rows) == Completed <==> Clean(id, rows, keys))
  {
    var s := State(id, Stored(rows), [], keys);
    if Clean(id, rows, keys) {
      PayableCompletes(s);
    } else {
      var i :| 0 <= i < |rows| && !(Accepted(rows, i) && RowKey(id, rows[i].number) !in keys);
      forall steps: seq<Step> ensures StatusOf(Run(s, steps).rows) != Completed {
        BlockedRowBlocksCompletion(s, steps, i);
      }
    }
  }
}
