/**
 The invariant that ties payments, reservations, journals and provider calls
 together, and the lemmas that say how each elementary update moves it.
 */
module PaymentInvariant {
  import opened Prelude
  import opened Sums
  import opened Ledger
  import opened Payments

  // ------------------------------------------------------------------ tallies

  function IsJournal(js: seq<Journal>, kind: JournalKind, pid: nat): nat -> int {
    (i: nat) => if i < |js| && js[i].kind == kind && js[i].ref == pid then 1 else 0
  }

  function IsApply(es: seq<WalletEntry>, pid: nat): nat -> int {
    (i: nat) => if i < |es| && es[i].kind == Apply && es[i].ref == PaymentRef(pid) then 1 else 0
  }

  function IsAttempt(xs: seq<Attempt>, pid: nat): nat -> int {
    (i: nat) => if i < |xs| && xs[i].payment == pid then 1 else 0
  }

  function IsReversal(xs: seq<Reversal>, pid: nat): nat -> int {
    (i: nat) => if i < |xs| && xs[i].payment == pid then 1 else 0
  }

  function IsSuccessNotice(xs: seq<Notice>, pid: nat): nat -> int {
    (i: nat) => if i < |xs| && xs[i] == Notice(Succeeded, pid) then 1 else 0
  }

  function IsChange(xs: seq<Change>, pid: nat): nat -> int {
    (i: nat) => if i < |xs| && xs[i].payment == pid && xs[i].from.Some? then 1 else 0
  }

  function Journals(js: seq<Journal>, kind: JournalKind, pid: nat): int { Sum(|js|, IsJournal(js, kind, pid)) }
  function Applies(es: seq<WalletEntry>, pid: nat): int { Sum(|es|, IsApply(es, pid)) }
  function AttemptCount(xs: seq<Attempt>, pid: nat): int { Sum(|xs|, IsAttempt(xs, pid)) }
  function ReversalCount(xs: seq<Reversal>, pid: nat): int { Sum(|xs|, IsReversal(xs, pid)) }
  function SuccessNotices(xs: seq<Notice>, pid: nat): int { Sum(|xs|, IsSuccessNotice(xs, pid)) }
  function Changes(xs: seq<Change>, pid: nat): int { Sum(|xs|, IsChange(xs, pid)) }

  function HoldStatus(rs: seq<Reservation>, pid: nat): Option<ReservationStatus> {
    match FindReservation(rs, pid)
    case None => None
    case Some(k) => Some(rs[k].status)
  }

  /** Everything the other tables say about one payment. */
  datatype Tally = Tally(
    hold: Option<ReservationStatus>,
    successJournals: int, reversalJournals: int, applies: int,
    attempts: int, reversals: int, notices: int, changes: int)

  const BLANK := Tally(None, 0, 0, 0, 0, 0, 0, 0)

  function TallyOf(s: State, pid: nat): Tally {
    Tally(
      HoldStatus(s.books.reservations, pid),
      Journals(s.books.journals, PaymentJournal, pid),
      Journals(s.books.journals, ReversalJournal, pid),
      Applies(s.books.entries, pid),
      AttemptCount(s.attempts, pid),
      ReversalCount(s.reversals, pid),
      SuccessNotices(s.outbox, pid),
      Changes(s.history, pid))
  }

  // ---------------------------------------------------------------- invariant

  /** Where a committed payment can be, and what each place implies about the other tables. */
  ghost predicate StatusFits(p: Payment, t: Tally) {
    match p.status
    case Draft => t.hold.None? && t.successJournals == 0 && t.attempts == 0
    case PendingApproval => t.hold.None? && t.successJournals == 0 && t.attempts == 0
    case Queued => (p.wallet.Some? ==> t.hold == Some(Held)) && t.successJournals == 0 && t.attempts == 0
    case ProviderPending => (p.wallet.Some? ==> t.hold == Some(Held)) && t.successJournals == 0 && t.attempts == 1
    case Success => t.successJournals == 1 && t.reversalJournals == 0 && t.attempts == 1
    case Failed => t.hold != Some(Held) && t.successJournals == 0
    case Cancelled => t.successJournals == 0 && (t.attempts == 1 ==> t.hold != Some(Held))
    case Reversed => t.attempts == 1
    case _ => false
  }

  ghost predicate Fits(p: Payment, t: Tally) {
    && 0 <= t.reversalJournals == t.reversals <= t.successJournals == t.notices <= 1
    && 0 <= t.attempts <= 1
    && t.applies == (if t.hold == Some(Applied) then 1 else 0)
    && (t.hold == Some(Applied) <==> p.wallet.Some? && t.successJournals == 1)
    && (p.wallet.None? ==> t.hold.None?)
    && (p.providerRef != "" ==> t.successJournals == 1)
    && p.total == p.amount + p.fee
    && p.version == 1 + t.changes
    && StatusFits(p, t)
  }

  /** What is fixed when a payment is created. */
  predicate SameTerms(p: Payment, q: Payment) {
    p.tenant == q.tenant && p.wallet == q.wallet && p.amount == q.amount && p.fee == q.fee && p.total == q.total && p.key == q.key
  }

  /** What payment i contributes to the gap of wallet w: its fee once it succeeded, its principal once it was reversed. */
  function GapTerm(ps: seq<Payment>, js: seq<Journal>, w: nat): nat -> int {
    (i: nat) =>
      if i < |ps| && ps[i].wallet == Some(w) then
        (if Journals(js, PaymentJournal, i) > 0 then ps[i].fee else 0)
        + (if Journals(js, ReversalJournal, i) > 0 then ps[i].amount else 0)
      else 0
  }

  function ExpectedGap(s: State, w: nat): int {
    Sum(|s.payments|, GapTerm(s.payments, s.books.journals, w))
  }

  ghost function Drift(s: State, w: nat): int
    requires w < |s.books.wallets|
  {
    Gap(s.books, w) - ExpectedGap(s, w)
  }

  ghost predicate ReservationFits(ps: seq<Payment>, r: Reservation) {
    r.payment < |ps| && ps[r.payment].wallet == Some(r.wallet) && r.amount == ps[r.payment].total >= 0
  }

  /** Payment and reversal journals have the entries their payment dictates, and a reversal follows one success. */
  ghost predicate JournalFits(ps: seq<Payment>, js: seq<Journal>, k: nat)
    requires k < |js|
  {
    var j := js[k];
    match j.kind
    case FundingJournal => true
    case PaymentJournal =>
      j.ref < |ps| && j.entries == SuccessEntries(ps[j.ref].tenant, ps[j.ref].wallet, ps[j.ref].amount, ps[j.ref].fee)
      && ps[j.ref].fee >= 0
    case ReversalJournal =>
      j.ref < |ps| && j.entries == ReversalEntries(ps[j.ref].tenant, ps[j.ref].wallet, ps[j.ref].amount)
      && Journals(js[..k], PaymentJournal, j.ref) == 1
  }

  ghost predicate KeysFit(s: State) {
    && (forall i, j | 0 <= i < j < |s.payments| ::
          s.payments[i].tenant != s.payments[j].tenant || s.payments[i].key != s.payments[j].key)
    && (forall k | k in s.records ::
          s.records[k] < |s.payments| && (s.payments[s.records[k]].tenant, s.payments[s.records[k]].key) == k)
  }

  ghost predicate LegalHistory(h: seq<Change>) {
    forall i | 0 <= i < |h| && h[i].from.Some? :: h[i].to in Successors(h[i].from.value)
  }

  /** The part of the invariant that no command suspends, even halfway through. */
  ghost predicate Framework(s: State) {
    && Sound(s.books)
    && (forall r | 0 <= r < |s.books.reservations| :: ReservationFits(s.payments, s.books.reservations[r]))
    && (forall k | 0 <= k < |s.books.journals| :: JournalFits(s.payments, s.books.journals, k))
    && LegalHistory(s.history)
  }

  /** Keys are unique, wallets exist, and no table mentions a payment that does not. */
  ghost predicate Registered(s: State) {
    && KeysFit(s)
    && (forall i | 0 <= i < |s.payments| && s.payments[i].wallet.Some? :: s.payments[i].wallet.value < |s.books.wallets|)
    && (forall q: nat | q >= |s.payments| :: TallyOf(s, q) == BLANK)
  }

  ghost predicate NoDrift(s: State) {
    forall w | 0 <= w < |s.books.wallets| :: Drift(s, w) == 0
  }

  ghost predicate AllFit(s: State) {
    forall i | 0 <= i < |s.payments| :: Fits(s.payments[i], TallyOf(s, i))
  }

  ghost predicate Inv(s: State) {
    Framework(s) && Registered(s) && AllFit(s) && NoDrift(s)
  }

  // ------------------------------------------------ changes to a single payment

  /** The step from s to s' concerns payment pid and nobody else. */
  ghost predicate Touches(s: State, s': State, pid: nat) {
    && pid < |s.payments| == |s'.payments|
    && s'.payments == s.payments[pid := s'.payments[pid]]
    && SameTerms(s.payments[pid], s'.payments[pid])
    && |s'.books.wallets| == |s.books.wallets|
    && s'.records == s.records
    && (forall q: nat | q != pid :: TallyOf(s', q) == TallyOf(s, q))
    && Framework(s')
  }

  ghost predicate DriftMoves(s: State, s': State, wallet: Option<nat>, shift: int) {
    && |s'.books.wallets| == |s.books.wallets|
    && forall w | 0 <= w < |s.books.wallets| ::
         Drift(s', w) == Drift(s, w) + if wallet == Some(w) then shift else 0
  }

  lemma TouchedRegistered(s: State, s': State, pid: nat)
    requires Registered(s) && Touches(s, s', pid)
    ensures Registered(s')
  {
    forall q: nat | q >= |s'.payments| ensures TallyOf(s', q) == BLANK {
      assert TallyOf(s, q) == BLANK;
    }
  }

  /** If only pid was touched, pid fits afterwards and the drift is back to zero, the invariant holds again. */
  lemma TouchedKeepsInv(s: State, s': State, pid: nat)
    requires Inv(s) && Touches(s, s', pid)
    requires Fits(s'.payments[pid], TallyOf(s', pid))
    requires NoDrift(s')
    ensures Inv(s')
  {
    assert AllFit(s') by {
      forall i | 0 <= i < |s'.payments| ensures Fits(s'.payments[i], TallyOf(s', i)) {
        if i != pid {
          assert TallyOf(s', i) == TallyOf(s, i);
          assert Fits(s.payments[i], TallyOf(s, i));
        }
      }
    }
    TouchedRegistered(s, s', pid);
  }

  lemma JournalsAppended(js: seq<Journal>, j: Journal, kind: JournalKind, pid: nat)
    ensures Journals(js + [j], kind, pid) == Journals(js, kind, pid) + if j.kind == kind && j.ref == pid then 1 else 0
  {
    SumAgree(|js|, IsJournal(js + [j], kind, pid), IsJournal(js, kind, pid));
  }

  lemma AppliesAppended(es: seq<WalletEntry>, e: WalletEntry, pid: nat)
    ensures Applies(es + [e], pid) == Applies(es, pid) + if e.kind == Apply && e.ref == PaymentRef(pid) then 1 else 0
  {
    SumAgree(|es|, IsApply(es + [e], pid), IsApply(es, pid));
  }

  lemma AttemptsAppended(xs: seq<Attempt>, x: Attempt, pid: nat)
    ensures AttemptCount(xs + [x], pid) == AttemptCount(xs, pid) + if x.payment == pid then 1 else 0
  {
    SumAgree(|xs|, IsAttempt(xs + [x], pid), IsAttempt(xs, pid));
  }

  lemma ReversalsAppended(xs: seq<Reversal>, x: Reversal, pid: nat)
    ensures ReversalCount(xs + [x], pid) == ReversalCount(xs, pid) + if x.payment == pid then 1 else 0
  {
    SumAgree(|xs|, IsReversal(xs + [x], pid), IsReversal(xs, pid));
  }

  lemma NoticesAppended(xs: seq<Notice>, x: Notice, pid: nat)
    ensures SuccessNotices(xs + [x], pid) == SuccessNotices(xs, pid) + if x == Notice(Succeeded, pid) then 1 else 0
  {
    SumAgree(|xs|, IsSuccessNotice(xs + [x], pid), IsSuccessNotice(xs, pid));
  }

  lemma ChangesAppended(xs: seq<Change>, x: Change, pid: nat)
    ensures Changes(xs + [x], pid) == Changes(xs, pid) + if x.payment == pid && x.from.Some? then 1 else 0
  {
    SumAgree(|xs|, IsChange(xs + [x], pid), IsChange(xs, pid));
  }

  /** Rewriting a row without changing its terms leaves every expected gap alone. */
  lemma ExpectedGapSameTerms(s: State, s': State, w: nat)
    requires |s'.payments| == |s.payments| && s'.books.journals == s.books.journals
    requires forall i | 0 <= i < |s.payments| :: SameTerms(s.payments[i], s'.payments[i])
    ensures ExpectedGap(s', w) == ExpectedGap(s, w)
  {
    SumAgree(|s.payments|, GapTerm(s.payments, s.books.journals, w), GapTerm(s'.payments, s.books.journals, w));
  }

  lemma DriftSameTerms(s: State, s': State)
    requires s'.books == s.books && |s'.payments| == |s.payments|
    requires forall i | 0 <= i < |s.payments| :: SameTerms(s.payments[i], s'.payments[i])
    ensures DriftMoves(s, s', None, 0)
  {
    forall w | 0 <= w < |s.books.wallets| ensures Drift(s', w) == Drift(s, w) {
      ExpectedGapSameTerms(s, s', w);
    }
  }

  /** Rewriting the mutable columns of one payment row. */
  lemma RowSet(s: State, pid: nat, p: Payment)
    requires Framework(s) && pid < |s.payments| && SameTerms(s.payments[pid], p)
    ensures Touches(s, SetPayment(s, pid, p), pid)
    ensures TallyOf(SetPayment(s, pid, p), pid) == TallyOf(s, pid)
    ensures DriftMoves(s, SetPayment(s, pid, p), None, 0)
  {
    var s' := SetPayment(s, pid, p);
    forall k | 0 <= k < |s.books.journals| ensures JournalFits(s'.payments, s'.books.journals, k) {
      assert JournalFits(s.payments, s.books.journals, k);
    }
    forall r | 0 <= r < |s.books.reservations| ensures ReservationFits(s'.payments, s'.books.reservations[r]) {
      assert ReservationFits(s.payments, s.books.reservations[r]);
    }
    DriftSameTerms(s, s');
  }

  /** A guarded transition moves the status, the version and the history together. */
  lemma StatusMoved(s: State, pid: nat, to: Status)
    requires Framework(s) && Transition(s, pid, to).Ok? && s.payments[pid].status != to
    ensures var s' := Transition(s, pid, to).value;
      && Touches(s, s', pid)
      && DriftMoves(s, s', None, 0)
      && TallyOf(s', pid) == TallyOf(s, pid).(changes := TallyOf(s, pid).changes + 1)
  {
    var s' := Transition(s, pid, to).value;
    RowSet(s, pid, s'.payments[pid]);
    forall q: nat
      ensures TallyOf(s', q) == TallyOf(s, q).(changes := TallyOf(s, q).changes + if q == pid then 1 else 0)
    {
      ChangesAppended(s.history, Change(pid, Some(s.payments[pid].status), to), q);
    }
    DriftSameTerms(s, s');
  }

  lemma Transitioned(s: State, pid: nat, to: Status)
    requires Framework(s) && Transition(s, pid, to).Ok?
    ensures var s' := Transition(s, pid, to).value;
      && Touches(s, s', pid)
      && DriftMoves(s, s', None, 0)
      && s'.books == s.books && s'.attempts == s.attempts && s'.events == s.events && s'.reversals == s.reversals
      && (var moved := if s.payments[pid].status == to then 0 else 1;
          && s'.payments[pid] == s.payments[pid].(status := to, version := s.payments[pid].version + moved)
          && TallyOf(s', pid) == TallyOf(s, pid).(changes := TallyOf(s, pid).changes + moved))
  {
    if s.payments[pid].status == to {
      DriftSameTerms(s, s);
    } else {
      StatusMoved(s, pid, to);
    }
  }

  /** Notices other than success notices are invisible; a success notice counts for its payment. */
  lemma Notified(s: State, kind: NoticeKind, ref: nat, pid: nat)
    requires Framework(s) && pid < |s.payments| && (kind == Succeeded ==> ref == pid)
    ensures var s' := Notify(s, kind, ref);
      && Touches(s, s', pid)
      && DriftMoves(s, s', None, 0)
      && TallyOf(s', pid) == TallyOf(s, pid).(notices := TallyOf(s, pid).notices + if kind == Succeeded then 1 else 0)
  {
    var s' := Notify(s, kind, ref);
    forall q: nat
      ensures TallyOf(s', q) == TallyOf(s, q).(notices := TallyOf(s, q).notices + if kind == Succeeded && q == pid then 1 else 0)
    {
      NoticesAppended(s.outbox, Notice(kind, ref), q);
    }
    DriftSameTerms(s, s');
  }

  lemma Attempted(s: State, pid: nat, ref: string)
    requires Framework(s) && pid < |s.payments|
    ensures var s' := RecordAttempt(s, pid, ref);
      && Touches(s, s', pid)
      && DriftMoves(s, s', None, 0)
      && TallyOf(s', pid) == TallyOf(s, pid).(attempts := TallyOf(s, pid).attempts + 1)
  {
    var s' := RecordAttempt(s, pid, ref);
    forall q: nat
      ensures TallyOf(s', q) == TallyOf(s, q).(attempts := TallyOf(s, q).attempts + if q == pid then 1 else 0)
    {
      AttemptsAppended(s.attempts, Attempt(pid, ref), q);
    }
    DriftSameTerms(s, s');
  }

  lemma ReversalAdded(s: State, pid: nat, processed: bool)
    requires Framework(s) && pid < |s.payments|
    ensures var s' := AddReversal(s, pid, processed);
      && Touches(s, s', pid)
      && DriftMoves(s, s', None, 0)
      && TallyOf(s', pid) == TallyOf(s, pid).(reversals := TallyOf(s, pid).reversals + 1)
  {
    var s' := AddReversal(s, pid, processed);
    forall q: nat
      ensures TallyOf(s', q) == TallyOf(s, q).(reversals := TallyOf(s, q).reversals + if q == pid then 1 else 0)
    {
      ReversalsAppended(s.reversals, Reversal(pid, processed), q);
    }
    DriftSameTerms(s, s');
  }

  /** A books update that leaves the journals alone moves the drift exactly as it moves the gap. */
  lemma BooksSetDrift(s: State, b: Books, wallet: Option<nat>, shift: int)
    requires b.journals == s.books.journals && |b.wallets| == |s.books.wallets|
    requires forall w | 0 <= w < |b.wallets| :: Gap(b, w) == Gap(s.books, w) + if wallet == Some(w) then shift else 0
    ensures DriftMoves(s, s.(books := b), wallet, shift)
  {
    forall w | 0 <= w < |b.wallets|
      ensures Drift(s.(books := b), w) == Drift(s, w) + if wallet == Some(w) then shift else 0
    {
      ExpectedGapSameTerms(s, s.(books := b), w);
    }
  }

  /** Replacing the books while keeping the journals: what remains to be shown of a step that touches pid alone. */
  lemma BooksTouched(s: State, b: Books, pid: nat)
    requires Framework(s) && pid < |s.payments|
    requires Sound(b) && b.journals == s.books.journals && |b.wallets| == |s.books.wallets|
    requires forall r | 0 <= r < |b.reservations| :: ReservationFits(s.payments, b.reservations[r])
    requires forall q: nat | q != pid :: TallyOf(s.(books := b), q) == TallyOf(s, q)
    ensures Touches(s, s.(books := b), pid)
  {
  }

  /** One more wallet entry and one more or one changed reservation, seen from payment q. */
  lemma TallyAfterMove(s: State, b: Books, e: WalletEntry, q: nat)
    requires b.journals == s.books.journals && b.entries == s.books.entries + [e]
    ensures TallyOf(s.(books := b), q) == TallyOf(s, q).(
              hold := HoldStatus(b.reservations, q),
              applies := TallyOf(s, q).applies + if e.kind == Apply && e.ref == PaymentRef(q) then 1 else 0)
  {
    AppliesAppended(s.books.entries, e, q);
  }

  lemma TallyAfterReserve(s: State, b: Books, r: Reservation, reserved: bool, q: nat)
    requires b.journals == s.books.journals && |b.entries| == |s.books.entries| + 1
    requires b.entries == s.books.entries + [b.entries[|s.books.entries|]] && b.entries[|s.books.entries|].kind != Apply
    requires b.reservations == s.books.reservations + (if reserved then [r] else [])
    ensures TallyOf(s.(books := b), q)
         == TallyOf(s, q).(hold := if reserved && q == r.payment then Some(r.status) else TallyOf(s, q).hold)
  {
    TallyAfterMove(s, b, b.entries[|s.books.entries|], q);
    if reserved {
      FindAppended(s.books.reservations, r, q);
    } else {
      assert b.reservations == s.books.reservations;
    }
  }

  lemma TallyAfterSettle(s: State, b: Books, k: nat, status: ReservationStatus, q: nat)
    requires b.journals == s.books.journals && |b.entries| == |s.books.entries| + 1 && k < |s.books.reservations|
    requires b.entries == s.books.entries + [b.entries[|s.books.entries|]]
    requires b.reservations == s.books.reservations[k := s.books.reservations[k].(status := status)]
    requires FindReservation(s.books.reservations, s.books.reservations[k].payment) == Some(k)
    requires b.entries[|s.books.entries|].ref == PaymentRef(s.books.reservations[k].payment)
    requires b.entries[|s.books.entries|].kind == Apply <==> status == Applied
    ensures TallyOf(s.(books := b), q) == if q != s.books.reservations[k].payment then TallyOf(s, q) else
      TallyOf(s, q).(hold := Some(status), applies := TallyOf(s, q).applies + if status == Applied then 1 else 0)
  {
    TallyAfterMove(s, b, b.entries[|s.books.entries|], q);
    FindUpdated(s.books.reservations, k, s.books.reservations[k].(status := status), q);
  }

  /** The books b after payment pid asked for a reservation. */
  ghost predicate Asked(s: State, b: Books, pid: nat, reserved: bool) {
    && pid < |s.payments| && s.payments[pid].wallet.Some?
    && b.journals == s.books.journals
    && b.reservations == s.books.reservations
         + (if reserved then [Reservation(pid, s.payments[pid].wallet.value, s.payments[pid].total, Held)] else [])
    && |b.entries| == |s.books.entries| + 1
    && b.entries == s.books.entries + [b.entries[|s.books.entries|]]
    && b.entries[|s.books.entries|].kind != Apply
  }

  lemma HoldAsked(s: State, b: Books, pid: nat, reserved: bool)
    requires Framework(s) && Asked(s, b, pid, reserved)
    requires Sound(b) && |b.wallets| == |s.books.wallets|
    ensures Touches(s, s.(books := b), pid)
    ensures TallyOf(s.(books := b), pid)
         == TallyOf(s, pid).(hold := if reserved then Some(Held) else TallyOf(s, pid).hold)
  {
    var p := s.payments[pid];
    forall q: nat
      ensures TallyOf(s.(books := b), q)
           == TallyOf(s, q).(hold := if reserved && q == pid then Some(Held) else TallyOf(s, q).hold)
    {
      TallyAfterReserve(s, b, Reservation(pid, p.wallet.value, p.total, Held), reserved, q);
    }
    BooksTouched(s, b, pid);
  }

  /** Reserving for a payment: it gains a held reservation, or is denied and keeps its tally. */
  lemma FundsReserved(s: State, tenant: nat, pid: nat)
    requires Framework(s) && pid < |s.payments| && s.payments[pid].wallet.Some?
    requires ReserveFunds(s.books, tenant, pid, s.payments[pid].wallet.value, s.payments[pid].total).Ok?
    ensures var (b, reserved) := ReserveFunds(s.books, tenant, pid, s.payments[pid].wallet.value, s.payments[pid].total).value;
      var s' := s.(books := b);
      && Touches(s, s', pid)
      && DriftMoves(s, s', None, 0)
      && (reserved ==> TallyOf(s, pid).hold.None?)
      && TallyOf(s', pid) == TallyOf(s, pid).(hold := if reserved then Some(Held) else TallyOf(s, pid).hold)
  {
    var p := s.payments[pid];
    var (b, reserved) := ReserveFunds(s.books, tenant, pid, p.wallet.value, p.total).value;
    ReserveSound(s.books, tenant, pid, p.wallet.value, p.total);
    HoldAsked(s, b, pid, reserved);
    BooksSetDrift(s, b, None, 0);
  }

  /** The books b after the held reservation k of payment pid was released or applied. */
  ghost predicate Settled(s: State, b: Books, pid: nat, k: nat, status: ReservationStatus) {
    && FindReservation(s.books.reservations, pid) == Some(k)
    && b.journals == s.books.journals
    && b.reservations == s.books.reservations[k := s.books.reservations[k].(status := status)]
    && |b.entries| == |s.books.entries| + 1
    && b.entries == s.books.entries + [b.entries[|s.books.entries|]]
    && b.entries[|s.books.entries|].ref == PaymentRef(pid)
    && (b.entries[|s.books.entries|].kind == Apply <==> status == Applied)
  }

  lemma HoldSettled(s: State, b: Books, pid: nat, k: nat, status: ReservationStatus)
    requires Framework(s) && pid < |s.payments| && Settled(s, b, pid, k, status)
    requires Sound(b) && |b.wallets| == |s.books.wallets|
    ensures Touches(s, s.(books := b), pid)
    ensures TallyOf(s.(books := b), pid) == TallyOf(s, pid).(
              hold := Some(status),
              applies := TallyOf(s, pid).applies + if status == Applied then 1 else 0)
  {
    forall q: nat
      ensures TallyOf(s.(books := b), q) == if q != pid then TallyOf(s, q) else
        TallyOf(s, q).(hold := Some(status), applies := TallyOf(s, q).applies + if status == Applied then 1 else 0)
    {
      TallyAfterSettle(s, b, k, status, q);
    }
    BooksTouched(s, b, pid);
  }

  /** Consuming the hold of a payment releases or applies it exactly when it is held. */
  lemma HoldConsumed(s: State, pid: nat, apply: bool)
    requires Framework(s) && pid < |s.payments|
    ensures ConsumeHold(s, pid, apply).Ok?
    ensures var s' := ConsumeHold(s, pid, apply).value;
      var held := TallyOf(s, pid).hold == Some(Held);
      && Touches(s, s', pid)
      && s' == s.(books := s'.books)
      && DriftMoves(s, s', s.payments[pid].wallet, if held && apply then s.payments[pid].total else 0)
      && TallyOf(s', pid) == TallyOf(s, pid).(
           hold := if held then Some(if apply then Applied else Released) else TallyOf(s, pid).hold,
           applies := TallyOf(s, pid).applies + if held && apply then 1 else 0)
  {
    if TallyOf(s, pid).hold == Some(Held) {
      var k := FindReservation(s.books.reservations, pid).value;
      var r := s.books.reservations[k];
      assert ReservationFits(s.payments, r);
      if apply {
        SettleSound(s.books, k, Applied, Apply, 0);
      } else {
        SettleSound(s.books, k, Released, Release, r.amount);
      }
      var b := ConsumeHold(s, pid, apply).value.books;
      HoldSettled(s, b, pid, k, if apply then Applied else Released);
      BooksSetDrift(s, b, s.payments[pid].wallet, if apply then s.payments[pid].total else 0);
    }
  }

  /** Journals of other payments keep fitting when a journal is appended. */
  lemma JournalsKeepFitting(s: State, j: Journal, k: nat)
    requires k < |s.books.journals| && JournalFits(s.payments, s.books.journals, k)
    ensures JournalFits(s.payments, s.books.journals + [j], k)
  {
    assert (s.books.journals + [j])[..k] == s.books.journals[..k];
  }

  /** The expected gap after one more journal for payment pid. */
  lemma ExpectedGapPosted(s: State, j: Journal, pid: nat, w: nat)
    requires pid < |s.payments| && j.kind != FundingJournal && j.ref == pid
    requires Journals(s.books.journals, j.kind, pid) == 0
    ensures var ps := s.payments;
      Sum(|ps|, GapTerm(ps, s.books.journals + [j], w)) == ExpectedGap(s, w)
        + if ps[pid].wallet != Some(w) then 0 else if j.kind == PaymentJournal then ps[pid].fee else ps[pid].amount
  {
    var js := s.books.journals;
    var f, g := GapTerm(s.payments, js, w), GapTerm(s.payments, js + [j], w);
    forall i: nat
      ensures Journals(js + [j], PaymentJournal, i) == Journals(js, PaymentJournal, i) + if j.kind == PaymentJournal && i == pid then 1 else 0
      ensures Journals(js + [j], ReversalJournal, i) == Journals(js, ReversalJournal, i) + if j.kind == ReversalJournal && i == pid then 1 else 0
    {
      JournalsAppended(js, j, PaymentJournal, i);
      JournalsAppended(js, j, ReversalJournal, i);
    }
    SumDelta(|s.payments|, f, g, pid);
  }

  /** How the journal j of payment pid moves the drift of wallet w. */
  lemma DriftPosted(s: State, b: Books, j: Journal, pid: nat, w: nat)
    requires pid < |s.payments| && w < |s.books.wallets|
    requires b == s.books.(accounts := b.accounts, journals := s.books.journals + [j])
    requires j.kind != FundingJournal && j.ref == pid
    requires Journals(s.books.journals, j.kind, pid) == 0
    requires JournalFits(s.payments, b.journals, |s.books.journals|)
    ensures var p := s.payments[pid];
      Drift(s.(books := b), w) == Drift(s, w)
        + if p.wallet == Some(w) && j.kind == PaymentJournal then -p.amount - p.fee else 0
  {
    var p := s.payments[pid];
    BalanceAppended(s.books.journals, j, WalletAccount(w));
    ExpectedGapPosted(s, j, pid, w);
    if j.kind == PaymentJournal {
      SuccessNet(p.tenant, p.wallet, p.amount, p.fee, WalletAccount(w));
    } else {
      ReversalNet(p.tenant, p.wallet, p.amount, WalletAccount(w));
    }
  }

  lemma TallyPosted(s: State, b: Books, j: Journal, pid: nat, q: nat)
    requires b == s.books.(accounts := b.accounts, journals := s.books.journals + [j])
    requires j.kind != FundingJournal && j.ref == pid
    ensures TallyOf(s.(books := b), q) == if q != pid then TallyOf(s, q) else
      TallyOf(s, q).(
        successJournals := TallyOf(s, q).successJournals + (if j.kind == PaymentJournal then 1 else 0),
        reversalJournals := TallyOf(s, q).reversalJournals + (if j.kind == ReversalJournal then 1 else 0))
  {
    JournalsAppended(s.books.journals, j, PaymentJournal, q);
    JournalsAppended(s.books.journals, j, ReversalJournal, q);
  }

  /** Posting the journal j of payment pid, with accounts possibly opened on the way. */
  lemma JournalPosted(s: State, b: Books, j: Journal, pid: nat)
    requires Framework(s) && pid < |s.payments|
    requires b == s.books.(accounts := b.accounts, journals := s.books.journals + [j])
    requires Balanced(j) && j.kind != FundingJournal && j.ref == pid
    requires JournalFits(s.payments, b.journals, |s.books.journals|)
    ensures Touches(s, s.(books := b), pid)
  {
    var s' := s.(books := b);
    forall q: nat | q != pid ensures TallyOf(s', q) == TallyOf(s, q) {
      TallyPosted(s, b, j, pid, q);
    }
    forall k | 0 <= k < |b.journals| ensures JournalFits(s'.payments, b.journals, k) {
      if k < |s.books.journals| {
        JournalsKeepFitting(s, j, k);
      }
    }
    assert Sound(b);
  }

  /** The success journal of a payment takes its principal and fee out of the drift. */
  lemma SuccessPosted(s: State, pid: nat)
    requires Framework(s) && pid < |s.payments| && TallyOf(s, pid).successJournals == 0
    requires var p := s.payments[pid]; PostPaymentSuccess(s.books, p.tenant, pid, p.wallet, p.amount, p.fee).Ok?
    ensures var p := s.payments[pid];
      var s' := s.(books := PostPaymentSuccess(s.books, p.tenant, pid, p.wallet, p.amount, p.fee).value);
      && Touches(s, s', pid)
      && DriftMoves(s, s', p.wallet, -p.amount - p.fee)
      && TallyOf(s', pid) == TallyOf(s, pid).(successJournals := 1)
  {
    var p := s.payments[pid];
    var b := PostPaymentSuccess(s.books, p.tenant, pid, p.wallet, p.amount, p.fee).value;
    var j := Journal(p.tenant, PaymentJournal, pid, SuccessEntries(p.tenant, p.wallet, p.amount, p.fee));
    SuccessNeedsFee(p.tenant, p.wallet, p.amount, p.fee);
    JournalPosted(s, b, j, pid);
    TallyPosted(s, b, j, pid, pid);
    forall w | 0 <= w < |s.books.wallets|
      ensures Drift(s.(books := b), w) == Drift(s, w) + if p.wallet == Some(w) then -p.amount - p.fee else 0
    {
      DriftPosted(s, b, j, pid, w);
    }
  }

  /** The reversal journal of a payment leaves no drift: wallet account and expected gap move together. */
  lemma ReversalPosted(s: State, pid: nat)
    requires Framework(s) && pid < |s.payments|
    requires TallyOf(s, pid).successJournals == 1 && TallyOf(s, pid).reversalJournals == 0
    requires var p := s.payments[pid]; PostReversal(s.books, p.tenant, pid, p.wallet, p.amount).Ok?
    ensures var p := s.payments[pid];
      var s' := s.(books := PostReversal(s.books, p.tenant, pid, p.wallet, p.amount).value);
      && Touches(s, s', pid)
      && DriftMoves(s, s', None, 0)
      && TallyOf(s', pid) == TallyOf(s, pid).(reversalJournals := 1)
  {
    var p := s.payments[pid];
    var b := PostReversal(s.books, p.tenant, pid, p.wallet, p.amount).value;
    var j := Journal(p.tenant, ReversalJournal, pid, ReversalEntries(p.tenant, p.wallet, p.amount));
    assert b.journals[..|s.books.journals|] == s.books.journals;
    JournalPosted(s, b, j, pid);
    TallyPosted(s, b, j, pid, pid);
    forall w | 0 <= w < |s.books.wallets| ensures Drift(s.(books := b), w) == Drift(s, w) {
      DriftPosted(s, b, j, pid, w);
    }
  }
}
