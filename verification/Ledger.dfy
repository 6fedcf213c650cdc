/**
 The books of the platform: wallet rows, wallet reservations, the append-only
 wallet ledger and the double-entry journals (packages/ledger/src).

 A table is the sequence of its rows in insertion order and a row's id is its
 position. The functions are what each ledger operation does to the books; the
 class in LedgerDb.dfy performs them in place.
 */
module Ledger {
  import opened Prelude
  import opened Sums

  datatype Wallet = Wallet(tenant: nat, active: bool, available: int, reserved: int)

  datatype ReservationStatus = Held | Released | Applied

  datatype Reservation = Reservation(payment: nat, wallet: nat, amount: int, status: ReservationStatus)

  datatype EntryKind = Fund | Reserve | ReserveDenied | Release | Apply

  /** What a wallet-ledger entry refers to (refType and refId). */
  datatype Reference =
    | FundingRef
    | CollectionRef(collection: nat)
    | LinkRef(link: nat)
    | PaymentRef(payment: nat)

  datatype WalletEntry = WalletEntry(
    wallet: nat, kind: EntryKind, ref: Reference, amount: int,
    deltaAvailable: int, deltaReserved: int,
    availableAfter: int, reservedAfter: int)

  datatype Account =
    | WalletAccount(wallet: nat)
    | Clearing(tenant: nat)
    | FloatLiability(tenant: nat)
    | FeeRevenue(tenant: nat)
    | ProviderSettlement(tenant: nat)

  datatype JournalEntry = JournalEntry(account: Account, debit: int, credit: int)

  datatype JournalKind = PaymentJournal | ReversalJournal | FundingJournal

  datatype Journal = Journal(tenant: nat, kind: JournalKind, ref: nat, entries: seq<JournalEntry>)

  datatype Books = Books(
    wallets: seq<Wallet>,
    reservations: seq<Reservation>,
    entries: seq<WalletEntry>,
    accounts: set<Account>,
    journals: seq<Journal>)

  // ---------------------------------------------------------------- journals

  function DebitOf(es: seq<JournalEntry>): nat -> int {
    (i: nat) => if i < |es| then es[i].debit else 0
  }

  function CreditOf(es: seq<JournalEntry>): nat -> int {
    (i: nat) => if i < |es| then es[i].credit else 0
  }

  function Debits(es: seq<JournalEntry>): int { Sum(|es|, DebitOf(es)) }

  function Credits(es: seq<JournalEntry>): int { Sum(|es|, CreditOf(es)) }

  /** An entry that is a debit or a credit, not both and not neither. */
  predicate PureEntry(e: JournalEntry) {
    (e.debit > 0) != (e.credit > 0)
  }

  predicate PureEntries(es: seq<JournalEntry>) {
    forall i | 0 <= i < |es| :: PureEntry(es[i])
  }

  function PostJournal(b: Books, j: Journal): (r: Result<Books>) {
    if Debits(j.entries) != Credits(j.entries) then Err("JOURNAL_UNBALANCED")
    else if Debits(j.entries) <= 0 then Err("JOURNAL_UNBALANCED")
    else if !PureEntries(j.entries) then Err("JOURNAL_UNBALANCED")
    else Ok(b.(journals := b.journals + [j]))
  }

  function SystemAccount(b: Books, a: Account): (r: Result<Account>) {
    if a in b.accounts then Ok(a) else Err("ACCOUNT_NOT_FOUND")
  }

  /** Gets, or creates in the wallet's own tenant, the account that mirrors a wallet. */
  function OpenWalletAccount(b: Books, wallet: nat, tenant: nat): (r: Result<Books>) {
    if WalletAccount(wallet) in b.accounts then Ok(b)
    else if wallet >= |b.wallets| || b.wallets[wallet].tenant != tenant then Err("ACCOUNT_NOT_FOUND")
    else Ok(b.(accounts := b.accounts + {WalletAccount(wallet)}))
  }

  /** The account a payment is funded from: its wallet, or the tenant's float for batch rows. */
  function FundingAccount(tenant: nat, wallet: Option<nat>): Account {
    match wallet
    case Some(w) => WalletAccount(w)
    case None => FloatLiability(tenant)
  }

  function OpenFundingAccount(b: Books, tenant: nat, wallet: Option<nat>): (r: Result<Books>) {
    match wallet
    case Some(w) => OpenWalletAccount(b, w, tenant)
    case None => var _ :- SystemAccount(b, FloatLiability(tenant)); Ok(b)
  }

  function SuccessEntries(tenant: nat, wallet: Option<nat>, amount: int, fee: int): seq<JournalEntry> {
    [JournalEntry(Clearing(tenant), amount + fee, 0),
     JournalEntry(FundingAccount(tenant, wallet), 0, amount)]
    + (if fee > 0 then [JournalEntry(FeeRevenue(tenant), 0, fee)] else [])
  }

  function PostPaymentSuccess(b: Books, tenant: nat, payment: nat, wallet: Option<nat>, amount: int, fee: int): (r: Result<Books>) {
    var _ :- SystemAccount(b, Clearing(tenant));
    var b1 :- OpenFundingAccount(b, tenant, wallet);
    var _ :- if fee > 0 then SystemAccount(b1, FeeRevenue(tenant)) else Ok(Clearing(tenant));
    PostJournal(b1, Journal(tenant, PaymentJournal, payment, SuccessEntries(tenant, wallet, amount, fee)))
  }

  function ReversalEntries(tenant: nat, wallet: Option<nat>, amount: int): seq<JournalEntry> {
    [JournalEntry(FundingAccount(tenant, wallet), amount, 0),
     JournalEntry(Clearing(tenant), 0, amount)]
  }

  function PostReversal(b: Books, tenant: nat, payment: nat, wallet: Option<nat>, amount: int): (r: Result<Books>) {
    var _ :- SystemAccount(b, Clearing(tenant));
    var b1 :- OpenFundingAccount(b, tenant, wallet);
    PostJournal(b1, Journal(tenant, ReversalJournal, payment, ReversalEntries(tenant, wallet, amount)))
  }

  function FundingEntries(tenant: nat, wallet: nat, amount: int): seq<JournalEntry> {
    [JournalEntry(WalletAccount(wallet), amount, 0),
     JournalEntry(FloatLiability(tenant), 0, amount)]
  }

  function PostFunding(b: Books, tenant: nat, wallet: nat, amount: int): (r: Result<Books>) {
    var b1 :- OpenWalletAccount(b, wallet, tenant);
    var _ :- SystemAccount(b1, FloatLiability(tenant));
    PostJournal(b1, Journal(tenant, FundingJournal, wallet, FundingEntries(tenant, wallet, amount)))
  }

  // ----------------------------------------------------------- wallet movements

  /**
   One wallet movement: the wallet row changes by the two deltas and the ledger
   records them with the balances after. A negative amount is refused by the
   trigger on wallet_ledger_entries.
   */
  function Move(b: Books, wallet: nat, kind: EntryKind, ref: Reference, amount: int, da: int, dr: int): (r: Result<Books>) {
    if wallet >= |b.wallets| then Err("WALLET_NOT_FOUND")
    else if amount < 0 then Err("P0001")
    else
      var w := b.wallets[wallet];
      var w' := w.(available := w.available + da, reserved := w.reserved + dr);
      Ok(b.(wallets := b.wallets[wallet := w'],
            entries := b.entries + [WalletEntry(wallet, kind, ref, amount, da, dr, w'.available, w'.reserved)]))
  }

  /** Credits a wallet with received money: movement and funding journal together. */
  function Credit(b: Books, tenant: nat, wallet: nat, ref: Reference, amount: int): (r: Result<Books>) {
    var b1 :- Move(b, wallet, Fund, ref, amount, amount, 0);
    PostFunding(b1, tenant, wallet, amount)
  }

  /** Position of the reservation of a payment, if it has one. */
  function FindReservation(rs: seq<Reservation>, payment: nat): (r: Option<nat>)
    ensures r.Some? ==> r.value < |rs| && rs[r.value].payment == payment
    ensures r.None? ==> forall i | 0 <= i < |rs| :: rs[i].payment != payment
  {
    if |rs| == 0 then None
    else if rs[|rs| - 1].payment == payment then Some(|rs| - 1)
    else FindReservation(rs[..|rs| - 1], payment)
  }

  /**
   Reserves funds for a payment. True means reserved; false means denied, which
   still leaves a RESERVE_DENIED entry behind. A payment has one reservation at most (unique index).
   */
  function ReserveFunds(b: Books, tenant: nat, payment: nat, wallet: nat, amount: int): (r: Result<(Books, bool)>) {
    if wallet < |b.wallets| && b.wallets[wallet].tenant == tenant && b.wallets[wallet].available >= amount then
      if FindReservation(b.reservations, payment).Some? then Err("23505")
      else
        var b1 :- Move(b, wallet, Reserve, PaymentRef(payment), amount, -amount, amount);
        Ok((b1.(reservations := b1.reservations + [Reservation(payment, wallet, amount, Held)]), true))
    else
      var b1 :- Move(b, wallet, ReserveDenied, PaymentRef(payment), amount, 0, 0);
      Ok((b1, false))
  }

  function SettleReservation(b: Books, r: nat, status: ReservationStatus, kind: EntryKind, da: int): (res: Result<Books>)
    requires r < |b.reservations|
  {
    var held := b.reservations[r];
    var b1 :- Move(b, held.wallet, kind, PaymentRef(held.payment), held.amount, da, -held.amount);
    Ok(b1.(reservations := b1.reservations[r := held.(status := status)]))
  }

  /** Returns a held reservation to the available balance; anything else is left alone. */
  function ReleaseReservation(b: Books, r: nat): (res: Result<Books>) {
    if r >= |b.reservations| || b.reservations[r].status != Held then Ok(b)
    else SettleReservation(b, r, Released, Release, b.reservations[r].amount)
  }

  /** Consumes a held reservation: the money leaves the float. */
  function ApplyReservation(b: Books, r: nat): (res: Result<Books>) {
    if r >= |b.reservations| || b.reservations[r].status != Held then Ok(b)
    else SettleReservation(b, r, Applied, Apply, 0)
  }

  // ----------------------------------------------------------- what the books mean

  function NetIn(es: seq<JournalEntry>, a: Account): nat -> int {
    (i: nat) => if i < |es| && es[i].account == a then es[i].debit - es[i].credit else 0
  }

  /** What one journal does to an account: debits less credits. */
  function Net(es: seq<JournalEntry>, a: Account): int { Sum(|es|, NetIn(es, a)) }

  function NetOf(js: seq<Journal>, a: Account): nat -> int {
    (i: nat) => if i < |js| then Net(js[i].entries, a) else 0
  }

  /** Journal balance of an account. */
  function Balance(js: seq<Journal>, a: Account): int { Sum(|js|, NetOf(js, a)) }

  function HeldOf(rs: seq<Reservation>, wallet: nat): nat -> int {
    (i: nat) => if i < |rs| && rs[i].wallet == wallet && rs[i].status == Held then rs[i].amount else 0
  }

  function HeldTotal(rs: seq<Reservation>, wallet: nat): int { Sum(|rs|, HeldOf(rs, wallet)) }

  function AvailableDelta(es: seq<WalletEntry>, wallet: nat): nat -> int {
    (i: nat) => if i < |es| && es[i].wallet == wallet then es[i].deltaAvailable else 0
  }

  function ReservedDelta(es: seq<WalletEntry>, wallet: nat): nat -> int {
    (i: nat) => if i < |es| && es[i].wallet == wallet then es[i].deltaReserved else 0
  }

  /** The balances recorded by entry k are the sums of the deltas up to and including it. */
  ghost predicate EntryReplays(es: seq<WalletEntry>, k: nat)
    requires k < |es|
  {
    && es[k].availableAfter == Sum(k + 1, AvailableDelta(es, es[k].wallet))
    && es[k].reservedAfter == Sum(k + 1, ReservedDelta(es, es[k].wallet))
  }

  /** The live row of a wallet is the sum of all its deltas. */
  ghost predicate WalletReplays(es: seq<WalletEntry>, w: nat, row: Wallet) {
    && row.available == Sum(|es|, AvailableDelta(es, w))
    && row.reserved == Sum(|es|, ReservedDelta(es, w))
  }

  /** Replaying the ledger gives each balance it recorded and the live wallet rows. */
  ghost predicate Replays(b: Books) {
    && (forall k | 0 <= k < |b.entries| :: b.entries[k].wallet < |b.wallets| && EntryReplays(b.entries, k))
    && (forall w | 0 <= w < |b.wallets| :: WalletReplays(b.entries, w, b.wallets[w]))
  }

  ghost predicate Balanced(j: Journal) {
    Debits(j.entries) == Credits(j.entries) > 0 && PureEntries(j.entries)
  }

  ghost predicate AllBalanced(js: seq<Journal>) {
    forall i | 0 <= i < |js| :: Balanced(js[i])
  }

  ghost predicate OnePerPayment(rs: seq<Reservation>) {
    forall i, j | 0 <= i < j < |rs| :: rs[i].payment != rs[j].payment
  }

  ghost predicate ReservationsBacked(b: Books) {
    && (forall i | 0 <= i < |b.reservations| ::
          b.reservations[i].wallet < |b.wallets| && b.reservations[i].amount >= 0)
    && (forall w | 0 <= w < |b.wallets| ::
          && b.wallets[w].available >= 0
          && b.wallets[w].reserved == HeldTotal(b.reservations, w))
  }

  /** The invariant of the books on their own. */
  ghost predicate Sound(b: Books) {
    Replays(b) && ReservationsBacked(b) && OnePerPayment(b.reservations) && AllBalanced(b.journals)
  }

  /** How far the journal account of a wallet is from its wallet row. */
  ghost function Gap(b: Books, w: nat): int
    requires w < |b.wallets|
  {
    Balance(b.journals, WalletAccount(w)) - (b.wallets[w].available + b.wallets[w].reserved)
  }

  // ----------------------------------------------------------------- lemmas

  lemma {:induction false} FindAppended(rs: seq<Reservation>, r: Reservation, payment: nat)
    ensures FindReservation(rs + [r], payment)
         == if r.payment == payment then Some(|rs|) else FindReservation(rs, payment)
  {
    assert (rs + [r])[..|rs|] == rs;
  }

  lemma {:induction false} FindUpdated(rs: seq<Reservation>, k: nat, r: Reservation, payment: nat)
    requires k < |rs| && r.payment == rs[k].payment
    ensures FindReservation(rs[k := r], payment) == FindReservation(rs, payment)
  {
    var n := |rs| - 1;
    if rs[n].payment != payment {
      if k < n {
        assert rs[k := r][..n] == rs[..n][k := r];
        FindUpdated(rs[..n], k, r, payment);
      } else {
        assert rs[k := r][..n] == rs[..n];
      }
    }
  }

  lemma HeldAppended(rs: seq<Reservation>, r: Reservation, w: nat)
    ensures HeldTotal(rs + [r], w)
         == HeldTotal(rs, w) + if r.wallet == w && r.status == Held then r.amount else 0
  {
    SumAgree(|rs|, HeldOf(rs + [r], w), HeldOf(rs, w));
  }

  lemma HeldUpdated(rs: seq<Reservation>, k: nat, r: Reservation, w: nat)
    requires k < |rs| && r.wallet == rs[k].wallet && r.amount == rs[k].amount
    requires rs[k].status == Held && r.status != Held
    ensures HeldTotal(rs[k := r], w) == HeldTotal(rs, w) - if r.wallet == w then r.amount else 0
  {
    SumDelta(|rs|, HeldOf(rs, w), HeldOf(rs[k := r], w), k);
  }

  lemma BalanceAppended(js: seq<Journal>, j: Journal, a: Account)
    ensures Balance(js + [j], a) == Balance(js, a) + Net(j.entries, a)
  {
    SumAgree(|js|, NetOf(js + [j], a), NetOf(js, a));
  }

  lemma NetOfTwo(e0: JournalEntry, e1: JournalEntry, a: Account)
    ensures Net([e0, e1], a)
         == (if e0.account == a then e0.debit - e0.credit else 0)
          + (if e1.account == a then e1.debit - e1.credit else 0)
  {
    var f := NetIn([e0, e1], a);
    assert Sum(2, f) == Sum(1, f) + f(1);
    assert Sum(1, f) == Sum(0, f) + f(0);
  }

  lemma NetOfThree(e0: JournalEntry, e1: JournalEntry, e2: JournalEntry, a: Account)
    ensures Net([e0, e1, e2], a) == Net([e0, e1], a) + (if e2.account == a then e2.debit - e2.credit else 0)
  {
    SumAgree(2, NetIn([e0, e1, e2], a), NetIn([e0, e1], a));
  }

  /** Net effect of a success journal: the funding account loses the principal, clearing gains everything. */
  lemma SuccessNet(tenant: nat, wallet: Option<nat>, amount: int, fee: int, a: Account)
    requires fee >= 0
    ensures Net(SuccessEntries(tenant, wallet, amount, fee), a)
         == (if a == Clearing(tenant) then amount + fee else 0)
          - (if a == FundingAccount(tenant, wallet) then amount else 0)
          - (if a == FeeRevenue(tenant) then fee else 0)
  {
    var es := SuccessEntries(tenant, wallet, amount, fee);
    NetOfTwo(es[0], es[1], a);
    if fee > 0 {
      assert es == [es[0], es[1], es[2]];
      NetOfThree(es[0], es[1], es[2], a);
    } else {
      assert es == [es[0], es[1]];
    }
  }

  lemma ReversalNet(tenant: nat, wallet: Option<nat>, amount: int, a: Account)
    ensures Net(ReversalEntries(tenant, wallet, amount), a)
         == (if a == FundingAccount(tenant, wallet) then amount else 0)
          - (if a == Clearing(tenant) then amount else 0)
  {
    var es := ReversalEntries(tenant, wallet, amount);
    NetOfTwo(es[0], es[1], a);
  }

  lemma DeltasAppended(es: seq<WalletEntry>, e: WalletEntry, w: nat, k: nat)
    requires k <= |es|
    ensures Sum(k, AvailableDelta(es + [e], w)) == Sum(k, AvailableDelta(es, w))
    ensures Sum(k, ReservedDelta(es + [e], w)) == Sum(k, ReservedDelta(es, w))
  {
    SumAgree(k, AvailableDelta(es + [e], w), AvailableDelta(es, w));
    SumAgree(k, ReservedDelta(es + [e], w), ReservedDelta(es, w));
  }

  /** Moving money on a wallet and recording it keeps the ledger replayable. */
  lemma MoveReplays(b: Books, wallet: nat, kind: EntryKind, ref: Reference, amount: int, da: int, dr: int)
    requires Replays(b) && wallet < |b.wallets| && amount >= 0
    ensures Replays(Move(b, wallet, kind, ref, amount, da, dr).value)
  {
    var b' := Move(b, wallet, kind, ref, amount, da, dr).value;
    var e := b'.entries[|b.entries|];
    forall k | 0 <= k < |b'.entries|
      ensures b'.entries[k].wallet < |b'.wallets| && EntryReplays(b'.entries, k)
    {
      if k < |b.entries| {
        assert EntryReplays(b.entries, k);
        DeltasAppended(b.entries, e, b.entries[k].wallet, k + 1);
      } else {
        assert WalletReplays(b.entries, wallet, b.wallets[wallet]);
        DeltasAppended(b.entries, e, wallet, k);
      }
    }
    forall w | 0 <= w < |b'.wallets|
      ensures WalletReplays(b'.entries, w, b'.wallets[w])
    {
      assert WalletReplays(b.entries, w, b.wallets[w]);
      DeltasAppended(b.entries, e, w, |b.entries|);
    }
  }

  /** A credit keeps the books sound and the journal account in step with the wallet row; it is never for a non-positive amount. */
  lemma CreditSound(b: Books, tenant: nat, wallet: nat, ref: Reference, amount: int)
    requires Sound(b)
    requires Credit(b, tenant, wallet, ref, amount).Ok?
    ensures var b' := Credit(b, tenant, wallet, ref, amount).value;
      && Sound(b')
      && amount > 0
      && b'.reservations == b.reservations
      && |b'.wallets| == |b.wallets|
      && (forall w | 0 <= w < |b.wallets| :: Gap(b', w) == Gap(b, w))
  {
    var b' := Credit(b, tenant, wallet, ref, amount).value;
    MoveReplays(b, wallet, Fund, ref, amount, amount, 0);
    var es := FundingEntries(tenant, wallet, amount);
    assert amount > 0 by {
      assert PureEntry(es[0]);
    }
    forall w | 0 <= w < |b.wallets|
      ensures Gap(b', w) == Gap(b, w)
    {
      BalanceAppended(b.journals, b'.journals[|b.journals|], WalletAccount(w));
      NetOfTwo(es[0], es[1], WalletAccount(w));
    }
  }

  /** Reserving keeps the books sound and moves no money out of the wallet. */
  lemma ReserveSound(b: Books, tenant: nat, payment: nat, wallet: nat, amount: int)
    requires Sound(b)
    requires ReserveFunds(b, tenant, payment, wallet, amount).Ok?
    ensures var (b', reserved) := ReserveFunds(b, tenant, payment, wallet, amount).value;
      && Sound(b')
      && wallet < |b.wallets| == |b'.wallets|
      && amount >= 0
      && b'.journals == b.journals
      && b'.accounts == b.accounts
      && b'.reservations == b.reservations + (if reserved then [Reservation(payment, wallet, amount, Held)] else [])
      && (reserved ==> FindReservation(b.reservations, payment).None?)
      && (forall w | 0 <= w < |b.wallets| :: Gap(b', w) == Gap(b, w))
  {
    var (b', reserved) := ReserveFunds(b, tenant, payment, wallet, amount).value;
    if reserved {
      MoveReplays(b, wallet, Reserve, PaymentRef(payment), amount, -amount, amount);
      forall w | 0 <= w < |b.wallets|
        ensures b'.wallets[w].reserved == HeldTotal(b'.reservations, w)
      {
        HeldAppended(b.reservations, Reservation(payment, wallet, amount, Held), w);
      }
    } else {
      MoveReplays(b, wallet, ReserveDenied, PaymentRef(payment), amount, 0, 0);
    }
  }

  /** Releasing or applying a held reservation keeps the books sound; only applying takes money out. */
  lemma SettleSound(b: Books, r: nat, status: ReservationStatus, kind: EntryKind, da: int)
    requires Sound(b) && r < |b.reservations| && b.reservations[r].status == Held && status != Held
    requires 0 <= da <= b.reservations[r].amount
    ensures SettleReservation(b, r, status, kind, da).Ok?
    ensures var b' := SettleReservation(b, r, status, kind, da).value;
      && Sound(b')
      && b'.journals == b.journals
      && b'.accounts == b.accounts
      && |b'.wallets| == |b.wallets|
      && b'.reservations == b.reservations[r := b.reservations[r].(status := status)]
      && (forall w | 0 <= w < |b.wallets| ::
            Gap(b', w) == Gap(b, w) + if w == b.reservations[r].wallet then b.reservations[r].amount - da else 0)
  {
    var held := b.reservations[r];
    MoveReplays(b, held.wallet, kind, PaymentRef(held.payment), held.amount, da, -held.amount);
    var b' := SettleReservation(b, r, status, kind, da).value;
    forall w | 0 <= w < |b.wallets|
      ensures b'.wallets[w].reserved == HeldTotal(b'.reservations, w)
    {
      HeldUpdated(b.reservations, r, held.(status := status), w);
    }
  }

  /** Posting a journal keeps the books sound and moves each wallet's gap by the journal's net. */
  lemma PostSound(b: Books, j: Journal, w: nat)
    requires Sound(b) && PostJournal(b, j).Ok? && w < |b.wallets|
    ensures Sound(PostJournal(b, j).value)
    ensures Gap(PostJournal(b, j).value, w) == Gap(b, w) + Net(j.entries, WalletAccount(w))
  {
    BalanceAppended(b.journals, j, WalletAccount(w));
  }

  /** A success journal can only be posted for a non-negative fee. */
  lemma SuccessNeedsFee(tenant: nat, wallet: Option<nat>, amount: int, fee: int)
    ensures var es := SuccessEntries(tenant, wallet, amount, fee);
      Debits(es) == amount + fee && Credits(es) == amount + (if fee > 0 then fee else 0)
  {
    var es := SuccessEntries(tenant, wallet, amount, fee);
    var d, c := DebitOf(es), CreditOf(es);
    assert Sum(1, d) == Sum(0, d) + d(0) && Sum(1, c) == Sum(0, c) + c(0);
    assert Sum(2, d) == Sum(1, d) + d(1) && Sum(2, c) == Sum(1, c) + c(1);
    if fee > 0 {
      assert Sum(3, d) == Sum(2, d) + d(2) && Sum(3, c) == Sum(2, c) + c(2);
    }
  }
}
