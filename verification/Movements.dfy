/**
 What each operation of the ledger leaves in the books, row by row, and exactly
 when it is refused (packages/ledger/src/ledger.ts and wallet.ts).
 */
module Movements {
  import opened Prelude
  import opened Sums
  import opened Ledger

  // --------------------------------------------------------------------- journals

  /** Totals by hand, from the first entry to the last. */
  function TotalDebit(es: seq<JournalEntry>): int {
    if |es| == 0 then 0 else es[0].debit + TotalDebit(es[1..])
  }

  function TotalCredit(es: seq<JournalEntry>): int {
    if |es| == 0 then 0 else es[0].credit + TotalCredit(es[1..])
  }

  lemma {:induction false} TotalsExtend(es: seq<JournalEntry>, e: JournalEntry)
    ensures TotalDebit(es + [e]) == TotalDebit(es) + e.debit && TotalCredit(es + [e]) == TotalCredit(es) + e.credit
  {
    if |es| > 0 {
      assert (es + [e])[1..] == es[1..] + [e];
      TotalsExtend(es[1..], e);
    }
  }

  lemma {:induction false} TotalsAre(es: seq<JournalEntry>, n: nat)
    requires n <= |es|
    ensures Sum(n, DebitOf(es)) == TotalDebit(es[..n]) && Sum(n, CreditOf(es)) == TotalCredit(es[..n])
  {
    if n > 0 {
      TotalsAre(es, n - 1);
      assert es[..n] == es[..n - 1] + [es[n - 1]];
      TotalsExtend(es[..n - 1], es[n - 1]);
    }
  }

  /** A journal is accepted exactly when its debits and credits have one positive total and each entry is on one side; it is then appended as it is and nothing else changes. */
  lemma JournalAcceptedIff(b: Books, j: Journal)
    ensures PostJournal(b, j).Ok? <==>
      && TotalDebit(j.entries) == TotalCredit(j.entries) > 0
      && forall i | 0 <= i < |j.entries| ::
           (j.entries[i].debit > 0 && j.entries[i].credit <= 0) || (j.entries[i].debit <= 0 && j.entries[i].credit > 0)
    ensures PostJournal(b, j).Ok? ==> PostJournal(b, j).value == Books(b.wallets, b.reservations, b.entries, b.accounts, b.journals + [j])
    ensures PostJournal(b, j).Err? ==> PostJournal(b, j).code == "JOURNAL_UNBALANCED"
  {
    TotalsAre(j.entries, |j.entries|);
    assert j.entries[..|j.entries|] == j.entries;
  }

  /** The account that mirrors a wallet is there, or can be opened because the wallet is the tenant's own. */
  predicate Mirrored(b: Books, tenant: nat, wallet: nat) {
    WalletAccount(wallet) in b.accounts || (wallet < |b.wallets| && b.wallets[wallet].tenant == tenant)
  }

  lemma TwoTotals(e: JournalEntry, f: JournalEntry)
    ensures TotalDebit([e, f]) == e.debit + f.debit && TotalCredit([e, f]) == e.credit + f.credit
  {
    assert [e, f][1..] == [f] && [f][1..] == [];
    assert TotalDebit([f]) == f.debit && TotalCredit([f]) == f.credit;
  }

  /** The entries of a funding of a wallet: the wallet's account against the tenant's float. */
  predicate IsFundingJournal(j: Journal, tenant: nat, wallet: nat, amount: int) {
    j == Journal(tenant, FundingJournal, wallet, [JournalEntry(WalletAccount(wallet), amount, 0), JournalEntry(FloatLiability(tenant), 0, amount)])
  }

  /** The entries of a success: clearing takes principal and fee, the funding account gives the principal and fee revenue the fee, if there is one. */
  predicate IsSuccessJournal(j: Journal, tenant: nat, payment: nat, wallet: Option<nat>, amount: int, fee: int) {
    var source := if wallet.Some? then WalletAccount(wallet.value) else FloatLiability(tenant);
    var principal := [JournalEntry(Clearing(tenant), amount + fee, 0), JournalEntry(source, 0, amount)];
    j == Journal(tenant, PaymentJournal, payment, if fee > 0 then principal + [JournalEntry(FeeRevenue(tenant), 0, fee)] else principal)
  }

  /** The entries of a reversal: clearing gives the principal back to the funding account. */
  predicate IsReversalJournal(j: Journal, tenant: nat, payment: nat, wallet: Option<nat>, amount: int) {
    var source := if wallet.Some? then WalletAccount(wallet.value) else FloatLiability(tenant);
    j == Journal(tenant, ReversalJournal, payment, [JournalEntry(source, amount, 0), JournalEntry(Clearing(tenant), 0, amount)])
  }

  /** One journal more, and of the accounts at most the wallet's own. */
  predicate OneJournalMore(b: Books, b': Books, wallet: Option<nat>) {
    && |b'.journals| == |b.journals| + 1 && b'.journals[..|b.journals|] == b.journals
    && b'.accounts == b.accounts + (if wallet.Some? then {WalletAccount(wallet.value)} else {})
    && b'.wallets == b.wallets && b'.reservations == b.reservations && b'.entries == b.entries
  }

  lemma SuccessJournal(b: Books, tenant: nat, payment: nat, wallet: Option<nat>, amount: int, fee: int)
    requires PostPaymentSuccess(b, tenant, payment, wallet, amount, fee).Ok?
    ensures var b' := PostPaymentSuccess(b, tenant, payment, wallet, amount, fee).value;
      OneJournalMore(b, b', wallet) && IsSuccessJournal(b'.journals[|b.journals|], tenant, payment, wallet, amount, fee)
  {
    var es := SuccessEntries(tenant, wallet, amount, fee);
    assert fee <= 0 ==> es == es[..2];
  }

  /** When a reversal journal can be posted, and what it is. */
  lemma ReversalPostedIff(b: Books, tenant: nat, payment: nat, wallet: Option<nat>, amount: int)
    ensures PostReversal(b, tenant, payment, wallet, amount).Ok? <==>
      && Clearing(tenant) in b.accounts && amount > 0
      && (if wallet.Some? then Mirrored(b, tenant, wallet.value) else FloatLiability(tenant) in b.accounts)
    ensures PostReversal(b, tenant, payment, wallet, amount).Ok? ==>
      var b' := PostReversal(b, tenant, payment, wallet, amount).value;
      OneJournalMore(b, b', wallet) && IsReversalJournal(b'.journals[|b.journals|], tenant, payment, wallet, amount)
  {
    var es := ReversalEntries(tenant, wallet, amount);
    TwoTotals(es[0], es[1]);
    JournalAcceptedIff(b, Journal(tenant, ReversalJournal, payment, es));
    TotalsAre(es, 2);
    assert es[..2] == es;
  }

  // ----------------------------------------------------------- wallets and reservations

  /** The row after its balances moved, and the entry that records them. */
  predicate Moved(b: Books, b': Books, wallet: nat, kind: EntryKind, ref: Reference, amount: int, available: int, reserved: int) {
    && wallet < |b.wallets|
    && (var w := b.wallets[wallet];
        && b'.wallets == b.wallets[wallet := Wallet(w.tenant, w.active, w.available + available, w.reserved + reserved)]
        && b'.entries == b.entries + [WalletEntry(wallet, kind, ref, amount, available, reserved, w.available + available, w.reserved + reserved)])
  }

  /** Money came in: available rises by the amount, one FUND entry, one funding journal. */
  predicate Banked(b: Books, b': Books, tenant: nat, wallet: nat, ref: Reference, amount: int) {
    && Moved(b, b', wallet, Fund, ref, amount, amount, 0)
    && b'.reservations == b.reservations && b'.accounts == b.accounts + {WalletAccount(wallet)}
    && |b'.journals| == |b.journals| + 1 && b'.journals[..|b.journals|] == b.journals
    && IsFundingJournal(b'.journals[|b.journals|], tenant, wallet, amount)
  }

  /** When a wallet can be credited, and what that does. */
  lemma CreditedIff(b: Books, tenant: nat, wallet: nat, ref: Reference, amount: int)
    ensures Credit(b, tenant, wallet, ref, amount).Ok? <==>
      && wallet < |b.wallets| && amount > 0
      && Mirrored(b, tenant, wallet) && FloatLiability(tenant) in b.accounts
    ensures Credit(b, tenant, wallet, ref, amount).Ok? ==> Banked(b, Credit(b, tenant, wallet, ref, amount).value, tenant, wallet, ref, amount)
  {
    var es := FundingEntries(tenant, wallet, amount);
    TwoTotals(es[0], es[1]);
    TotalsAre(es, 2);
    assert es[..2] == es;
    JournalAcceptedIff(b, Journal(tenant, FundingJournal, wallet, es));
  }

  /** The wallet is the tenant's and has the money. */
  predicate Covers(b: Books, tenant: nat, wallet: nat, amount: int) {
    wallet < |b.wallets| && b.wallets[wallet].tenant == tenant && b.wallets[wallet].available >= amount
  }

  predicate HasReservation(b: Books, payment: nat) {
    exists k :: 0 <= k < |b.reservations| && b.reservations[k].payment == payment
  }

  /** Funds are set aside: available falls and reserved rises by the amount, with a HELD reservation. */
  predicate SetAside(b: Books, b': Books, payment: nat, wallet: nat, amount: int) {
    && Moved(b, b', wallet, Reserve, PaymentRef(payment), amount, -amount, amount)
    && b'.reservations == b.reservations + [Reservation(payment, wallet, amount, Held)]
    && b'.accounts == b.accounts && b'.journals == b.journals
  }

  /** A denial leaves an entry and nothing else. */
  predicate Denied(b: Books, b': Books, payment: nat, wallet: nat, amount: int) {
    && Moved(b, b', wallet, ReserveDenied, PaymentRef(payment), amount, 0, 0)
    && b'.reservations == b.reservations && b'.accounts == b.accounts && b'.journals == b.journals
  }

  /** Funds are reserved exactly when the tenant's wallet has them and the payment has no reservation yet; too little money is recorded as a denial; a negative amount is refused. */
  lemma ReservedIff(b: Books, tenant: nat, payment: nat, wallet: nat, amount: int)
    ensures var r := ReserveFunds(b, tenant, payment, wallet, amount);
      && (r.Ok? && r.value.1 <==> amount >= 0 && Covers(b, tenant, wallet, amount) && !HasReservation(b, payment))
      && (r.Ok? && !r.value.1 <==> amount >= 0 && wallet < |b.wallets| && !Covers(b, tenant, wallet, amount))
      && (r.Ok? ==> if r.value.1 then SetAside(b, r.value.0, payment, wallet, amount) else Denied(b, r.value.0, payment, wallet, amount))
      && (r == Err("23505") <==> Covers(b, tenant, wallet, amount) && HasReservation(b, payment))
  {
    var found := FindReservation(b.reservations, payment);
    assert found.Some? ==> b.reservations[found.value].payment == payment;
  }

  /** A held reservation ends: what was set aside goes back to the available balance or leaves the wallet. */
  predicate Ended(b: Books, b': Books, k: nat, released: bool) {
    && k < |b.reservations| && b.reservations[k].status == Held
    && (var r := b.reservations[k];
        && Moved(b, b', r.wallet, if released then Release else Apply, PaymentRef(r.payment), r.amount, if released then r.amount else 0, -r.amount)
        && b'.reservations == b.reservations[k := Reservation(r.payment, r.wallet, r.amount, if released then Released else Applied)]
        && b'.accounts == b.accounts && b'.journals == b.journals)
  }

  /** Releasing and applying end a held reservation of an existing wallet, and leave anything else alone. */
  lemma EndedIff(b: Books, k: nat)
    ensures var held := k < |b.reservations| && b.reservations[k].status == Held;
      && (!held ==> ReleaseReservation(b, k) == ApplyReservation(b, k) == Ok(b))
      && (held && b.reservations[k].wallet < |b.wallets| && b.reservations[k].amount >= 0 ==>
            && ReleaseReservation(b, k).Ok? && Ended(b, ReleaseReservation(b, k).value, k, true)
            && ApplyReservation(b, k).Ok? && Ended(b, ApplyReservation(b, k).value, k, false))
  {
  }
}
