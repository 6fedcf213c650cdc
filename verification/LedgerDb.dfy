/** The ledger tables in place: each method carries out the operation that Ledger.dfy defines on values. */
module LedgerDb {
  import opened Prelude
  import opened Sums
  import opened Ledger
  import opened Movements

  class LedgerTables {
    var wallets: seq<Wallet>
    var reservations: seq<Reservation>
    var entries: seq<WalletEntry>
    var accounts: set<Account>
    var journals: seq<Journal>

    constructor (wallets: seq<Wallet>)
      ensures Snapshot() == Books(wallets, [], [], {}, [])
    {
      this.wallets, reservations, entries, accounts, journals := wallets, [], [], {}, [];
    }

    function Snapshot(): Books
      reads this
    {
      Books(wallets, reservations, entries, accounts, journals)
    }

    /** The method did what spec says: committed it, or threw and left the tables as they were. */
    ghost predicate Did(r: Result<()>, spec: Result<Books>, was: Books)
      reads this
    {
      match spec
      case Ok(b) => r.Ok? && Snapshot() == b
      case Err(c) => r == Err(c) && Snapshot() == was
    }

    method Restore(b: Books)
      modifies this
      ensures Snapshot() == b
    {
      wallets, reservations, entries, accounts, journals := b.wallets, b.reservations, b.entries, b.accounts, b.journals;
    }

    /** Checks the totals, inserts the journal, then its entries one by one; an impure entry rolls the insert back. */
    method PostJournal(tenant: nat, kind: JournalKind, ref: nat, lines: seq<JournalEntry>) returns (r: Result<()>)
      modifies this
      ensures Did(r, Ledger.PostJournal(old(Snapshot()), Journal(tenant, kind, ref, lines)), old(Snapshot()))
    {
      var debits, credits := 0, 0;
      for i := 0 to |lines|
        invariant debits == Sum(i, DebitOf(lines)) && credits == Sum(i, CreditOf(lines))
      {
        debits, credits := debits + lines[i].debit, credits + lines[i].credit;
      }
      if debits != credits {
        return Err("JOURNAL_UNBALANCED");
      }
      if debits <= 0 {
        return Err("JOURNAL_UNBALANCED");
      }
      var n := |journals|;
      journals := journals + [Journal(tenant, kind, ref, [])];
      for i := 0 to |lines|
        invariant wallets == old(wallets) && reservations == old(reservations) && entries == old(entries) && accounts == old(accounts)
        invariant journals == old(journals) + [Journal(tenant, kind, ref, lines[..i])]
        invariant PureEntries(lines[..i])
      {
        if (lines[i].debit > 0) == (lines[i].credit > 0) {
          assert !PureEntry(lines[i]);
          journals := journals[..n];
          return Err("JOURNAL_UNBALANCED");
        }
        journals := journals[n := journals[n].(entries := journals[n].entries + [lines[i]])];
        assert lines[..i + 1] == lines[..i] + [lines[i]];
      }
      assert lines[..|lines|] == lines;
      return Ok(());
    }

    method GetSystemAccount(a: Account) returns (r: Result<()>)
      ensures r == if a in accounts then Ok(()) else Err("ACCOUNT_NOT_FOUND")
    {
      if a in accounts {
        return Ok(());
      }
      return Err("ACCOUNT_NOT_FOUND");
    }

    method GetWalletLedgerAccount(wallet: nat, tenant: nat) returns (r: Result<()>)
      modifies this
      ensures Did(r, OpenWalletAccount(old(Snapshot()), wallet, tenant), old(Snapshot()))
    {
      if WalletAccount(wallet) in accounts {
        return Ok(());
      }
      if wallet >= |wallets| || wallets[wallet].tenant != tenant {
        return Err("ACCOUNT_NOT_FOUND");
      }
      accounts := accounts + {WalletAccount(wallet)};
      return Ok(());
    }

    method PostPaymentSuccessJournal(tenant: nat, payment: nat, wallet: Option<nat>, amount: int, fee: int) returns (r: Result<()>)
      modifies this
      ensures Did(r, PostPaymentSuccess(old(Snapshot()), tenant, payment, wallet, amount, fee), old(Snapshot()))
    {
      var was := Snapshot();
      var _ :- GetSystemAccount(Clearing(tenant));
      var lines := [JournalEntry(Clearing(tenant), amount + fee, 0)];
      if wallet.Some? {
        var _ :- GetWalletLedgerAccount(wallet.value, tenant);
        lines := lines + [JournalEntry(WalletAccount(wallet.value), 0, amount)];
      } else {
        var _ :- GetSystemAccount(FloatLiability(tenant));
        lines := lines + [JournalEntry(FloatLiability(tenant), 0, amount)];
      }
      if fee > 0 {
        r := GetSystemAccount(FeeRevenue(tenant));
        if r.Err? {
          Restore(was);
          return;
        }
        lines := lines + [JournalEntry(FeeRevenue(tenant), 0, fee)];
      }
      assert lines == SuccessEntries(tenant, wallet, amount, fee);
      r := PostJournal(tenant, PaymentJournal, payment, lines);
      if r.Err? {
        Restore(was);
      }
    }

    method PostReversalJournal(tenant: nat, payment: nat, wallet: Option<nat>, amount: int) returns (r: Result<()>)
      modifies this
      ensures Did(r, PostReversal(old(Snapshot()), tenant, payment, wallet, amount), old(Snapshot()))
    {
      var was := Snapshot();
      var _ :- GetSystemAccount(Clearing(tenant));
      var lines := [];
      if wallet.Some? {
        var _ :- GetWalletLedgerAccount(wallet.value, tenant);
        lines := lines + [JournalEntry(WalletAccount(wallet.value), amount, 0)];
      } else {
        var _ :- GetSystemAccount(FloatLiability(tenant));
        lines := lines + [JournalEntry(FloatLiability(tenant), amount, 0)];
      }
      lines := lines + [JournalEntry(Clearing(tenant), 0, amount)];
      assert lines == ReversalEntries(tenant, wallet, amount);
      r := PostJournal(tenant, ReversalJournal, payment, lines);
      if r.Err? {
        Restore(was);
      }
    }

    method PostFundingJournal(tenant: nat, wallet: nat, amount: int) returns (r: Result<()>)
      modifies this
      ensures Did(r, PostFunding(old(Snapshot()), tenant, wallet, amount), old(Snapshot()))
    {
      var was := Snapshot();
      var _ :- GetWalletLedgerAccount(wallet, tenant);
      r := GetSystemAccount(FloatLiability(tenant));
      if r.Ok? {
        r := PostJournal(tenant, FundingJournal, wallet, FundingEntries(tenant, wallet, amount));
      }
      if r.Err? {
        Restore(was);
      }
    }

    /** Appends an entry with the balances the wallet row has now. */
    method AppendWalletLedgerEntry(wallet: nat, kind: EntryKind, ref: Reference, amount: int, da: int, dr: int) returns (r: Result<()>)
      modifies this`entries
      ensures wallet >= |wallets| ==> r == Err("WALLET_NOT_FOUND") && entries == old(entries)
      ensures wallet < |wallets| && amount < 0 ==> r == Err("P0001") && entries == old(entries)
      ensures wallet < |wallets| && amount >= 0 ==> r.Ok?
      ensures r.Ok? ==> (
        && wallet < |wallets|
        && entries == old(entries)
           + [WalletEntry(wallet, kind, ref, amount, da, dr, wallets[wallet].available, wallets[wallet].reserved)])
    {
      if wallet >= |wallets| {
        return Err("WALLET_NOT_FOUND");
      }
      if amount < 0 {
        return Err("P0001");
      }
      entries := entries + [WalletEntry(wallet, kind, ref, amount, da, dr, wallets[wallet].available, wallets[wallet].reserved)];
      return Ok(());
    }

    /** Updates the wallet row, records the FUND entry and posts the funding journal, all or nothing. */
    method CreditWallet(tenant: nat, wallet: nat, ref: Reference, amount: int) returns (r: Result<()>)
      modifies this
      ensures Did(r, Credit(old(Snapshot()), tenant, wallet, ref, amount), old(Snapshot()))
    {
      var was := Snapshot();
      if wallet < |wallets| {
        wallets := wallets[wallet := wallets[wallet].(available := wallets[wallet].available + amount)];
      }
      r := AppendWalletLedgerEntry(wallet, Fund, ref, amount, amount, 0);
      if r.Ok? {
        r := PostFundingJournal(tenant, wallet, amount);
      }
      if r.Err? {
        Restore(was);
      }
    }

    /** Guarded update of the wallet, then the reservation row, then the ledger entry; a denial is recorded on its own. */
    method ReserveFunds(tenant: nat, payment: nat, wallet: nat, amount: int) returns (r: Result<bool>)
      modifies this
      ensures match Ledger.ReserveFunds(old(Snapshot()), tenant, payment, wallet, amount)
              case Ok((b, reserved)) => r == Ok(reserved) && Snapshot() == b
              case Err(c) => r == Err(c) && Snapshot() == old(Snapshot())
    {
      var was := Snapshot();
      if wallet < |wallets| && wallets[wallet].tenant == tenant && wallets[wallet].available >= amount {
        wallets := wallets[wallet := wallets[wallet].(available := wallets[wallet].available - amount,
                                                      reserved := wallets[wallet].reserved + amount)];
        if FindReservation(reservations, payment).Some? {
          Restore(was);
          return Err("23505");
        }
        reservations := reservations + [Reservation(payment, wallet, amount, Held)];
        var appended := AppendWalletLedgerEntry(wallet, Reserve, PaymentRef(payment), amount, -amount, amount);
        if appended.Err? {
          Restore(was);
          return Err(appended.code);
        }
        return Ok(true);
      }
      var denied := AppendWalletLedgerEntry(wallet, ReserveDenied, PaymentRef(payment), amount, 0, 0);
      if denied.Err? {
        return Err(denied.code);
      }
      assert wallets[wallet := wallets[wallet]] == wallets;
      return Ok(false);
    }

    method ReleaseReservation(k: nat) returns (r: Result<()>)
      modifies this
      ensures Did(r, Ledger.ReleaseReservation(old(Snapshot()), k), old(Snapshot()))
    {
      if k >= |reservations| || reservations[k].status != Held {
        return Ok(());
      }
      var was := Snapshot();
      var res := reservations[k];
      if res.wallet < |wallets| {
        wallets := wallets[res.wallet := wallets[res.wallet].(available := wallets[res.wallet].available + res.amount,
                                                              reserved := wallets[res.wallet].reserved - res.amount)];
      }
      reservations := reservations[k := res.(status := Released)];
      r := AppendWalletLedgerEntry(res.wallet, Release, PaymentRef(res.payment), res.amount, res.amount, -res.amount);
      if r.Err? {
        Restore(was);
      }
    }

    method ApplyReservation(k: nat) returns (r: Result<()>)
      modifies this
      ensures Did(r, Ledger.ApplyReservation(old(Snapshot()), k), old(Snapshot()))
    {
      if k >= |reservations| || reservations[k].status != Held {
        return Ok(());
      }
      var was := Snapshot();
      var res := reservations[k];
      if res.wallet < |wallets| {
        wallets := wallets[res.wallet := wallets[res.wallet].(reserved := wallets[res.wallet].reserved - res.amount)];
      }
      reservations := reservations[k := res.(status := Applied)];
      r := AppendWalletLedgerEntry(res.wallet, Apply, PaymentRef(res.payment), res.amount, 0, -res.amount);
      if r.Err? {
        Restore(was);
      }
    }
  }

  // ------------------------------------------------------------------- health

  datatype TenantHealth = TenantHealth(journals: nat, unbalanced: nat, debit: int, credit: int) {
    predicate NetZero() { debit == credit }
    predicate Healthy() { unbalanced == 0 && NetZero() }
  }

  function IsOf(js: seq<Journal>, tenant: nat): nat -> int {
    (i: nat) => if i < |js| && js[i].tenant == tenant then 1 else 0
  }

  function IsUnbalanced(js: seq<Journal>, tenant: nat): nat -> int {
    (i: nat) => if i < |js| && js[i].tenant == tenant && Debits(js[i].entries) != Credits(js[i].entries) then 1 else 0
  }

  function DebitsOf(js: seq<Journal>, tenant: nat): nat -> int {
    (i: nat) => if i < |js| && js[i].tenant == tenant then Debits(js[i].entries) else 0
  }

  function CreditsOf(js: seq<Journal>, tenant: nat): nat -> int {
    (i: nat) => if i < |js| && js[i].tenant == tenant then Credits(js[i].entries) else 0
  }

  /** The figures for a tenant over the first n journals. */
  ghost predicate Summarises(h: TenantHealth, js: seq<Journal>, tenant: nat, n: nat) {
    && h.journals == Sum(n, IsOf(js, tenant))
    && h.unbalanced == Sum(n, IsUnbalanced(js, tenant))
    && h.debit == Sum(n, DebitsOf(js, tenant))
    && h.credit == Sum(n, CreditsOf(js, tenant))
  }

  /** The figures say how many journals the tenant has, how many of them do not balance, and what they debit and credit in all. */
  ghost predicate Reports(h: TenantHealth, js: seq<Journal>, tenant: nat) {
    && h.journals == |set i: nat | i < |js| && js[i].tenant == tenant|
    && h.unbalanced == |set i: nat | i < |js| && js[i].tenant == tenant && TotalDebit(js[i].entries) != TotalCredit(js[i].entries)|
    && h.debit - h.credit == Sum(|js|, OverhangOf(js, tenant))
  }

  /** By how much a journal of the tenant is out of balance. */
  function OverhangOf(js: seq<Journal>, tenant: nat): nat -> int {
    (i: nat) => if i < |js| && js[i].tenant == tenant then TotalDebit(js[i].entries) - TotalCredit(js[i].entries) else 0
  }

  lemma TotalsOf(js: seq<Journal>, i: nat)
    requires i < |js|
    ensures Debits(js[i].entries) == TotalDebit(js[i].entries) && Credits(js[i].entries) == TotalCredit(js[i].entries)
  {
    var es := js[i].entries;
    TotalsAre(es, |es|);
    assert es[..|es|] == es;
  }

  lemma SummaryReports(h: TenantHealth, js: seq<Journal>, tenant: nat)
    requires Summarises(h, js, tenant, |js|)
    ensures Reports(h, js, tenant)
  {
    forall i: nat | i < |js| ensures Debits(js[i].entries) == TotalDebit(js[i].entries) && Credits(js[i].entries) == TotalCredit(js[i].entries) {
      TotalsOf(js, i);
    }
    SumCounts(|js|, IsOf(js, tenant));
    SumCounts(|js|, IsUnbalanced(js, tenant));
    assert (set i: nat | i < |js| && js[i].tenant == tenant) == set i: nat | i < |js| && IsOf(js, tenant)(i) == 1;
    assert (set i: nat | i < |js| && js[i].tenant == tenant && TotalDebit(js[i].entries) != TotalCredit(js[i].entries))
        == set i: nat | i < |js| && IsUnbalanced(js, tenant)(i) == 1;
    SumAdds(|js|, CreditsOf(js, tenant), OverhangOf(js, tenant), DebitsOf(js, tenant));
  }

  const NONE_YET := TenantHealth(0, 0, 0, 0)

  function Tallied(h: TenantHealth, j: Journal): TenantHealth {
    var d, c := Debits(j.entries), Credits(j.entries);
    TenantHealth(h.journals + 1, if d != c then h.unbalanced + 1 else h.unbalanced, h.debit + d, h.credit + c)
  }

  lemma SummaryAdvances(h: TenantHealth, js: seq<Journal>, tenant: nat, i: nat)
    requires i < |js| && Summarises(h, js, tenant, i)
    ensures Summarises(if js[i].tenant == tenant then Tallied(h, js[i]) else h, js, tenant, i + 1)
  {
  }

  function At(m: map<nat, TenantHealth>, t: nat): TenantHealth {
    if t in m then m[t] else NONE_YET
  }

  /** Accumulates, per tenant, how many journals there are, how many do not balance, and the totals. */
  method CheckLedgerHealth(js: seq<Journal>, only: Option<nat>) returns (byTenant: map<nat, TenantHealth>)
    ensures forall t | t in byTenant :: Summarises(byTenant[t], js, t, |js|) && (only.Some? ==> t == only.value)
    ensures forall i | 0 <= i < |js| && (only.Some? ==> js[i].tenant == only.value) :: js[i].tenant in byTenant
    ensures forall t | t in byTenant :: Reports(byTenant[t], js, t)
  {
    byTenant := map[];
    for i := 0 to |js|
      invariant forall t | t in byTenant :: only.Some? ==> t == only.value
      invariant forall t: nat | only.Some? ==> t == only.value :: Summarises(At(byTenant, t), js, t, i)
      invariant forall k | 0 <= k < i && (only.Some? ==> js[k].tenant == only.value) :: js[k].tenant in byTenant
    {
      ghost var before := byTenant;
      var t := js[i].tenant;
      if only.None? || only.value == t {
        var d, c := Debits(js[i].entries), Credits(js[i].entries);
        var h := if t in byTenant then byTenant[t] else NONE_YET;
        h := h.(journals := h.journals + 1);
        if d != c {
          h := h.(unbalanced := h.unbalanced + 1);
        }
        h := h.(debit := h.debit + d);
        h := h.(credit := h.credit + c);
        byTenant := byTenant[t := h];
      }
      forall u: nat | only.Some? ==> u == only.value ensures Summarises(At(byTenant, u), js, u, i + 1) {
        assert At(byTenant, u) == if t == u then Tallied(At(before, u), js[i]) else At(before, u);
        SummaryAdvances(At(before, u), js, u, i);
      }
    }
    forall t | t in byTenant ensures Summarises(byTenant[t], js, t, |js|) {
      assert At(byTenant, t) == byTenant[t];
    }
    forall t | t in byTenant ensures Reports(byTenant[t], js, t) {
      SummaryReports(byTenant[t], js, t);
    }
  }

  /** A tenant is reported healthy exactly when each of its journals balances; the net-zero test adds nothing. */
  lemma HealthyIffBalanced(h: TenantHealth, js: seq<Journal>, tenant: nat)
    requires Summarises(h, js, tenant, |js|)
    ensures h.Healthy() <==> forall i | 0 <= i < |js| && js[i].tenant == tenant :: Debits(js[i].entries) == Credits(js[i].entries)
  {
    var f := IsUnbalanced(js, tenant);
    SumDominates(|js|, f);
    if h.unbalanced == 0 {
      forall i | 0 <= i < |js| && js[i].tenant == tenant ensures Debits(js[i].entries) == Credits(js[i].entries) {
        assert f(i) <= 0;
      }
      SumAgree(|js|, DebitsOf(js, tenant), CreditsOf(js, tenant));
    } else if forall i | 0 <= i < |js| && js[i].tenant == tenant :: Debits(js[i].entries) == Credits(js[i].entries) {
      SumZero(|js|, f);
    }
  }
}
