/**
 Payment links (packages/payments-core/src/payment-links.ts): concurrent payers
 read the link, claim a use with one guarded increment, insert a collection and
 settle it, each in a step of its own, and may crash between any two of them.
 */
module PaymentLinks {
  import opened Prelude
  import opened Sums
  import opened Ledger
  import opened Collections
  import opened Text
  import CollectionTheorems
  import Movements
  import Settlements

  datatype Link = Link(tenant: nat, token: string, active: bool, amount: int, maxUses: Option<nat>, useCount: nat)

  /** Where a payer's request is. */
  datatype Stage =
    | Arrived
    | Ready(link: nat, wallet: nat)
    | Claimed(link: nat, wallet: nat)
    | Inserted(link: nat, collection: nat)
    | Finished(link: nat, collection: nat)
    | Gone

  datatype Payer = Payer(token: string, ref: string, stage: Stage)

  datatype State = State(store: Collections.State, links: seq<Link>, payers: seq<Payer>)

  /** The idempotency key of a (token, payer) pair. */
  function KeyOf(token: string, ref: string): string {
    Cut("paylink:" + token + ":" + ref, 128)
  }

  predicate Base64Url(c: char) {
    'A' <= c <= 'Z' || 'a' <= c <= 'z' || '0' <= c <= '9' || c == '-' || c == '_'
  }

  /** What the token generator makes out of twelve random bytes. */
  predicate IsToken(token: string) {
    |token| == 19 && token[..3] == "pl_" && forall i | 3 <= i < 19 :: Base64Url(token[i])
  }

  function FindLink(links: seq<Link>, token: string, k: nat): (r: Option<nat>)
    ensures r.Some? ==> k <= r.value < |links| && links[r.value].token == token
    ensures r.None? ==> forall i | k <= i < |links| :: links[i].token != token
    decreases |links| - k
  {
    if k >= |links| then None else if links[k].token == token then Some(k) else FindLink(links, token, k + 1)
  }

  function FindKey(cs: seq<Collection>, tenant: nat, key: string, k: nat): (r: Option<nat>)
    ensures r.Some? ==> k <= r.value < |cs| && cs[r.value].tenant == tenant && cs[r.value].key == Some(key)
    ensures r.None? ==> forall i | k <= i < |cs| :: cs[i].tenant != tenant || cs[i].key != Some(key)
    decreases |cs| - k
  {
    if k >= |cs| then None else if cs[k].tenant == tenant && cs[k].key == Some(key) then Some(k) else FindKey(cs, tenant, key, k + 1)
  }

  // ----------------------------------------------------------------------- steps

  datatype Step =
    | CreateLink(link: Link)
    | SetActive(id: nat, active: bool)
    | Arrive(token: string, ref: string)
    | Read(payer: nat, expired: bool)
    | Claim(payer: nat)
    | InsertRow(payer: nat)
    | SettleRow(payer: nat)
    | Crash(payer: nat)
    | Elsewhere(command: Collections.Command)

  function At(s: State, p: nat, stage: Stage): State
    requires p < |s.payers|
  {
    s.(payers := s.payers[p := s.payers[p].(stage := stage)])
  }

  /** The link's checks, then a replay of the prior collection or a claimable wallet. */
  function ReadStage(s: State, token: string, ref: string, expired: bool): Stage {
    match FindLink(s.links, token, 0)
    case None => Gone
    case Some(l) =>
      if !s.links[l].active || expired then Gone
      else
        match FindKey(s.store.collections, s.links[l].tenant, KeyOf(token, ref), 0)
        case Some(id) => Finished(l, id)
        case None =>
          match FirstWallet(s.store.pay.books.wallets, s.links[l].tenant, 0)
          case None => Gone
          case Some(w) => Ready(l, w)
  }

  /** The row a payer inserts. */
  function RowOf(link: Link, l: nat, w: nat, payer: Payer): Collection {
    Collection(link.tenant, w, PaymentLink, Pending, link.amount, None, Some(l), None, Some(KeyOf(payer.token, payer.ref)), None,
               "LNK-" + UpperCase(Cut(payer.token, 8)) + "-" + UpperCase(Cut(payer.ref, 6)))
  }

  predicate Stands(s: State, p: nat) {
    && p < |s.payers|
    && (var t := s.payers[p].stage;
        (t.Ready? || t.Claimed? || t.Inserted? || t.Finished?) ==> t.link < |s.links|)
  }

  /** A step that is not enabled changes nothing. */
  function Next(s: State, step: Step): State {
    match step
    case CreateLink(link) =>
      if !IsToken(link.token) || FindLink(s.links, link.token, 0).Some? then s else s.(links := s.links + [link.(useCount := 0)])
    case SetActive(id, active) =>
      if id < |s.links| then s.(links := s.links[id := s.links[id].(active := active)]) else s
    case Arrive(token, ref) => s.(payers := s.payers + [Payer(token, ref, Arrived)])
    case Read(p, expired) =>
      if p < |s.payers| && s.payers[p].stage.Arrived? then At(s, p, ReadStage(s, s.payers[p].token, s.payers[p].ref, expired)) else s
    case Claim(p) =>
      if Stands(s, p) && s.payers[p].stage.Ready? then
        var l := s.payers[p].stage.link;
        if s.links[l].maxUses.None? || s.links[l].useCount < s.links[l].maxUses.value then
          At(s.(links := s.links[l := s.links[l].(useCount := s.links[l].useCount + 1)]), p, Claimed(l, s.payers[p].stage.wallet))
        else At(s, p, Gone)
      else s
    case InsertRow(p) =>
      if Stands(s, p) && s.payers[p].stage.Claimed? then
        var l := s.payers[p].stage.link;
        var r := Insert(s.store, RowOf(s.links[l], l, s.payers[p].stage.wallet, s.payers[p]));
        if r.Ok? then At(s.(store := r.value.0), p, Inserted(l, r.value.1)) else At(s, p, Gone)
      else s
    case SettleRow(p) =>
      if Stands(s, p) && s.payers[p].stage.Inserted? then
        var l, id := s.payers[p].stage.link, s.payers[p].stage.collection;
        var r := Settle(s.store, id, None, None, true);
        if r.Ok? then At(s.(store := r.value.0), p, Finished(l, id)) else At(s, p, Gone)
      else s
    case Crash(p) => if p < |s.payers| then At(s, p, Gone) else s
    case Elsewhere(c) =>
      // Only a link payment inserts a row that names a link.
      if c.DoInsert? && c.collection.link.Some? then s else s.(store := Collections.Next(s.store, c))
  }

  function Run(s: State, steps: seq<Step>): State {
    if |steps| == 0 then s else Next(Run(s, steps[..|steps| - 1]), steps[|steps| - 1])
  }

  function Initial(wallets: seq<Wallet>): State {
    State.State(Collections.Initial(wallets), [], [])
  }

  // -------------------------------------------------------------------- invariant

  function MadeThrough(cs: seq<Collection>, l: nat): nat -> int {
    (i: nat) => if i < |cs| && cs[i].link == Some(l) then 1 else 0
  }

  /** Collections made through a link. */
  function Made(cs: seq<Collection>, l: nat): int { Sum(|cs|, MadeThrough(cs, l)) }

  function ClaimOf(ps: seq<Payer>, l: nat): nat -> int {
    (i: nat) => if i < |ps| && ps[i].stage.Claimed? && ps[i].stage.link == l then 1 else 0
  }

  /** Uses claimed whose collection is not inserted yet. */
  function Pledged(ps: seq<Payer>, l: nat): int { Sum(|ps|, ClaimOf(ps, l)) }

  /** Uses are never handed out beyond the limit, and every collection or pending claim has one. */
  ghost predicate LinkFits(link: Link, made: int, pledged: int) {
    made + pledged <= link.useCount && (link.maxUses.Some? ==> link.useCount <= link.maxUses.value)
  }

  ghost predicate PayerFits(links: seq<Link>, cs: seq<Collection>, p: Payer) {
    match p.stage
    case Arrived => true
    case Gone => true
    case Ready(l, _) => l < |links| && links[l].token == p.token
    case Claimed(l, _) => l < |links| && links[l].token == p.token
    case Inserted(l, id) => l < |links| && links[l].token == p.token && id < |cs| && Holds(cs[id], links[l].tenant, p)
    case Finished(l, id) => l < |links| && links[l].token == p.token && id < |cs| && Holds(cs[id], links[l].tenant, p)
  }

  /** The collection carries the payer's key. */
  predicate Holds(c: Collection, tenant: nat, p: Payer) {
    c.tenant == tenant && c.key == Some(KeyOf(p.token, p.ref))
  }

  ghost predicate RowsKnowLinks(links: seq<Link>, cs: seq<Collection>) {
    forall i | 0 <= i < |cs| && cs[i].link.Some? :: cs[i].link.value < |links|
  }

  ghost predicate TokensFit(links: seq<Link>) {
    && (forall i | 0 <= i < |links| :: IsToken(links[i].token))
    && (forall i, j | 0 <= i < j < |links| :: links[i].token != links[j].token)
  }

  ghost predicate LinksFit(s: State) {
    && TokensFit(s.links)
    && RowsKnowLinks(s.links, s.store.collections)
    && (forall l | 0 <= l < |s.links| :: LinkFits(s.links[l], Made(s.store.collections, l), Pledged(s.payers, l)))
    && (forall p | 0 <= p < |s.payers| :: PayerFits(s.links, s.store.collections, s.payers[p]))
  }

  // ----------------------------------------------------------------- preservation

  /** Existing rows keep what links and keys look at, new rows come from elsewhere. */
  ghost predicate RowsKept(cs: seq<Collection>, cs': seq<Collection>) {
    && |cs| <= |cs'|
    && (forall i | 0 <= i < |cs| :: cs'[i].tenant == cs[i].tenant && cs'[i].key == cs[i].key && cs'[i].link == cs[i].link)
    && (forall i | |cs| <= i < |cs'| :: cs'[i].link.None?)
  }

  lemma SettleKeepsRows(s: Collections.State, id: nat, amount: Option<int>, no: Option<string>, viaLink: bool)
    requires Settle(s, id, amount, no, viaLink).Ok?
    ensures RowsKept(s.collections, Settle(s, id, amount, no, viaLink).value.0.collections)
  {
  }

  lemma EventKeepsRows(s: Collections.State, e: nat, amount: Option<int>, no: Option<string>, dies: bool)
    requires ProcessEvent(s, e, amount, no, dies).Ok?
    ensures RowsKept(s.collections, ProcessEvent(s, e, amount, no, dies).value.collections)
  {
    var found := Answers(s, e);
    if found.Some? && s.pay.events[e].outcome.ReportsSuccess? {
      SettleKeepsRows(s, found.value, amount, no, false);
    }
  }

  lemma ElsewhereKeepsRows(s: Collections.State, c: Collections.Command)
    requires !(c.DoInsert? && c.collection.link.Some?)
    ensures RowsKept(s.collections, Collections.Next(s, c).collections)
  {
    if Perform(s, c).Ok? {
      match c {
        case DoSettle(id, amount, no, viaLink) => SettleKeepsRows(s, id, amount, no, viaLink);
        case DoWebhook(e, amount, no, dies) => EventKeepsRows(s, e, amount, no, dies);
        case _ =>
      }
    }
  }

  lemma {:induction false} MadeKept(cs: seq<Collection>, cs': seq<Collection>, l: nat, n: nat)
    requires RowsKept(cs, cs') && |cs| <= n <= |cs'|
    ensures Sum(n, MadeThrough(cs', l)) == Made(cs, l)
  {
    if n == |cs| {
      SumAgree(n, MadeThrough(cs', l), MadeThrough(cs, l));
    } else {
      MadeKept(cs, cs', l, n - 1);
    }
  }

  lemma StoreStepKeepsLinks(s: State, store: Collections.State)
    requires LinksFit(s) && RowsKept(s.store.collections, store.collections)
    ensures LinksFit(s.(store := store))
  {
    forall l | 0 <= l < |s.links| ensures LinkFits(s.links[l], Made(store.collections, l), Pledged(s.payers, l)) {
      MadeKept(s.store.collections, store.collections, l, |store.collections|);
    }
    forall p | 0 <= p < |s.payers| ensures PayerFits(s.links, store.collections, s.payers[p]) {
      assert PayerFits(s.links, s.store.collections, s.payers[p]);
    }
  }

  /** A payer moves to a stage that holds no claim of link l unless it already did. */
  lemma PledgedMoves(ps: seq<Payer>, p: nat, stage: Stage, l: nat)
    requires p < |ps|
    ensures Pledged(ps[p := ps[p].(stage := stage)], l)
         == Pledged(ps, l) + (if stage.Claimed? && stage.link == l then 1 else 0) - ClaimOf(ps, l)(p)
  {
    SumDelta(|ps|, ClaimOf(ps, l), ClaimOf(ps[p := ps[p].(stage := stage)], l), p);
  }

  lemma MoveKeepsLinks(s: State, p: nat, stage: Stage)
    requires LinksFit(s) && p < |s.payers| && !stage.Claimed?
    requires PayerFits(s.links, s.store.collections, s.payers[p].(stage := stage))
    ensures LinksFit(At(s, p, stage))
  {
    forall l | 0 <= l < |s.links| ensures LinkFits(s.links[l], Made(s.store.collections, l), Pledged(At(s, p, stage).payers, l)) {
      assert LinkFits(s.links[l], Made(s.store.collections, l), Pledged(s.payers, l));
      PledgedMoves(s.payers, p, stage, l);
    }
  }

  lemma ClaimKeepsLinks(s: State, p: nat)
    requires LinksFit(s)
    ensures LinksFit(Next(s, Claim(p)))
  {
    if Stands(s, p) && s.payers[p].stage.Ready? {
      var l := s.payers[p].stage.link;
      assert PayerFits(s.links, s.store.collections, s.payers[p]);
      if s.links[l].maxUses.None? || s.links[l].useCount < s.links[l].maxUses.value {
        ClaimGranted(s, p, l);
      } else {
        MoveKeepsLinks(s, p, Gone);
      }
    }
  }

  lemma ClaimGranted(s: State, p: nat, l: nat)
    requires LinksFit(s) && p < |s.payers| && l < |s.links| && s.payers[p].stage.Ready? && s.payers[p].stage.link == l
    requires s.links[l].maxUses.None? || s.links[l].useCount < s.links[l].maxUses.value
    ensures LinksFit(Next(s, Claim(p)))
  {
    var s' := Next(s, Claim(p));
    forall k | 0 <= k < |s'.links| ensures LinkFits(s'.links[k], Made(s'.store.collections, k), Pledged(s'.payers, k)) {
      assert LinkFits(s.links[k], Made(s.store.collections, k), Pledged(s.payers, k));
      PledgedMoves(s.payers, p, s'.payers[p].stage, k);
    }
    CountedLinks(s.links, s'.links, s.store.collections, s.payers);
    assert PayerFits(s.links, s.store.collections, s.payers[p]);
  }

  /** Payers look at a link's token and tenant only. */
  lemma CountedLinks(links: seq<Link>, links': seq<Link>, cs: seq<Collection>, ps: seq<Payer>)
    requires |links'| == |links| && forall l | 0 <= l < |links| :: links'[l].token == links[l].token && links'[l].tenant == links[l].tenant
    requires forall p | 0 <= p < |ps| :: PayerFits(links, cs, ps[p])
    ensures forall p | 0 <= p < |ps| :: PayerFits(links', cs, ps[p])
  {
    forall p | 0 <= p < |ps| ensures PayerFits(links', cs, ps[p]) {
      assert PayerFits(links, cs, ps[p]);
    }
  }

  lemma MadeMore(cs: seq<Collection>, c: Collection, l: nat)
    ensures Made(cs + [c], l) == Made(cs, l) + if c.link == Some(l) then 1 else 0
  {
    SumAgree(|cs|, MadeThrough(cs + [c], l), MadeThrough(cs, l));
  }

  lemma RowInserted(s: State, p: nat, l: nat, row: Collection)
    requires LinksFit(s) && p < |s.payers| && l < |s.links| && s.payers[p].stage.Claimed? && s.payers[p].stage.link == l
    requires row.link == Some(l) && Holds(row, s.links[l].tenant, s.payers[p]) && Insert(s.store, row).Ok?
    ensures LinksFit(At(s.(store := Insert(s.store, row).value.0), p, Inserted(l, Insert(s.store, row).value.1)))
  {
    var (store, id) := Insert(s.store, row).value;
    var s' := At(s.(store := store), p, Inserted(l, id));
    forall k | 0 <= k < |s'.links| ensures LinkFits(s'.links[k], Made(s'.store.collections, k), Pledged(s'.payers, k)) {
      assert LinkFits(s.links[k], Made(s.store.collections, k), Pledged(s.payers, k));
      MadeMore(s.store.collections, store.collections[id], k);
      PledgedMoves(s.payers, p, Inserted(l, id), k);
    }
    forall q | 0 <= q < |s'.payers| ensures PayerFits(s'.links, s'.store.collections, s'.payers[q]) {
      assert PayerFits(s.links, s.store.collections, s.payers[q]);
    }
  }

  lemma InsertKeepsLinks(s: State, p: nat)
    requires LinksFit(s)
    ensures LinksFit(Next(s, InsertRow(p)))
  {
    if Stands(s, p) && s.payers[p].stage.Claimed? {
      var l := s.payers[p].stage.link;
      var row := RowOf(s.links[l], l, s.payers[p].stage.wallet, s.payers[p]);
      assert PayerFits(s.links, s.store.collections, s.payers[p]);
      if Insert(s.store, row).Ok? {
        RowInserted(s, p, l, row);
      } else {
        MoveKeepsLinks(s, p, Gone);
      }
    }
  }

  lemma SettleRowKeepsLinks(s: State, p: nat)
    requires LinksFit(s)
    ensures LinksFit(Next(s, SettleRow(p)))
  {
    if Stands(s, p) && s.payers[p].stage.Inserted? {
      var l, id := s.payers[p].stage.link, s.payers[p].stage.collection;
      assert PayerFits(s.links, s.store.collections, s.payers[p]);
      var r := Settle(s.store, id, None, None, true);
      if r.Ok? {
        StoreStepKeepsLinks(s, r.value.0);
        MoveKeepsLinks(s.(store := r.value.0), p, Finished(l, id));
      } else {
        MoveKeepsLinks(s, p, Gone);
      }
    }
  }

  lemma LinkAdded(s: State, link: Link)
    requires LinksFit(s)
    ensures LinksFit(Next(s, CreateLink(link)))
  {
    var s' := Next(s, CreateLink(link));
    if s' != s {
      var l := |s.links|;
      SumZero(|s.store.collections|, MadeThrough(s.store.collections, l));
      forall p | 0 <= p < |s.payers| ensures PayerFits(s'.links, s.store.collections, s.payers[p]) && ClaimOf(s.payers, l)(p) == 0 {
        assert PayerFits(s.links, s.store.collections, s.payers[p]);
      }
      SumZero(|s.payers|, ClaimOf(s.payers, l));
    }
  }

  lemma LinkToggled(s: State, id: nat, active: bool)
    requires LinksFit(s)
    ensures LinksFit(Next(s, SetActive(id, active)))
  {
    var s' := Next(s, SetActive(id, active));
    CountedLinks(s.links, s'.links, s.store.collections, s.payers);
    forall l | 0 <= l < |s'.links| ensures LinkFits(s'.links[l], Made(s.store.collections, l), Pledged(s.payers, l)) {
      assert LinkFits(s.links[l], Made(s.store.collections, l), Pledged(s.payers, l));
    }
  }

  lemma PayerArrives(s: State, token: string, ref: string)
    requires LinksFit(s)
    ensures LinksFit(Next(s, Arrive(token, ref)))
  {
    var s' := Next(s, Arrive(token, ref));
    forall l | 0 <= l < |s.links| ensures LinkFits(s.links[l], Made(s.store.collections, l), Pledged(s'.payers, l)) {
      SumAgree(|s.payers|, ClaimOf(s'.payers, l), ClaimOf(s.payers, l));
    }
  }

  lemma ReadKeepsLinks(s: State, p: nat, expired: bool)
    requires LinksFit(s)
    ensures LinksFit(Next(s, Read(p, expired)))
  {
    if p < |s.payers| && s.payers[p].stage.Arrived? {
      MoveKeepsLinks(s, p, ReadStage(s, s.payers[p].token, s.payers[p].ref, expired));
    }
  }

  lemma ElsewhereKeepsLinks(s: State, c: Collections.Command, store: Collections.State)
    requires LinksFit(s) && store == Collections.Next(s.store, c) && !(c.DoInsert? && c.collection.link.Some?)
    ensures LinksFit(s.(store := store))
  {
    ElsewhereKeepsRows(s.store, c);
    StoreStepKeepsLinks(s, store);
  }

  lemma NextKeepsLinks(s: State, step: Step)
    requires LinksFit(s)
    ensures LinksFit(Next(s, step))
  {
    match step {
      case CreateLink(link) => LinkAdded(s, link);
      case SetActive(id, active) => LinkToggled(s, id, active);
      case Arrive(token, ref) => PayerArrives(s, token, ref);
      case Read(p, expired) => ReadKeepsLinks(s, p, expired);
      case Claim(p) => ClaimKeepsLinks(s, p);
      case InsertRow(p) => InsertKeepsLinks(s, p);
      case SettleRow(p) => SettleRowKeepsLinks(s, p);
      case Crash(p) => if p < |s.payers| { MoveKeepsLinks(s, p, Gone); }
      case Elsewhere(c) =>
        if !(c.DoInsert? && c.collection.link.Some?) {
          ElsewhereKeepsLinks(s, c, Next(s, step).store);
        }
    }
  }

  /** The collections underneath only see their own commands. */
  lemma NextKeepsStore(s: State, step: Step)
    requires Collections.Inv(s.store)
    ensures Collections.Inv(Next(s, step).store)
  {
    var s' := Next(s, step);
    if step.InsertRow? && s'.store != s.store {
      var l := s.payers[step.payer].stage.link;
      CollectionTheorems.InsertKeepsInv(s.store, RowOf(s.links[l], l, s.payers[step.payer].stage.wallet, s.payers[step.payer]));
    } else if step.SettleRow? && s'.store != s.store {
      CollectionTheorems.SettleKeepsInv(s.store, s.payers[step.payer].stage.collection, None, None, true);
    } else if step.Elsewhere? && s'.store != s.store {
      CollectionTheorems.NextKeepsInv(s.store, step.command);
    } else {
      assert s'.store == s.store;
    }
  }

  lemma {:induction false} RunKeepsInv(wallets: seq<Wallet>, steps: seq<Step>)
    ensures LinksFit(Run(Initial(wallets), steps)) && Collections.Inv(Run(Initial(wallets), steps).store)
  {
    if |steps| == 0 {
      CollectionTheorems.InitialInv(wallets);
    } else {
      RunKeepsInv(wallets, steps[..|steps| - 1]);
      NextKeepsLinks(Run(Initial(wallets), steps[..|steps| - 1]), steps[|steps| - 1]);
      NextKeepsStore(Run(Initial(wallets), steps[..|steps| - 1]), steps[|steps| - 1]);
    }
  }

  // --------------------------------------------------------------------- theorems

  /** However payers interleave, a link makes no more collections than its use count, and the use count never passes the limit. */
  lemma NeverOverused(wallets: seq<Wallet>, steps: seq<Step>, l: nat)
    requires l < |Run(Initial(wallets), steps).links|
    ensures var s := Run(Initial(wallets), steps);
      && Made(s.store.collections, l) <= s.links[l].useCount
      && (s.links[l].maxUses.Some? ==> s.links[l].useCount <= s.links[l].maxUses.value)
  {
    RunKeepsInv(wallets, steps);
    var s := Run(Initial(wallets), steps);
    assert LinkFits(s.links[l], Made(s.store.collections, l), Pledged(s.payers, l));
    SumDominates(|s.payers|, ClaimOf(s.payers, l));
  }

  predicate Paid(t: Stage) {
    t.Inserted? || t.Finished?
  }

  // ------------------------------------------------------------------------- keys

  /** The key is the token and what fits of the reference. */
  lemma KeyIs(token: string, ref: string)
    requires |token| <= 119
    ensures KeyOf(token, ref) == "paylink:" + token + ":" + Cut(ref, 119 - |token|)
  {
    var head := "paylink:" + token + ":";
    assert |head| == 9 + |token|;
    if |head + ref| > 128 {
      assert (head + ref)[..128] == head + ref[..119 - |token|];
    }
  }

  /** Two references of one token share a key exactly when they agree on what fits. */
  lemma KeysAgreeIff(token: string, ref: string, ref': string)
    requires |token| <= 119
    ensures KeyOf(token, ref) == KeyOf(token, ref') <==> Cut(ref, 119 - |token|) == Cut(ref', 119 - |token|)
  {
    KeyIs(token, ref);
    KeyIs(token, ref');
    var head, a, b := "paylink:" + token + ":", Cut(ref, 119 - |token|), Cut(ref', 119 - |token|);
    assert (head + a)[|head|..] == a && (head + b)[|head|..] == b;
  }

  lemma TokenInKey(token: string, ref: string)
    requires |token| <= 119
    ensures var k := KeyOf(token, ref);
      8 + |token| < |k| && k[8..8 + |token|] == token && k[8 + |token|] == ':'
  {
    KeyIs(token, ref);
  }

  /** A longer token would contain the colon that ends the shorter one. */
  lemma ColonInside(k: string, token: string, token': string)
    requires 8 + |token| < |k| && 8 + |token'| < |k| && k[8 + |token|] == ':' && k[8..8 + |token'|] == token'
    ensures |token| < |token'| ==> ':' in token'
  {
    if |token| < |token'| {
      assert token'[|token|] == k[8..8 + |token'|][|token|];
    }
  }

  /** Exactly when two (token, payer) pairs share a key: the same token, and payers that agree on what fits. */
  lemma KeySeparates(token: string, ref: string, token': string, ref': string)
    requires ':' !in token && ':' !in token' && |token| <= 119 && |token'| <= 119
    ensures KeyOf(token, ref) == KeyOf(token', ref') <==> token == token' && Cut(ref, 119 - |token|) == Cut(ref', 119 - |token|)
  {
    TokenInKey(token, ref);
    TokenInKey(token', ref');
    if KeyOf(token, ref) == KeyOf(token', ref') {
      ColonInside(KeyOf(token, ref), token, token');
      ColonInside(KeyOf(token, ref), token', token);
    }
    if token == token' {
      KeysAgreeIff(token, ref, ref');
    }
  }

  /** For the tokens that are generated: the key tells payers apart by the first 100 characters of their references. */
  lemma LinkKeysAgreeIff(token: string, ref: string, token': string, ref': string)
    requires IsToken(token) && IsToken(token')
    ensures KeyOf(token, ref) == KeyOf(token', ref') <==> token == token' && Cut(ref, 100) == Cut(ref', 100)
  {
    NoColon(token);
    NoColon(token');
    KeySeparates(token, ref, token', ref');
  }

  lemma NoColon(token: string)
    requires IsToken(token)
    ensures ':' !in token
  {
    forall i | 0 <= i < |token| ensures token[i] != ':' {
      if i < 3 {
        assert token[i] == token[..3][i];
      }
    }
  }

  function Repeat(c: char, n: nat): (r: string)
    ensures |r| == n
  {
    if n == 0 then "" else [c] + Repeat(c, n - 1)
  }

  lemma {:induction false} RepeatAt(c: char, n: nat, i: nat)
    requires i < n
    ensures Repeat(c, n)[i] == c
  {
    if i > 0 {
      RepeatAt(c, n - 1, i - 1);
    }
  }

  /** Different payers of one link do share a key once their references are longer than that. */
  lemma LongReferencesCollide()
    ensures var token, ref, ref' := "pl_" + Repeat('A', 16), Repeat('7', 100) + "1", Repeat('7', 100) + "2";
      IsToken(token) && ref != ref' && KeyOf(token, ref) == KeyOf(token, ref')
  {
    var token, ref, ref' := "pl_" + Repeat('A', 16), Repeat('7', 100) + "1", Repeat('7', 100) + "2";
    assert token[..3] == "pl_";
    forall i | 3 <= i < 19 ensures Base64Url(token[i]) {
      RepeatAt('A', 16, i - 3);
    }
    assert ref[100] != ref'[100];
    assert Cut(ref, 100) == Repeat('7', 100) == Cut(ref', 100);
    LinkKeysAgreeIff(token, ref, token, ref');
  }

  lemma SameCollectionWithin(links: seq<Link>, cs: seq<Collection>, p: Payer, q: Payer)
    requires KeysUnique(cs) && TokensFit(links) && PayerFits(links, cs, p) && PayerFits(links, cs, q) && Paid(p.stage) && Paid(q.stage)
    ensures p.stage.collection == q.stage.collection <==> p.token == q.token && Cut(p.ref, 100) == Cut(q.ref, 100)
  {
    LinkKeysAgreeIff(p.token, p.ref, q.token, q.ref);
    if p.token == q.token {
      assert p.stage.link == q.stage.link;
    }
  }

  /**
   When two requests that paid end at the same collection, in any run: exactly when they name
   the same link and payer references that agree on their first 100 characters. So a repeated
   request pays once, and so do two payers whose long references begin alike.
   */
  lemma SameCollectionIff(wallets: seq<Wallet>, steps: seq<Step>, p: nat, q: nat)
    requires var ps := Run(Initial(wallets), steps).payers; p < |ps| && q < |ps| && Paid(ps[p].stage) && Paid(ps[q].stage)
    ensures var ps := Run(Initial(wallets), steps).payers;
      ps[p].stage.collection == ps[q].stage.collection <==> ps[p].token == ps[q].token && Cut(ps[p].ref, 100) == Cut(ps[q].ref, 100)
  {
    RunKeepsInv(wallets, steps);
    var s := Run(Initial(wallets), steps);
    SameCollectionWithin(s.links, s.store.collections, s.payers[p], s.payers[q]);
  }

  /** Two requests of the same payer for the same link end at the same collection, and it is credited at most once. */
  lemma RepeatedPayerPaysOnce(wallets: seq<Wallet>, steps: seq<Step>, p: nat, q: nat)
    requires var ps := Run(Initial(wallets), steps).payers;
      p < |ps| && q < |ps| && ps[p].token == ps[q].token && ps[p].ref == ps[q].ref && Paid(ps[p].stage) && Paid(ps[q].stage)
    ensures var s := Run(Initial(wallets), steps);
      && s.payers[p].stage.collection == s.payers[q].stage.collection < |s.store.collections|
      && forall k, m | 0 <= k < m < |s.store.received| :: s.store.received[k] != s.store.received[m]
  {
    RunKeepsInv(wallets, steps);
    SameCollectionIff(wallets, steps, p, q);
    var s := Run(Initial(wallets), steps);
    assert PayerFits(s.links, s.store.collections, s.payers[p]);
  }

  lemma ReplayWithin(s: State, p: nat, ref: string)
    requires LinksFit(s) && KeysUnique(s.store.collections) && p < |s.payers| && Paid(s.payers[p].stage) && s.links[s.payers[p].stage.link].active
    ensures var paid := s.payers[p];
      ReadStage(s, paid.token, ref, false) == Finished(paid.stage.link, paid.stage.collection) <==> Cut(ref, 100) == Cut(paid.ref, 100)
  {
    var paid := s.payers[p];
    assert PayerFits(s.links, s.store.collections, paid);
    var l := FindLink(s.links, paid.token, 0);
    assert l == Some(paid.stage.link);
    LinkKeysAgreeIff(paid.token, ref, paid.token, paid.ref);
  }

  /** A later payer of an active link is taken for a replay of an earlier one exactly when their references agree on the first 100 characters. */
  lemma TakenForReplayIff(wallets: seq<Wallet>, steps: seq<Step>, p: nat, ref: string)
    requires var s := Run(Initial(wallets), steps);
      p < |s.payers| && Paid(s.payers[p].stage) && s.payers[p].stage.link < |s.links| && s.links[s.payers[p].stage.link].active
    ensures var s := Run(Initial(wallets), steps);
      var paid := s.payers[p];
      ReadStage(s, paid.token, ref, false) == Finished(paid.stage.link, paid.stage.collection) <==> Cut(ref, 100) == Cut(paid.ref, 100)
  {
    RunKeepsInv(wallets, steps);
    ReplayWithin(Run(Initial(wallets), steps), p, ref);
  }

  // ------------------------------------------------------------- an undisturbed payer

  /** Wallet w is the tenant's first. */
  predicate FirstOf(wallets: seq<Wallet>, tenant: nat, w: nat) {
    w < |wallets| && wallets[w].tenant == tenant && forall i | 0 <= i < w :: wallets[i].tenant != tenant
  }

  /** Link l is open to a payer with this key: it is active, has a use left and an amount, nobody has paid under the key, and the tenant's first wallet can be credited. */
  predicate OpenTo(s: State, l: nat, w: nat, key: string) {
    && l < |s.links| && s.links[l].active && (s.links[l].maxUses.Some? ==> s.links[l].useCount < s.links[l].maxUses.value) && s.links[l].amount > 0
    && (forall i | 0 <= i < |s.store.collections| :: s.store.collections[i].tenant != s.links[l].tenant || s.store.collections[i].key != Some(key))
    && FirstOf(s.store.pay.books.wallets, s.links[l].tenant, w)
    && FloatLiability(s.links[l].tenant) in s.store.pay.books.accounts
  }

  /** One request from its arrival to its settlement. */
  function WholeRequest(s: State, token: string, ref: string): seq<Step> {
    var p := |s.payers|;
    [Arrive(token, ref), Read(p, false), Claim(p), InsertRow(p), SettleRow(p)]
  }

  /** The link has one use more, and one SUCCESS collection more that carries it and the key; its amount is in the tenant's first wallet. */
  ghost predicate PaidThrough(s: State, s': State, l: nat, w: nat, token: string, ref: string)
    requires l < |s.links|
  {
    var link, id := s.links[l], |s.store.collections|;
    && s'.links == s.links[l := link.(useCount := link.useCount + 1)]
    && s'.payers == s.payers + [Payer(token, ref, Finished(l, id))]
    && |s'.store.collections| == id + 1 && s'.store.collections[..id] == s.store.collections
    && (var c := s'.store.collections[id];
        && c.tenant == link.tenant && c.wallet == w && c.channel == PaymentLink && c.status == Success && c.amount == link.amount
        && c.link == Some(l) && c.invoice.None? && c.receipt.None? && c.key == Some(KeyOf(token, ref)))
    && s'.store.received == s.store.received + [id]
    && s'.store.fiscal == s.store.fiscal && s'.store.pay == s.store.pay.(books := s'.store.pay.books)
    && Movements.Banked(s.store.pay.books, s'.store.pay.books, link.tenant, w, LinkRef(l), link.amount)
  }

  lemma {:induction false} FirstFound(wallets: seq<Wallet>, tenant: nat, w: nat, k: nat)
    requires FirstOf(wallets, tenant, w) && k <= w
    ensures FirstWallet(wallets, tenant, k) == Some(w)
    decreases w - k
  {
    if k < w {
      FirstFound(wallets, tenant, w, k + 1);
    }
  }

  lemma ReadsOpenLink(s: State, l: nat, w: nat, token: string, ref: string)
    requires TokensFit(s.links) && OpenTo(s, l, w, KeyOf(token, ref)) && s.links[l].token == token
    ensures ReadStage(s, token, ref, false) == Ready(l, w)
  {
    assert FindLink(s.links, token, 0) == Some(l);
    assert FindKey(s.store.collections, s.links[l].tenant, KeyOf(token, ref), 0).None?;
    FirstFound(s.store.pay.books.wallets, s.links[l].tenant, w, 0);
  }

  /** What the request does to the collections: its row is inserted, then settled for the link's amount. */
  lemma RowPaid(store: Collections.State, row: Collection)
    requires row.status == Pending && row.receipt.None? && row.invoice.None? && row.receiptNo.None? && row.key.Some? && row.amount > 0
    requires forall i | 0 <= i < |store.collections| :: store.collections[i].tenant != row.tenant || store.collections[i].key != row.key
    requires row.wallet < |store.pay.books.wallets| && store.pay.books.wallets[row.wallet].tenant == row.tenant
    requires FloatLiability(row.tenant) in store.pay.books.accounts
    ensures var id, inserted := |store.collections|, Insert(store, row);
      && inserted == Ok((store.(collections := store.collections + [row]), id))
      && (var settled := Settle(inserted.value.0, id, None, None, true);
          settled.Ok? && Settlements.SettledFor(inserted.value.0, settled.value.0, id, None, true, row.amount))
  {
    Settlements.InsertedIff(store, row);
    assert row.(status := Pending, receipt := None) == row;
    var store1, id := store.(collections := store.collections + [row]), |store.collections|;
    assert store1.collections[id] == row;
    Settlements.SettlesIff(store1, id, None, None, true, row.amount);
  }

  lemma RunFive(s: State, a: Step, b: Step, c: Step, d: Step, e: Step)
    ensures Run(s, [a, b, c, d, e]) == Next(Next(Next(Next(Next(s, a), b), c), d), e)
  {
    assert [a, b, c, d, e][..4] == [a, b, c, d] && [a, b, c, d][..3] == [a, b, c] && [a, b, c][..2] == [a, b];
    assert [a, b][..1] == [a] && [a][..0] == [];
    assert Run(s, []) == s;
    assert Run(s, [a]) == Next(s, a);
    assert Run(s, [a, b]) == Next(Next(s, a), b);
    assert Run(s, [a, b, c]) == Next(Next(Next(s, a), b), c);
  }

  /** The request up to its claim. */
  lemma ClaimsOpenLink(s: State, l: nat, w: nat, token: string, ref: string)
    requires TokensFit(s.links) && OpenTo(s, l, w, KeyOf(token, ref)) && s.links[l].token == token
    ensures var p := |s.payers|;
      Next(Next(Next(s, Arrive(token, ref)), Read(p, false)), Claim(p))
      == s.(links := s.links[l := s.links[l].(useCount := s.links[l].useCount + 1)], payers := s.payers + [Payer(token, ref, Claimed(l, w))])
  {
    var p := |s.payers|;
    var s1 := Next(s, Arrive(token, ref));
    ReadsOpenLink(s, l, w, token, ref);
    assert ReadStage(s1, token, ref, false) == ReadStage(s, token, ref, false);
    var s2 := Next(s1, Read(p, false));
    assert s2 == s.(payers := s.payers + [Payer(token, ref, Ready(l, w))]);
    var s3 := Next(s2, Claim(p));
    assert s3.payers == s.payers + [Payer(token, ref, Claimed(l, w))];
  }

  /** And from the claim to the settlement. */
  lemma PaysClaimedLink(s: State, l: nat, w: nat, p: nat)
    requires p < |s.payers| && l < |s.links| && s.payers[p].stage == Claimed(l, w)
    requires var row := RowOf(s.links[l], l, w, s.payers[p]);
      && row.amount > 0 && (forall i | 0 <= i < |s.store.collections| :: s.store.collections[i].tenant != row.tenant || s.store.collections[i].key != row.key)
      && w < |s.store.pay.books.wallets| && s.store.pay.books.wallets[w].tenant == row.tenant && FloatLiability(row.tenant) in s.store.pay.books.accounts
    ensures var row, id, s' := RowOf(s.links[l], l, w, s.payers[p]), |s.store.collections|, Next(Next(s, InsertRow(p)), SettleRow(p));
      && s'.links == s.links && s'.payers == s.payers[p := s.payers[p].(stage := Finished(l, id))]
      && Settlements.SettledFor(s.store.(collections := s.store.collections + [row]), s'.store, id, None, true, row.amount)
  {
    var row := RowOf(s.links[l], l, w, s.payers[p]);
    RowPaid(s.store, row);
    var s1 := Next(s, InsertRow(p));
    assert s1.payers[p].stage == Inserted(l, |s.store.collections|);
  }

  /** The claim and the settled row are the whole payment. */
  lemma ClaimAndRow(s: State, s': State, l: nat, w: nat, token: string, ref: string, row: Collection)
    requires l < |s.links| && row == RowOf(s.links[l], l, w, Payer(token, ref, Arrived))
    requires s'.links == s.links[l := s.links[l].(useCount := s.links[l].useCount + 1)]
    requires s'.payers == s.payers + [Payer(token, ref, Finished(l, |s.store.collections|))]
    requires Settlements.SettledFor(s.store.(collections := s.store.collections + [row]), s'.store, |s.store.collections|, None, true, row.amount)
    ensures PaidThrough(s, s', l, w, token, ref)
  {
    var id := |s.store.collections|;
    assert s'.store.collections == s.store.collections + [row.(status := Success)];
    assert s'.store.fiscal.docs == s.store.fiscal.docs;
  }

  /** A payer whom nobody gets in the way of, at a link that is open to him, ends with the link's amount in the tenant's wallet. */
  lemma UndisturbedPayerPays(s: State, l: nat, w: nat, token: string, ref: string)
    requires TokensFit(s.links) && OpenTo(s, l, w, KeyOf(token, ref)) && s.links[l].token == token
    ensures PaidThrough(s, Run(s, WholeRequest(s, token, ref)), l, w, token, ref)
  {
    var p := |s.payers|;
    RunFive(s, Arrive(token, ref), Read(p, false), Claim(p), InsertRow(p), SettleRow(p));
    ClaimsOpenLink(s, l, w, token, ref);
    var s3 := s.(links := s.links[l := s.links[l].(useCount := s.links[l].useCount + 1)], payers := s.payers + [Payer(token, ref, Claimed(l, w))]);
    PaysClaimedLink(s3, l, w, p);
    var s5 := Next(Next(s3, InsertRow(p)), SettleRow(p));
    assert s5.payers == s.payers + [Payer(token, ref, Finished(l, |s.store.collections|))];
    ClaimAndRow(s, s5, l, w, token, ref, RowOf(s.links[l], l, w, Payer(token, ref, Arrived)));
  }

  /** The payers who are turned away at once, and those who find the limit reached when they claim. */
  lemma TurnedAway(s: State, p: nat, expired: bool)
    requires p < |s.payers| && TokensFit(s.links)
    ensures s.payers[p].stage.Arrived? && ((forall l | 0 <= l < |s.links| :: s.links[l].token != s.payers[p].token || !s.links[l].active) || expired) ==>
              Next(s, Read(p, expired)) == At(s, p, Gone)
    ensures forall l | 0 <= l < |s.links| && s.links[l].maxUses.Some? && s.links[l].useCount >= s.links[l].maxUses.value && s.payers[p].stage.Ready? && s.payers[p].stage.link == l ::
              Next(s, Claim(p)) == At(s, p, Gone)
  {
  }
}
