/**
 The outbox relay (packages/payments-core/src/outbox-relay.ts and outbox.ts):
 pollers compete for one transaction-scoped lease, the winner handles a batch of
 events outside the database and marks them inside the transaction that holds
 the lease, so marks and lease are committed or rolled back together.
 */
module Outbox {
  import opened Prelude
  import opened Sums

  const MAX_ATTEMPTS := 10

  datatype Event = Event(published: bool, attempts: nat)

  predicate Eligible(e: Event) {
    !e.published && e.attempts < MAX_ATTEMPTS
  }

  /** Events are stored in creation order; the first eligible ones at position k or later, at most limit of them. */
  function PullFrom(events: seq<Event>, limit: nat, k: nat): (ids: seq<nat>)
    ensures |ids| <= limit
    ensures forall i | 0 <= i < |ids| :: k <= ids[i] < |events| && Eligible(events[ids[i]])
    ensures forall i, j | 0 <= i < j < |ids| :: ids[i] < ids[j]
    ensures forall e | k <= e < |events| && Eligible(events[e]) && e !in ids ::
              |ids| == limit && forall i | 0 <= i < |ids| :: ids[i] < e
    decreases |events| - k
  {
    if limit == 0 || k >= |events| then []
    else if Eligible(events[k]) then [k] + PullFrom(events, limit - 1, k + 1)
    else PullFrom(events, limit, k + 1)
  }

  function Mark(e: Event, ok: bool): Event {
    if ok then e.(published := true) else e.(attempts := e.attempts + 1)
  }

  /** The table once the first |marks| pulled events are marked. */
  function Marked(events: seq<Event>, ids: seq<nat>, marks: seq<bool>): (r: seq<Event>)
    requires |marks| <= |ids| && forall i | 0 <= i < |ids| :: ids[i] < |events|
    ensures |r| == |events|
  {
    if |marks| == 0 then events
    else
      var n := |marks| - 1;
      var done := Marked(events, ids, marks[..n]);
      done[ids[n] := Mark(done[ids[n]], marks[n])]
  }

  // ------------------------------------------------------------ concurrent protocol

  /**
   A poller is between ticks or inside a winning tick: marks are the verdicts on
   the first pulled events, handled says that the handler has already succeeded
   for the next one, which is not marked yet.
   */
  datatype Poller = Idle | Dispatching(ids: seq<nat>, marks: seq<bool>, handled: bool)

  /** handled and lost observe the outside world: successes of the handler per event, and how many of them were rolled back. */
  datatype State = State(events: seq<Event>, lease: Option<nat>, pollers: seq<Poller>, handled: nat -> nat, lost: nat -> nat)

  datatype Step =
    | Enqueue
    | Acquire(poller: nat, limit: nat)
    | HandleOk(poller: nat)
    | MarkOk(poller: nat)
    | HandleFail(poller: nat)
    | Commit(poller: nat)
    | Crash(poller: nat)

  function Initial(pollers: nat): State {
    State([], None, seq(pollers, _ => Idle), _ => 0, _ => 0)
  }

  /** The tick has successfully handled event e. */
  predicate HandledIn(t: Poller, e: nat) {
    && t.Dispatching?
    && ((exists k :: 0 <= k < |t.marks| && k < |t.ids| && t.ids[k] == e && t.marks[k])
        || (t.handled && |t.marks| < |t.ids| && t.ids[|t.marks|] == e))
  }

  predicate Holds(s: State, p: nat) {
    p < |s.pollers| && s.pollers[p].Dispatching?
  }

  /** The tick still has an event to handle. */
  predicate Busy(t: Poller) {
    t.Dispatching? && |t.marks| < |t.ids|
  }

  function EndTick(s: State, p: nat): State
    requires p < |s.pollers|
  {
    s.(lease := None, pollers := s.pollers[p := Idle])
  }

  /** One step of one poller, or a new event; a step that is not enabled changes nothing. */
  function Next(s: State, step: Step): State {
    match step
    case Enqueue => s.(events := s.events + [Event(false, 0)])
    case Acquire(p, limit) =>
      if p < |s.pollers| && s.pollers[p].Idle? && s.lease.None? then
        s.(lease := Some(p), pollers := s.pollers[p := Dispatching(PullFrom(s.events, limit, 0), [], false)])
      else s
    case HandleOk(p) =>
      if Holds(s, p) && Busy(s.pollers[p]) && !s.pollers[p].handled then
        var t := s.pollers[p];
        s.(pollers := s.pollers[p := t.(handled := true)],
           handled := (e: nat) => s.handled(e) + if e == t.ids[|t.marks|] then 1 else 0)
      else s
    case MarkOk(p) =>
      if Holds(s, p) && Busy(s.pollers[p]) && s.pollers[p].handled then
        s.(pollers := s.pollers[p := s.pollers[p].(marks := s.pollers[p].marks + [true], handled := false)])
      else s
    case HandleFail(p) =>
      if Holds(s, p) && Busy(s.pollers[p]) && !s.pollers[p].handled then
        s.(pollers := s.pollers[p := s.pollers[p].(marks := s.pollers[p].marks + [false])])
      else s
    case Commit(p) =>
      if Holds(s, p) && CanCommit(s.events, s.pollers[p]) then
        EndTick(s.(events := Marked(s.events, s.pollers[p].ids, s.pollers[p].marks)), p)
      else s
    case Crash(p) =>
      if Holds(s, p) then
        var t := s.pollers[p];
        EndTick(s.(lost := (e: nat) => s.lost(e) + if HandledIn(t, e) then 1 else 0), p)
      else s
  }

  /** Everything pulled is marked. */
  predicate CanCommit(events: seq<Event>, t: Poller) {
    t.Dispatching? && |t.marks| == |t.ids| && forall i | 0 <= i < |t.ids| :: t.ids[i] < |events|
  }

  function Run(s: State, steps: seq<Step>): State {
    if |steps| == 0 then s else Next(Run(s, steps[..|steps| - 1]), steps[|steps| - 1])
  }

  // ---------------------------------------------------------------------- invariant

  /** Mutual exclusion: exactly the lease holder is dispatching. */
  ghost predicate LeaseFits(s: State) {
    && (s.lease.Some? ==> s.lease.value < |s.pollers|)
    && (forall p | 0 <= p < |s.pollers| :: s.pollers[p].Dispatching? <==> s.lease == Some(p))
  }

  ghost predicate Ascending(ids: seq<nat>) {
    forall i, j | 0 <= i < j < |ids| :: ids[i] < ids[j]
  }

  /** A tick in progress works on distinct events that are still eligible in the committed table. */
  ghost predicate TickFits(events: seq<Event>, t: Poller) {
    t.Dispatching? ==>
      && |t.marks| <= |t.ids|
      && (t.handled ==> |t.marks| < |t.ids|)
      && Ascending(t.ids)
      && (forall i | 0 <= i < |t.ids| :: t.ids[i] < |events| && Eligible(events[t.ids[i]]))
  }

  /** The holder's tick, or Idle when nobody holds the lease. */
  function Current(s: State): Poller {
    if s.lease.Some? && s.lease.value < |s.pollers| then s.pollers[s.lease.value] else Idle
  }

  function One(b: bool): int { if b then 1 else 0 }

  /** Every success of the handler is a published mark, is still in flight, or was rolled back. */
  ghost predicate Accounted(s: State, e: nat) {
    if e < |s.events| then
      && s.events[e].attempts <= MAX_ATTEMPTS
      && s.handled(e) == One(s.events[e].published) + s.lost(e) + One(HandledIn(Current(s), e))
    else
      s.handled(e) == s.lost(e) == 0 && !HandledIn(Current(s), e)
  }

  ghost predicate Inv(s: State) {
    LeaseFits(s) && TickFits(s.events, Current(s)) && forall e: nat :: Accounted(s, e)
  }

  // ------------------------------------------------------------------- marking lemmas

  lemma MarkedNext(events: seq<Event>, ids: seq<nat>, outcomes: seq<bool>, i: nat)
    requires i < |ids| && i < |outcomes| && forall k | 0 <= k < |ids| :: ids[k] < |events|
    ensures var done := Marked(events, ids, outcomes[..i]);
      Marked(events, ids, outcomes[..i + 1]) == done[ids[i] := Mark(done[ids[i]], outcomes[i])]
  {
    assert outcomes[..i + 1][..i] == outcomes[..i];
  }

  lemma {:induction false} MarkedAt(events: seq<Event>, ids: seq<nat>, marks: seq<bool>, e: nat)
    requires |marks| <= |ids| && Ascending(ids) && e < |events| && forall i | 0 <= i < |ids| :: ids[i] < |events|
    ensures (forall k | 0 <= k < |marks| :: ids[k] != e) ==> Marked(events, ids, marks)[e] == events[e]
    ensures forall k | 0 <= k < |marks| && ids[k] == e :: Marked(events, ids, marks)[e] == Mark(events[e], marks[k])
  {
    if |marks| > 0 {
      MarkedAt(events, ids, marks[..|marks| - 1], e);
    }
  }

  /** A pulled event has exactly one verdict. */
  lemma VerdictOf(t: Poller, e: nat, k: nat)
    requires t.Dispatching? && k < |t.marks| <= |t.ids| && Ascending(t.ids) && t.ids[k] == e && !t.handled
    ensures HandledIn(t, e) <==> t.marks[k]
  {
    if HandledIn(t, e) {
      var j :| 0 <= j < |t.marks| && t.ids[j] == e && t.marks[j];
      assert j == k;
    }
  }

  lemma CommitAccounted(s: State, p: nat, e: nat)
    requires Inv(s) && s.lease == Some(p) && CanCommit(s.events, s.pollers[p])
    ensures Accounted(Next(s, Commit(p)), e)
  {
    var t, s' := s.pollers[p], Next(s, Commit(p));
    assert Accounted(s, e);
    assert !t.handled;
    if e < |s.events| {
      MarkedAt(s.events, t.ids, t.marks, e);
      if k :| 0 <= k < |t.ids| && t.ids[k] == e {
        VerdictOf(t, e, k);
      }
    }
  }

  /** Handling or marking the next event adds at most that event to what the tick has handled. */
  lemma HandledAfter(t: Poller, t': Poller, e: nat)
    requires Busy(t) && t'.Dispatching? && t'.ids == t.ids && Ascending(t.ids)
    requires (!t.handled && t' == t.(handled := true))
          || (t.handled && t' == t.(marks := t.marks + [true], handled := false))
          || (!t.handled && t' == t.(marks := t.marks + [false]))
    ensures HandledIn(t', e) <==> HandledIn(t, e) || (!t.handled && t'.handled && e == t.ids[|t.marks|])
    ensures e == t.ids[|t.marks|] ==> (HandledIn(t, e) <==> t.handled)
  {
    var n := |t.marks|;
    forall k | 0 <= k < n ensures t.ids[k] != t.ids[n] {}
    if HandledIn(t, e) {
      if k :| 0 <= k < n && t.ids[k] == e && t.marks[k] {
        assert t'.ids[k] == e && t'.marks[k];
      } else if t'.marks == t.marks + [true] {
        assert t'.ids[n] == e && t'.marks[n];
      }
    }
  }

  lemma TickStepAccounted(s: State, p: nat, step: Step, e: nat)
    requires Inv(s) && s.lease == Some(p) && step in {HandleOk(p), MarkOk(p), HandleFail(p)} && Next(s, step) != s
    ensures Accounted(Next(s, step), e)
  {
    assert Accounted(s, e);
    HandledAfter(s.pollers[p], Next(s, step).pollers[p], e);
  }

  lemma TickStepKeepsInv(s: State, p: nat, step: Step)
    requires Inv(s) && step in {HandleOk(p), MarkOk(p), HandleFail(p)}
    ensures Inv(Next(s, step))
  {
    if Next(s, step) != s {
      assert s.lease == Some(p);
      forall e: nat ensures Accounted(Next(s, step), e) {
        TickStepAccounted(s, p, step, e);
      }
    }
  }

  lemma EnqueueKeepsInv(s: State)
    requires Inv(s)
    ensures Inv(Next(s, Enqueue))
  {
    forall e: nat ensures Accounted(Next(s, Enqueue), e) {
      assert Accounted(s, e);
    }
  }

  lemma AcquireKeepsInv(s: State, p: nat, limit: nat)
    requires Inv(s)
    ensures Inv(Next(s, Acquire(p, limit)))
  {
    var s' := Next(s, Acquire(p, limit));
    forall e: nat ensures Accounted(s', e) {
      assert Accounted(s, e);
    }
  }

  lemma CommitKeepsInv(s: State, p: nat)
    requires Inv(s)
    ensures Inv(Next(s, Commit(p)))
  {
    if Holds(s, p) && CanCommit(s.events, s.pollers[p]) {
      forall e: nat ensures Accounted(Next(s, Commit(p)), e) {
        CommitAccounted(s, p, e);
      }
    }
  }

  lemma CrashKeepsInv(s: State, p: nat)
    requires Inv(s)
    ensures Inv(Next(s, Crash(p)))
  {
    if Holds(s, p) {
      forall e: nat ensures Accounted(Next(s, Crash(p)), e) {
        assert Accounted(s, e);
      }
    }
  }

  lemma NextKeepsInv(s: State, step: Step)
    requires Inv(s)
    ensures Inv(Next(s, step))
  {
    match step {
      case Enqueue => EnqueueKeepsInv(s);
      case Acquire(p, limit) => AcquireKeepsInv(s, p, limit);
      case HandleOk(p) => TickStepKeepsInv(s, p, step);
      case MarkOk(p) => TickStepKeepsInv(s, p, step);
      case HandleFail(p) => TickStepKeepsInv(s, p, step);
      case Commit(p) => CommitKeepsInv(s, p);
      case Crash(p) => CrashKeepsInv(s, p);
    }
  }

  lemma {:induction false} RunKeepsInv(pollers: nat, steps: seq<Step>)
    ensures Inv(Run(Initial(pollers), steps))
  {
    if |steps| == 0 {
      assert Inv(Initial(pollers));
    } else {
      RunKeepsInv(pollers, steps[..|steps| - 1]);
      NextKeepsInv(Run(Initial(pollers), steps[..|steps| - 1]), steps[|steps| - 1]);
    }
  }

  // ------------------------------------------------------------------------- theorems

  /** At most one poller dispatches at any moment of any run. */
  lemma OneDispatcher(pollers: nat, steps: seq<Step>, p: nat, q: nat)
    ensures var s := Run(Initial(pollers), steps); Holds(s, p) && Holds(s, q) ==> p == q
  {
    RunKeepsInv(pollers, steps);
  }

  /**
   What happened to an event: a published one was handled, it was handled at most
   once more than the number of rolled-back ticks that handled it, exactly so when
   no tick is running, and it never collected more than ten committed failures.
   */
  lemma HandledOncePlusRollbacks(pollers: nat, steps: seq<Step>, e: nat)
    ensures var s := Run(Initial(pollers), steps);
      e < |s.events| ==>
        && (s.events[e].published ==> s.handled(e) >= 1)
        && s.handled(e) <= 1 + s.lost(e)
        && (s.lease.None? ==> s.handled(e) == One(s.events[e].published) + s.lost(e))
        && s.events[e].attempts <= MAX_ATTEMPTS
  {
    RunKeepsInv(pollers, steps);
    var s := Run(Initial(pollers), steps);
    assert Accounted(s, e);
    if e < |s.events| && HandledIn(Current(s), e) {
      var t := Current(s);
      assert exists i :: 0 <= i < |t.ids| && t.ids[i] == e;
    }
  }

  /** What an eligible event can still cost: attempts left before it is given up. */
  function DebtOf(events: seq<Event>): nat -> int {
    (i: nat) => if i < |events| && Eligible(events[i]) then MAX_ATTEMPTS - events[i].attempts else 0
  }

  function Debt(events: seq<Event>): int { Sum(|events|, DebtOf(events)) }

  lemma DebtBounds(events: seq<Event>)
    ensures Debt(events) >= 0
    ensures Debt(events) == 0 <==> forall e | 0 <= e < |events| :: !Eligible(events[e])
  {
    SumDominates(|events|, DebtOf(events));
    if forall e | 0 <= e < |events| :: !Eligible(events[e]) {
      SumZero(|events|, DebtOf(events));
    } else {
      var e :| 0 <= e < |events| && Eligible(events[e]);
      assert DebtOf(events)(e) >= 1;
    }
  }

  /** Each mark, success or failure, takes at least one attempt off the debt. */
  lemma {:induction false} MarkingPays(events: seq<Event>, ids: seq<nat>, marks: seq<bool>)
    requires |marks| <= |ids| && Ascending(ids)
    requires forall i | 0 <= i < |ids| :: ids[i] < |events| && Eligible(events[ids[i]])
    ensures Debt(Marked(events, ids, marks)) <= Debt(events) - |marks|
  {
    if |marks| > 0 {
      var n := |marks| - 1;
      MarkingPays(events, ids, marks[..n]);
      var done := Marked(events, ids, marks[..n]);
      MarkedAt(events, ids, marks[..n], ids[n]);
      SumDelta(|events|, DebtOf(done), DebtOf(Marked(events, ids, marks)), ids[n]);
    }
  }

  /** A committed tick that pulled something strictly lowers the debt; with a positive limit it pulls whenever an event is eligible. */
  lemma CommitPays(s: State, p: nat)
    requires Inv(s) && Holds(s, p) && CanCommit(s.events, s.pollers[p])
    ensures Debt(Next(s, Commit(p)).events) <= Debt(s.events) - |s.pollers[p].ids|
  {
    MarkingPays(s.events, s.pollers[p].ids, s.pollers[p].marks);
  }

  lemma WinningTickPulls(s: State, p: nat, limit: nat)
    requires s.lease.None? && p < |s.pollers| && s.pollers[p].Idle? && limit >= 1
    ensures var ids := Next(s, Acquire(p, limit)).pollers[p].ids;
      ids == [] <==> forall e | 0 <= e < |s.events| :: !Eligible(s.events[e])
  {
    var ids := PullFrom(s.events, limit, 0);
    if ids == [] {
      forall e | 0 <= e < |s.events| ensures !Eligible(s.events[e]) {
        assert e !in ids;
      }
    } else {
      assert Eligible(s.events[ids[0]]);
    }
  }

  /** A committed tick that dispatched at least one event. */
  predicate Productive(s: State, step: Step) {
    step.Commit? && Holds(s, step.poller) && CanCommit(s.events, s.pollers[step.poller]) && s.pollers[step.poller].ids != []
  }

  function ProductiveTicks(s: State, steps: seq<Step>): nat {
    if |steps| == 0 then 0
    else
      var n := |steps| - 1;
      ProductiveTicks(s, steps[..n]) + if Productive(Run(s, steps[..n]), steps[n]) then 1 else 0
  }

  function Enqueued(steps: seq<Step>): nat {
    if |steps| == 0 then 0 else Enqueued(steps[..|steps| - 1]) + if steps[|steps| - 1].Enqueue? then 1 else 0
  }

  lemma StepPays(s: State, step: Step)
    requires Inv(s)
    ensures Debt(Next(s, step).events) + (if Productive(s, step) then 1 else 0)
         <= Debt(s.events) + if step.Enqueue? then MAX_ATTEMPTS else 0
  {
    if step.Enqueue? {
      SumAgree(|s.events|, DebtOf(s.events), DebtOf(s.events + [Event(false, 0)]));
    } else if step.Commit? && Holds(s, step.poller) && CanCommit(s.events, s.pollers[step.poller]) {
      CommitPays(s, step.poller);
    }
  }

  /** Draining: the productive ticks of any run are paid for by the debt it started with and ten attempts per new event. */
  lemma {:induction false} QueueDrains(s: State, steps: seq<Step>)
    requires Inv(s)
    ensures Inv(Run(s, steps))
    ensures Debt(Run(s, steps).events) + ProductiveTicks(s, steps) <= Debt(s.events) + MAX_ATTEMPTS * Enqueued(steps)
  {
    if |steps| > 0 {
      var n := |steps| - 1;
      QueueDrains(s, steps[..n]);
      NextKeepsInv(Run(s, steps[..n]), steps[n]);
      StepPays(Run(s, steps[..n]), steps[n]);
    }
  }

  /** So with no new events, once as many productive ticks have committed as the initial debt, nothing is left to dispatch. */
  lemma DrainedAfterEnoughTicks(s: State, steps: seq<Step>)
    requires Inv(s) && Enqueued(steps) == 0 && ProductiveTicks(s, steps) >= Debt(s.events)
    ensures forall e | 0 <= e < |Run(s, steps).events| :: !Eligible(Run(s, steps).events[e])
  {
    QueueDrains(s, steps);
    DebtBounds(Run(s, steps).events);
  }

  // ------------------------------------------------------------ one batch, event by event

  /** An event nobody has published and that has not failed ten times. */
  predicate Waiting(e: Event) {
    !e.published && e.attempts < 10
  }

  /** How many waiting events come before position k. */
  function Ahead(events: seq<Event>, k: nat): nat
    requires k <= |events|
  {
    if k == 0 then 0 else Ahead(events, k - 1) + if Waiting(events[k - 1]) then 1 else 0
  }

  /** Event e and its verdict, if it gets one. */
  predicate EventDispatched(events: seq<Event>, events': seq<Event>, limit: nat, outcomes: seq<bool>, e: nat)
    requires e < |events| == |events'|
  {
    var rank := Ahead(events, e);
    if Waiting(events[e]) && rank < limit && rank < |outcomes| then
      events'[e] == if outcomes[rank] then Event(true, events[e].attempts) else Event(false, events[e].attempts + 1)
    else events'[e] == events[e]
  }

  /** The batch: the first waiting events up to the limit, in order; the i-th of them gets the i-th verdict, a failure costs it one attempt, and no other event changes. */
  ghost predicate Dispatched(events: seq<Event>, events': seq<Event>, limit: nat, outcomes: seq<bool>) {
    |events'| == |events| && forall e | 0 <= e < |events| :: EventDispatched(events, events', limit, outcomes, e)
  }

  lemma {:induction false} AheadGrows(events: seq<Event>, k: nat, e: nat)
    requires k < e <= |events|
    ensures Ahead(events, e) >= Ahead(events, k) + if Waiting(events[k]) then 1 else 0
  {
    if k + 1 < e {
      AheadGrows(events, k, e - 1);
    }
  }

  lemma {:induction false} NoneBetween(events: seq<Event>, a: nat, b: nat)
    requires a <= b <= |events| && forall e | a <= e < b :: !Waiting(events[e])
    ensures Ahead(events, b) == Ahead(events, a)
  {
    if a < b {
      NoneBetween(events, a, b - 1);
    }
  }

  /** What is known of the pulled events. */
  ghost predicate Pulled(events: seq<Event>, ids: seq<nat>, limit: nat) {
    && |ids| <= limit && Ascending(ids)
    && (forall i | 0 <= i < |ids| :: ids[i] < |events| && Waiting(events[ids[i]]))
    && (forall e | 0 <= e < |events| && Waiting(events[e]) && e !in ids :: |ids| == limit && forall i | 0 <= i < |ids| :: ids[i] < e)
  }

  lemma PullFromPulls(events: seq<Event>, limit: nat)
    ensures Pulled(events, PullFrom(events, limit, 0), limit)
  {
    forall e | 0 <= e < |events| ensures Waiting(events[e]) <==> Eligible(events[e]) {}
  }

  /** The i-th pulled event has i waiting events ahead of it. */
  lemma {:induction false} PulledRank(events: seq<Event>, ids: seq<nat>, limit: nat, i: nat)
    requires Pulled(events, ids, limit) && i < |ids|
    ensures Ahead(events, ids[i]) == i
  {
    var from := if i == 0 then 0 else ids[i - 1] + 1;
    if i > 0 {
      PulledRank(events, ids, limit, i - 1);
    }
    forall e | from <= e < ids[i] ensures !Waiting(events[e]) {
      assert e !in ids;
    }
    NoneBetween(events, from, ids[i]);
  }

  /** As many are pulled as wait, up to the limit. */
  lemma PulledCount(events: seq<Event>, ids: seq<nat>, limit: nat)
    requires Pulled(events, ids, limit)
    ensures |ids| == Least(Ahead(events, |events|), limit)
  {
    var n := |ids|;
    if n > 0 {
      PulledRank(events, ids, limit, n - 1);
      AheadGrows(events, ids[n - 1], |events|);
    }
    if n < limit {
      var from := if n == 0 then 0 else ids[n - 1] + 1;
      forall e | from <= e < |events| ensures !Waiting(events[e]) {
        assert e !in ids;
      }
      NoneBetween(events, from, |events|);
    }
  }

  function Least(a: int, b: int): int {
    if a < b then a else b
  }

  /** An event is pulled exactly when it is waiting and fewer than limit waiting events are ahead of it. */
  lemma PulledIff(events: seq<Event>, ids: seq<nat>, limit: nat, e: nat)
    requires Pulled(events, ids, limit) && e < |events|
    ensures e in ids <==> Waiting(events[e]) && Ahead(events, e) < limit
    ensures e in ids ==> Ahead(events, e) < |ids| && ids[Ahead(events, e)] == e
  {
    if i :| 0 <= i < |ids| && ids[i] == e {
      PulledRank(events, ids, limit, i);
    } else if Waiting(events[e]) && limit > 0 {
      PulledRank(events, ids, limit, limit - 1);
      AheadGrows(events, ids[limit - 1], e);
    }
  }

  lemma OneDispatched(events: seq<Event>, limit: nat, outcomes: seq<bool>, e: nat)
    requires |outcomes| == |PullFrom(events, limit, 0)| && e < |events|
    ensures EventDispatched(events, Marked(events, PullFrom(events, limit, 0), outcomes), limit, outcomes, e)
  {
    PullFromPulls(events, limit);
    PulledIff(events, PullFrom(events, limit, 0), limit, e);
    MarkedAt(events, PullFrom(events, limit, 0), outcomes, e);
  }

  /** Marking the pulled events one after the other is the batch. */
  lemma MarkedIsDispatched(events: seq<Event>, limit: nat, outcomes: seq<bool>)
    requires |outcomes| == |PullFrom(events, limit, 0)|
    ensures Dispatched(events, Marked(events, PullFrom(events, limit, 0), outcomes), limit, outcomes)
  {
    forall e | 0 <= e < |events| ensures EventDispatched(events, Marked(events, PullFrom(events, limit, 0), outcomes), limit, outcomes, e) {
      OneDispatched(events, limit, outcomes, e);
    }
  }

  /** A committed tick publishes what it handled, charges an attempt for what failed, and frees the lease. */
  lemma CommitIs(s: State, p: nat, e: nat)
    requires Inv(s) && s.lease == Some(p) && e < |s.events|
    requires |s.pollers[p].marks| == |s.pollers[p].ids|
    ensures var t, s' := s.pollers[p], Next(s, Commit(p));
      && s'.lease.None? && s'.pollers == s.pollers[p := Idle] && s'.handled == s.handled && s'.lost == s.lost && |s'.events| == |s.events|
      && (e !in t.ids ==> s'.events[e] == s.events[e])
      && (forall k | 0 <= k < |t.ids| && t.ids[k] == e ::
            s'.events[e] == if t.marks[k] then Event(true, s.events[e].attempts) else Event(false, s.events[e].attempts + 1))
  {
    MarkedAt(s.events, s.pollers[p].ids, s.pollers[p].marks, e);
  }

  // ------------------------------------------------------------------------ in place

  function Success(outcomes: seq<bool>): nat -> int {
    (i: nat) => if i < |outcomes| && outcomes[i] then 1 else 0
  }

  lemma SuccessCounted(outcomes: seq<bool>, n: nat)
    requires n <= |outcomes|
    ensures Sum(n, Success(outcomes)) == |set i: nat | i < n && outcomes[i]|
  {
    SumCounts(n, Success(outcomes));
    assert (set i: nat | i < n && outcomes[i]) == set i: nat | i < n && Success(outcomes)(i) == 1;
  }

  /** How many events a batch takes. */
  function Taken(events: seq<Event>, limit: nat): nat {
    Least(Ahead(events, |events|), limit)
  }

  lemma MoreOutcomes(events: seq<Event>, events': seq<Event>, limit: nat, outcomes: seq<bool>)
    requires |outcomes| >= Taken(events, limit) && Dispatched(events, events', limit, outcomes[..Taken(events, limit)])
    ensures Dispatched(events, events', limit, outcomes)
  {
    forall e | 0 <= e < |events| ensures EventDispatched(events, events', limit, outcomes, e) {
      assert EventDispatched(events, events', limit, outcomes[..Taken(events, limit)], e);
      AheadGrows(events, e, |events|);
    }
  }

  /** Same table as the batch, counted by verdict. */
  lemma BatchIs(events: seq<Event>, limit: nat, outcomes: seq<bool>)
    requires |outcomes| >= limit
    ensures var ids := PullFrom(events, limit, 0);
      && |ids| == Taken(events, limit)
      && Dispatched(events, Marked(events, ids, outcomes[..|ids|]), limit, outcomes)
      && Sum(|ids|, Success(outcomes)) == |set i: nat | i < |ids| && outcomes[i]|
  {
    var ids := PullFrom(events, limit, 0);
    PullFromPulls(events, limit);
    PulledCount(events, ids, limit);
    MarkedIsDispatched(events, limit, outcomes[..|ids|]);
    MoreOutcomes(events, Marked(events, ids, outcomes[..|ids|]), limit, outcomes);
    SuccessCounted(outcomes, |ids|);
  }

  class Relay {
    var events: seq<Event>

    constructor ()
      ensures events == []
    {
      events := [];
    }

    method EnqueueOutbox() returns (id: nat)
      modifies this
      ensures id == |old(events)| && events == old(events) + [Event(false, 0)]
    {
      id := |events|;
      events := events + [Event(false, 0)];
    }

    method MarkPublished(id: nat)
      requires id < |events|
      modifies this
      ensures events == old(events)[id := Mark(old(events)[id], true)]
    {
      events := events[id := events[id].(published := true)];
    }

    method MarkFailed(id: nat)
      requires id < |events|
      modifies this
      ensures events == old(events)[id := Mark(old(events)[id], false)]
    {
      events := events[id := events[id].(attempts := events[id].attempts + 1)];
    }

    /** The whole batch; outcomes[i] says whether the handler returns or throws for the i-th pulled event. */
    method ProcessOutboxBatch(limit: nat, outcomes: seq<bool>) returns (dispatched: int, failed: int)
      requires |outcomes| >= limit
      modifies this
      ensures var ids := PullFrom(old(events), limit, 0);
        && events == Marked(old(events), ids, outcomes[..|ids|])
        && dispatched == Sum(|ids|, Success(outcomes))
        && dispatched + failed == |ids|
      ensures Dispatched(old(events), events, limit, outcomes)
      ensures dispatched == |set i: nat | i < Taken(old(events), limit) && outcomes[i]| && dispatched + failed == Taken(old(events), limit)
    {
      BatchIs(events, limit, outcomes);
      var ids := PullFrom(events, limit, 0);
      dispatched, failed := 0, 0;
      for i := 0 to |ids|
        invariant events == Marked(old(events), ids, outcomes[..i])
        invariant dispatched == Sum(i, Success(outcomes)) && dispatched + failed == i
      {
        MarkedNext(old(events), ids, outcomes, i);
        if outcomes[i] {
          MarkPublished(ids[i]);
          dispatched := dispatched + 1;
        } else {
          MarkFailed(ids[i]);
          failed := failed + 1;
        }
      }
    }
  }

  // ---------------------------------------------------------------------- refinement

  /** The steps of an undisturbed tick up to its first n events. */
  function TickSteps(p: nat, limit: nat, outcomes: seq<bool>): seq<Step> {
    if |outcomes| == 0 then [Acquire(p, limit)]
    else
      var n := |outcomes| - 1;
      TickSteps(p, limit, outcomes[..n]) + EventSteps(p, outcomes[n])
  }

  function EventSteps(p: nat, ok: bool): seq<Step> {
    if ok then [HandleOk(p), MarkOk(p)] else [HandleFail(p)]
  }

  lemma {:induction false} RunSplits(s: State, a: seq<Step>, b: seq<Step>)
    ensures Run(s, a + b) == Run(Run(s, a), b)
    decreases |b|
  {
    if |b| == 0 {
      assert a + b == a;
    } else {
      assert (a + b)[..|a + b| - 1] == a + b[..|b| - 1];
      RunSplits(s, a, b[..|b| - 1]);
    }
  }

  lemma RunOne(s: State, x: Step)
    ensures Run(s, [x]) == Next(s, x)
  {
    assert [x][..0] == [];
    assert Run(s, []) == s;
  }

  lemma RunTwo(s: State, x: Step, y: Step)
    ensures Run(s, [x, y]) == Next(Next(s, x), y)
  {
    assert [x] + [y] == [x, y];
    RunSplits(s, [x], [y]);
    RunOne(s, x);
    RunOne(Next(s, x), y);
  }

  predicate Working(s: State, events: seq<Event>, p: nat, ids: seq<nat>, marks: seq<bool>) {
    s.events == events && p < |s.pollers| && s.pollers[p] == Dispatching(ids, marks, false)
  }

  lemma OneMore(s: State, events: seq<Event>, p: nat, ids: seq<nat>, marks: seq<bool>, ok: bool)
    requires Working(s, events, p, ids, marks) && |marks| < |ids|
    ensures Working(Run(s, EventSteps(p, ok)), events, p, ids, marks + [ok])
  {
    if ok {
      RunTwo(s, HandleOk(p), MarkOk(p));
    } else {
      RunOne(s, HandleFail(p));
    }
  }

  lemma TickStarts(s: State, p: nat, limit: nat)
    requires Inv(s) && s.lease.None? && p < |s.pollers|
    ensures Working(Run(s, [Acquire(p, limit)]), s.events, p, PullFrom(s.events, limit, 0), [])
  {
    RunOne(s, Acquire(p, limit));
  }

  lemma {:induction false} TickSoFar(s: State, p: nat, limit: nat, ids: seq<nat>, outcomes: seq<bool>)
    requires Working(Run(s, [Acquire(p, limit)]), s.events, p, ids, []) && |outcomes| <= |ids|
    ensures Working(Run(s, TickSteps(p, limit, outcomes)), s.events, p, ids, outcomes)
  {
    if |outcomes| > 0 {
      var n := |outcomes| - 1;
      var before := TickSteps(p, limit, outcomes[..n]);
      TickSoFar(s, p, limit, ids, outcomes[..n]);
      OneMore(Run(s, before), s.events, p, ids, outcomes[..n], outcomes[n]);
      assert outcomes == outcomes[..n] + [outcomes[n]];
      RunSplits(s, before, EventSteps(p, outcomes[n]));
    }
  }

  lemma TickEnds(s: State, events: seq<Event>, p: nat, ids: seq<nat>, marks: seq<bool>)
    requires Working(s, events, p, ids, marks) && |marks| == |ids| && forall i | 0 <= i < |ids| :: ids[i] < |events|
    ensures Run(s, [Commit(p)]).events == Marked(events, ids, marks)
  {
    RunOne(s, Commit(p));
  }

  /** The loop of ProcessOutboxBatch is the protocol run undisturbed: same table after the commit. */
  lemma UndisturbedTick(s: State, p: nat, limit: nat, outcomes: seq<bool>)
    requires Inv(s) && s.lease.None? && p < |s.pollers| && |outcomes| == |PullFrom(s.events, limit, 0)|
    ensures Run(s, TickSteps(p, limit, outcomes) + [Commit(p)]).events
         == Marked(s.events, PullFrom(s.events, limit, 0), outcomes)
  {
    var steps := TickSteps(p, limit, outcomes);
    TickStarts(s, p, limit);
    TickSoFar(s, p, limit, PullFrom(s.events, limit, 0), outcomes);
    TickEnds(Run(s, steps), s.events, p, PullFrom(s.events, limit, 0), outcomes);
    RunSplits(s, steps, [Commit(p)]);
  }
}
