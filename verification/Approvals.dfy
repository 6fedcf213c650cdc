/**
 Maker-checker approval requests (packages/approvals/src/service.ts): a request
 is created with the steps its policy demands and moves through its levels one
 recorded action at a time.
 */
module Approvals {
  import opened Prelude
  import opened Sums
  import opened Policy

  datatype RequestStatus = Pending | PartiallyApproved | Approved | Rejected | Expired | Cancelled

  datatype StepStatus = Waiting | InProgress | Passed | Refused | Skipped

  datatype Decision = Approve | Reject

  /** A recorded action; the roles are those the actor presented when it was accepted. */
  datatype Action = Action(step: nat, actor: string, roles: seq<string>, decision: Decision)

  /** A request with its step rows: steps[i] is what the policy demands of step i, marks[i] its status column. */
  datatype Request = Request(
    createdBy: string, status: RequestStatus, mode: Mode, required: int, currentLevel: nat,
    dueAt: Option<int>, steps: seq<StepRequirement>, marks: seq<StepStatus>, actions: seq<Action>)

  /** An attempt to act; delegatedFor is "" when the actor acts for nobody else. */
  datatype Vote = Vote(actor: string, roles: seq<string>, decision: Decision, delegatedFor: string)

  predicate Resolved(r: Request) {
    r.status in {Approved, Rejected, Expired, Cancelled}
  }

  // ------------------------------------------------------------------ operations

  function Needed(steps: seq<StepRequirement>): nat -> int {
    (i: nat) => if i < |steps| then steps[i].minApprovers else 0
  }

  function OpeningMarks(steps: seq<StepRequirement>): seq<StepStatus> {
    seq(|steps|, i requires 0 <= i < |steps| => if steps[i].level == 1 then InProgress else Waiting)
  }

  function CreateRequest(rules: seq<Rule>, ctx: Context, createdBy: string, dueAt: Option<int>): (r: Result<Request>) {
    if !ValidRules(rules) then Err("INVALID_RULES")
    else
      var steps := Evaluate(rules, ctx);
      if |steps| == 0 then Err("NO_STEPS_REQUIRED")
      else Ok(Request(createdBy, Pending, steps[0].mode, Sum(|steps|, Needed(steps)), 1, dueAt, steps, OpeningMarks(steps), []))
  }

  predicate Eligible(r: Request, k: nat)
    requires k < |r.steps| == |r.marks|
  {
    && r.marks[k] !in {Passed, Refused, Skipped}
    && (r.mode == Sequential || r.steps[k].mode == Sequential ==> r.steps[k].level == r.currentLevel)
  }

  /** First eligible step at position k or later. */
  function FirstEligible(r: Request, k: nat): (found: Option<nat>)
    requires |r.steps| == |r.marks|
    ensures found.Some? ==> k <= found.value < |r.steps| && Eligible(r, found.value)
    ensures forall i | k <= i < (if found.Some? then found.value else |r.steps|) :: !Eligible(r, i)
    decreases |r.steps| - k
  {
    if k >= |r.steps| then None
    else if Eligible(r, k) then Some(k)
    else FirstEligible(r, k + 1)
  }

  predicate WaitsAbove(r: Request, level: nat, k: nat)
    requires k < |r.steps| == |r.marks|
  {
    r.steps[k].level > level && r.marks[k] == Waiting
  }

  /** First waiting step above a level, at position k or later. */
  function NextWaiting(r: Request, level: nat, k: nat): (found: Option<nat>)
    requires |r.steps| == |r.marks|
    ensures found.Some? ==> k <= found.value < |r.steps| && WaitsAbove(r, level, found.value)
    ensures forall i | k <= i < (if found.Some? then found.value else |r.steps|) :: !WaitsAbove(r, level, i)
    decreases |r.steps| - k
  {
    if k >= |r.steps| then None
    else if WaitsAbove(r, level, k) then Some(k)
    else NextWaiting(r, level, k + 1)
  }

  predicate HoldsRole(roles: seq<string>, held: seq<string>) {
    exists x :: x in roles && x in held
  }

  predicate HasActed(actions: seq<Action>, actor: string) {
    exists i :: 0 <= i < |actions| && actions[i].actor == actor
  }

  function IsApproval(actions: seq<Action>, step: nat): nat -> int {
    (i: nat) => if i < |actions| && actions[i].step == step && actions[i].decision == Approve then 1 else 0
  }

  /** Approvals recorded on a step. */
  function Approvals(actions: seq<Action>, step: nat): int { Sum(|actions|, IsApproval(actions, step)) }

  /** What an action recorded on step k does to the request, and the status reported back. */
  function Advance(r: Request, k: nat, decision: Decision): (Request, RequestStatus)
    requires k < |r.steps| == |r.marks|
  {
    if decision == Reject then
      (r.(status := Rejected, currentLevel := r.steps[k].level, marks := r.marks[k := Refused]), Rejected)
    else if Approvals(r.actions, k) < r.steps[k].minApprovers then (r, PartiallyApproved)
    else
      match NextWaiting(r, r.steps[k].level, 0)
      case Some(n) =>
        (r.(status := PartiallyApproved, currentLevel := r.steps[n].level, marks := r.marks[k := Passed][n := InProgress]),
         PartiallyApproved)
      case None => (r.(status := Approved, marks := r.marks[k := Passed]), Approved)
  }

  function RecordAction(r: Request, v: Vote): (res: Result<(Request, RequestStatus)>)
    requires |r.steps| == |r.marks|
  {
    if Resolved(r) then Err("ALREADY_RESOLVED")
    else if r.createdBy == v.actor then Err("MAKER_CHECKER_VIOLATION")
    else if v.delegatedFor != "" && r.createdBy == v.delegatedFor then Err("MAKER_CHECKER_VIOLATION")
    else if HasActed(r.actions, v.actor) then Err("ALREADY_ACTED")
    else
      match FirstEligible(r, 0)
      case None => Err("NO_ACTIONABLE_STEP")
      case Some(k) =>
        if !HoldsRole(r.steps[k].roles, v.roles) then Err("ROLE_MISMATCH")
        else Ok(Advance(r.(actions := r.actions + [Action(k, v.actor, v.roles, v.decision)]), k, v.decision))
  }

  predicate Due(r: Request, now: int) {
    r.status == Pending && r.dueAt.Some? && r.dueAt.value <= now
  }

  function Expire(r: Request, now: int): Request {
    if Due(r, now) then r.(status := Expired) else r
  }

  // ------------------------------------------------------------------- whole runs

  datatype Command =
    | DoOpen(rules: seq<Rule>, ctx: Context, createdBy: string, dueAt: Option<int>)
    | DoVote(request: nat, vote: Vote)
    | DoExpire(now: int)

  /** One mark per step row. */
  predicate WellFormed(rs: seq<Request>) {
    forall i | 0 <= i < |rs| :: |rs[i].steps| == |rs[i].marks|
  }

  function Next(rs: seq<Request>, c: Command): (rs': seq<Request>)
    requires WellFormed(rs)
    ensures WellFormed(rs')
  {
    match c
    case DoOpen(rules, ctx, createdBy, dueAt) =>
      var created := CreateRequest(rules, ctx, createdBy, dueAt);
      if created.Ok? then rs + [created.value] else rs
    case DoVote(k, v) =>
      if k < |rs| && RecordAction(rs[k], v).Ok? then rs[k := RecordAction(rs[k], v).value.0] else rs
    case DoExpire(now) => seq(|rs|, i requires 0 <= i < |rs| => Expire(rs[i], now))
  }

  function Run(cs: seq<Command>): (rs: seq<Request>)
    ensures WellFormed(rs)
  {
    if |cs| == 0 then [] else Next(Run(cs[..|cs| - 1]), cs[|cs| - 1])
  }

  // -------------------------------------------------------------------- invariant

  /** What the policy fixes about a request. */
  ghost predicate Shaped(r: Request) {
    && |r.marks| == |r.steps| >= 1
    && 1 <= r.currentLevel <= |r.steps|
    && r.mode == r.steps[0].mode
    && r.required == Sum(|r.steps|, Needed(r.steps))
    && (forall i | 0 <= i < |r.steps| :: r.steps[i].level == i + 1 && r.steps[i].minApprovers >= 1)
    && (|r.steps| > 1 ==> forall i | 0 <= i < |r.steps| :: r.steps[i].mode == Sequential && r.steps[i].minApprovers == 1)
  }

  /** An action by someone other than the creator with a role of the level acted on. */
  predicate Rightful(createdBy: string, steps: seq<StepRequirement>, a: Action) {
    a.actor != createdBy && a.step < |steps| && HoldsRole(steps[a.step].roles, a.roles)
  }

  ghost predicate Distinct(actions: seq<Action>) {
    forall i, j | 0 <= i < j < |actions| :: actions[i].actor != actions[j].actor
  }

  /** Every action was rightful and by someone new. */
  ghost predicate Separated(createdBy: string, steps: seq<StepRequirement>, actions: seq<Action>) {
    (forall i | 0 <= i < |actions| :: Rightful(createdBy, steps, actions[i])) && Distinct(actions)
  }

  /** Step statuses and approval counts follow the current level. */
  ghost predicate InStep(r: Request)
    requires Shaped(r)
  {
    var c := r.currentLevel - 1;
    && (forall i | 0 <= i < c :: r.marks[i] == Passed && Approvals(r.actions, i) == r.steps[i].minApprovers)
    && (forall i | c < i < |r.steps| :: r.marks[i] == Waiting && Approvals(r.actions, i) == 0)
  }

  /** The actions are exactly the approvals so far, plus a final rejection. */
  ghost predicate AllCounted(r: Request)
    requires Shaped(r)
  {
    var c := r.currentLevel - 1;
    && |r.actions| == Sum(c, Needed(r.steps)) + Approvals(r.actions, c) + (if r.status == Rejected then 1 else 0)
    && (forall i | 0 <= i < |r.actions| ::
          r.actions[i].decision == Reject <==> r.status == Rejected && i == |r.actions| - 1)
  }

  /** The stored status says where the request stands. */
  ghost predicate StatusTells(r: Request)
    requires Shaped(r)
  {
    var c := r.currentLevel - 1;
    var short := Approvals(r.actions, c) < r.steps[c].minApprovers;
    match r.status
    case Pending => r.marks[c] == InProgress && short && c == 0
    case Expired => r.marks[c] == InProgress && short && c == 0
    case PartiallyApproved => r.marks[c] == InProgress && short && c > 0
    case Approved => r.marks[c] == Passed && Approvals(r.actions, c) == r.steps[c].minApprovers && c == |r.steps| - 1
    case Rejected => r.marks[c] == Refused && short && |r.actions| > 0
    case Cancelled => false
  }

  ghost predicate Inv(r: Request) {
    Shaped(r) && Separated(r.createdBy, r.steps, r.actions) && InStep(r) && AllCounted(r) && StatusTells(r)
  }

  lemma CreateEstablishes(rules: seq<Rule>, ctx: Context, createdBy: string, dueAt: Option<int>)
    requires CreateRequest(rules, ctx, createdBy, dueAt).Ok?
    ensures Inv(CreateRequest(rules, ctx, createdBy, dueAt).value)
  {
    var r := CreateRequest(rules, ctx, createdBy, dueAt).value;
    assert ValidRule(rules[Selected(rules, ctx).value]);
    forall i | 0 <= i < |r.steps| ensures Approvals(r.actions, i) == 0 {}
  }

  /** The one step that can be acted on is the current one. */
  lemma CurrentStepActionable(r: Request)
    requires Inv(r) && !Resolved(r)
    ensures FirstEligible(r, 0) == Some(r.currentLevel - 1)
  {
    assert Eligible(r, r.currentLevel - 1);
  }

  /** The step above the current one is the next to open. */
  lemma NextIsAbove(r: Request)
    requires Shaped(r) && InStep(r)
    ensures NextWaiting(r, r.currentLevel, 0) == if r.currentLevel < |r.steps| then Some(r.currentLevel) else None
  {
    if r.currentLevel < |r.steps| {
      assert WaitsAbove(r, r.currentLevel, r.currentLevel);
    }
  }

  predicate Accepts(r: Request, v: Vote)
    requires 1 <= r.currentLevel <= |r.steps|
  {
    && !Resolved(r)
    && v.actor != r.createdBy
    && (v.delegatedFor == "" || v.delegatedFor != r.createdBy)
    && !HasActed(r.actions, v.actor)
    && HoldsRole(r.steps[r.currentLevel - 1].roles, v.roles)
  }

  /** The request with the action recorded but its statuses not yet updated. */
  function Recorded(r: Request, v: Vote): Request
    requires r.currentLevel >= 1
  {
    r.(actions := r.actions + [Action(r.currentLevel - 1, v.actor, v.roles, v.decision)])
  }

  /** The approval completes the current level. */
  predicate Completes(r: Request, v: Vote)
    requires 1 <= r.currentLevel <= |r.steps|
  {
    v.decision == Approve && Approvals(r.actions, r.currentLevel - 1) + 1 >= r.steps[r.currentLevel - 1].minApprovers
  }

  /** The effect of an accepted vote told by levels alone. */
  function Moved(r: Request, v: Vote): Request
    requires 1 <= r.currentLevel <= |r.steps| == |r.marks|
  {
    var c, r1 := r.currentLevel - 1, Recorded(r, v);
    if v.decision == Reject then r1.(status := Rejected, marks := r.marks[c := Refused])
    else if !Completes(r, v) then r1
    else if c + 1 < |r.steps| then
      r1.(status := PartiallyApproved, currentLevel := c + 2, marks := r.marks[c := Passed][c + 1 := InProgress])
    else r1.(status := Approved, marks := r.marks[c := Passed])
  }

  lemma ApprovalsAdded(actions: seq<Action>, a: Action, k: nat)
    ensures Approvals(actions + [a], k) == Approvals(actions, k) + if a.step == k && a.decision == Approve then 1 else 0
  {
    SumAgree(|actions|, IsApproval(actions + [a], k), IsApproval(actions, k));
  }

  lemma AdvanceIsMoved(r: Request, v: Vote)
    requires Shaped(r) && InStep(r)
    ensures Advance(Recorded(r, v), r.currentLevel - 1, v.decision).0 == Moved(r, v)
  {
    var c, r1 := r.currentLevel - 1, Recorded(r, v);
    ApprovalsAdded(r.actions, r1.actions[|r.actions|], c);
    NextIsAbove(r);
    SameSearch(r, r1, r.currentLevel, 0);
  }

  lemma {:induction false} SameSearch(r: Request, r': Request, level: nat, k: nat)
    requires r'.steps == r.steps && r'.marks == r.marks && |r.steps| == |r.marks|
    ensures NextWaiting(r', level, k) == NextWaiting(r, level, k)
    decreases |r.steps| - k
  {
    if k < |r.steps| {
      SameSearch(r, r', level, k + 1);
    }
  }

  /** Exactly which votes are accepted and what they do: an open request is never without an actionable step. */
  lemma AcceptedIff(r: Request, v: Vote)
    requires Inv(r)
    ensures RecordAction(r, v).Ok? <==> Accepts(r, v)
    ensures RecordAction(r, v) != Err("NO_ACTIONABLE_STEP")
    ensures Accepts(r, v) ==> RecordAction(r, v).value.0 == Moved(r, v)
  {
    if !Resolved(r) {
      CurrentStepActionable(r);
      AdvanceIsMoved(r, v);
    }
  }

  lemma SeparationKept(createdBy: string, steps: seq<StepRequirement>, actions: seq<Action>, a: Action)
    requires Separated(createdBy, steps, actions) && Rightful(createdBy, steps, a) && !HasActed(actions, a.actor)
    ensures Separated(createdBy, steps, actions + [a])
  {
  }

  lemma LevelsKept(r: Request, v: Vote)
    requires Shaped(r) && InStep(r) && StatusTells(r) && !Resolved(r)
    ensures Shaped(Moved(r, v)) && InStep(Moved(r, v))
  {
    var r' := Moved(r, v);
    forall i | 0 <= i < |r.steps|
      ensures i < r'.currentLevel - 1 ==> r'.marks[i] == Passed && Approvals(r'.actions, i) == r'.steps[i].minApprovers
      ensures r'.currentLevel - 1 < i ==> r'.marks[i] == Waiting && Approvals(r'.actions, i) == 0
    {
      ApprovalsAdded(r.actions, Recorded(r, v).actions[|r.actions|], i);
    }
  }

  lemma OnlyLastRejects(actions: seq<Action>, a: Action)
    requires forall i | 0 <= i < |actions| :: actions[i].decision == Approve
    ensures forall i | 0 <= i < |actions| + 1 :: (actions + [a])[i].decision == Reject <==> a.decision == Reject && i == |actions|
  {
  }

  /** Counted level by level: a completed level joins the sum, an open one counts its approvals. */
  lemma LevelCount(r: Request, v: Vote)
    requires Shaped(r) && InStep(r) && StatusTells(r) && !Resolved(r)
    ensures var r', c := Moved(r, v), r.currentLevel - 1;
      Sum(r'.currentLevel - 1, Needed(r.steps)) + Approvals(r'.actions, r'.currentLevel - 1)
      == Sum(c, Needed(r.steps)) + Approvals(r.actions, c) + if v.decision == Approve then 1 else 0
  {
    var c, a := r.currentLevel - 1, Action(r.currentLevel - 1, v.actor, v.roles, v.decision);
    ApprovalsAdded(r.actions, a, c);
    ApprovalsAdded(r.actions, a, c + 1);
    var f := Needed(r.steps);
    assert Sum(c + 1, f) == Sum(c, f) + f(c);
  }

  lemma CountKept(r: Request, v: Vote)
    requires Shaped(r) && InStep(r) && AllCounted(r) && StatusTells(r) && !Resolved(r)
    ensures Shaped(Moved(r, v)) && AllCounted(Moved(r, v))
  {
    LevelCount(r, v);
    OnlyLastRejects(r.actions, Action(r.currentLevel - 1, v.actor, v.roles, v.decision));
  }

  lemma StatusKept(r: Request, v: Vote)
    requires Shaped(r) && InStep(r) && StatusTells(r) && !Resolved(r)
    ensures Shaped(Moved(r, v)) && StatusTells(Moved(r, v))
  {
    var a := Recorded(r, v).actions[|r.actions|];
    ApprovalsAdded(r.actions, a, r.currentLevel - 1);
    ApprovalsAdded(r.actions, a, r.currentLevel);
  }

  lemma ActorsKept(r: Request, v: Vote)
    requires Separated(r.createdBy, r.steps, r.actions) && 1 <= r.currentLevel <= |r.steps| == |r.marks| && Accepts(r, v)
    ensures Separated(r.createdBy, r.steps, Moved(r, v).actions)
  {
    SeparationKept(r.createdBy, r.steps, r.actions, Action(r.currentLevel - 1, v.actor, v.roles, v.decision));
  }

  lemma VoteKeepsInv(r: Request, v: Vote)
    requires Inv(r) && Accepts(r, v)
    ensures Inv(Moved(r, v))
  {
    var r' := Moved(r, v);
    assert r'.createdBy == r.createdBy && r'.steps == r.steps;
    assert Separated(r'.createdBy, r'.steps, r'.actions) by {
      ActorsKept(r, v);
    }
    assert Shaped(r') && InStep(r') by {
      LevelsKept(r, v);
    }
    assert AllCounted(r') by {
      CountKept(r, v);
    }
    assert StatusTells(r') by {
      StatusKept(r, v);
    }
  }

  lemma VotedKeepsInv(r: Request, v: Vote)
    requires Inv(r) && RecordAction(r, v).Ok?
    ensures Inv(RecordAction(r, v).value.0)
  {
    AcceptedIff(r, v);
    VoteKeepsInv(r, v);
  }

  lemma ExpireKeepsInv(r: Request, now: int)
    requires Inv(r)
    ensures Inv(Expire(r, now))
  {
  }

  lemma NextKeepsInv(rs: seq<Request>, c: Command, k: nat)
    requires WellFormed(rs) && k < |Next(rs, c)| && (k < |rs| ==> Inv(rs[k]))
    ensures Inv(Next(rs, c)[k])
  {
    match c {
      case DoOpen(rules, ctx, createdBy, dueAt) =>
        if k == |rs| {
          CreateEstablishes(rules, ctx, createdBy, dueAt);
        }
      case DoVote(id, v) =>
        if id == k && RecordAction(rs[k], v).Ok? {
          VotedKeepsInv(rs[k], v);
        }
      case DoExpire(now) => ExpireKeepsInv(rs[k], now);
    }
  }

  /** In every run, every request keeps steps, level, actions and status in lock-step. */
  lemma {:induction false} RunKeepsInv(cs: seq<Command>, k: nat)
    requires k < |Run(cs)|
    ensures Inv(Run(cs)[k])
  {
    var before := Run(cs[..|cs| - 1]);
    if k < |before| {
      RunKeepsInv(cs[..|cs| - 1], k);
    }
    NextKeepsInv(before, cs[|cs| - 1], k);
  }

  // --------------------------------------------------------------------- theorems

  /** Approvals still to come. */
  function Remaining(r: Request): int {
    r.required - |r.actions|
  }

  lemma {:induction false} NeedsAtLeast(steps: seq<StepRequirement>, c: nat, n: nat)
    requires c <= n <= |steps| && forall i | 0 <= i < |steps| :: steps[i].minApprovers >= 1
    ensures Sum(n, Needed(steps)) >= Sum(c, Needed(steps)) + (n - c)
  {
    if c < n {
      NeedsAtLeast(steps, c, n - 1);
    }
  }

  /** Of an unrejected request, none to come means approved. */
  lemma NoneLeftIffApproved(r: Request)
    requires Inv(r) && r.status != Rejected
    ensures Remaining(r) >= 0 && (Remaining(r) == 0 <==> r.status == Approved)
  {
    assert Sum(r.currentLevel, Needed(r.steps)) == Sum(r.currentLevel - 1, Needed(r.steps)) + r.steps[r.currentLevel - 1].minApprovers;
    NeedsAtLeast(r.steps, r.currentLevel, |r.steps|);
  }

  lemma FullyApproved(r: Request)
    requires Inv(r) && r.status == Approved
    ensures |r.actions| == r.required
    ensures forall i | 0 <= i < |r.actions| :: r.actions[i].decision == Approve
    ensures forall i | 0 <= i < |r.steps| :: Approvals(r.actions, i) == r.steps[i].minApprovers
  {
    NoneLeftIffApproved(r);
  }

  /**
   Approval is exactly the required number of APPROVE actions, by pairwise
   distinct people other than the creator, each with a role of the level acted on,
   and exactly the step's threshold of them on each level.
   */
  lemma ApprovedMeansFullyApproved(cs: seq<Command>, k: nat)
    requires k < |Run(cs)| && Run(cs)[k].status == Approved
    ensures var r := Run(cs)[k];
      && |r.actions| == r.required == Sum(|r.steps|, Needed(r.steps))
      && (forall i | 0 <= i < |r.actions| :: r.actions[i].decision == Approve && Rightful(r.createdBy, r.steps, r.actions[i]))
      && Distinct(r.actions)
      && (forall i | 0 <= i < |r.steps| :: Approvals(r.actions, i) == r.steps[i].minApprovers)
  {
    RunKeepsInv(cs, k);
    FullyApproved(Run(cs)[k]);
  }

  /** An open request has an actionable step and approvals to come, and it is stored PARTIALLY_APPROVED exactly above level 1. */
  lemma OpenMeansActionable(cs: seq<Command>, k: nat)
    requires k < |Run(cs)| && !Resolved(Run(cs)[k])
    ensures var r := Run(cs)[k];
      && FirstEligible(r, 0) == Some(r.currentLevel - 1)
      && (r.status == PartiallyApproved <==> r.currentLevel > 1)
      && Remaining(r) > 0
  {
    RunKeepsInv(cs, k);
    CurrentStepActionable(Run(cs)[k]);
    NoneLeftIffApproved(Run(cs)[k]);
  }

  /** An accepted approval leaves one approval fewer to come, and completes the request exactly when none is left. */
  lemma ApprovalProgress(r: Request, v: Vote)
    requires Inv(r) && Accepts(r, v) && v.decision == Approve
    ensures RecordAction(r, v).Ok?
    ensures var r' := RecordAction(r, v).value.0;
      Remaining(r') == Remaining(r) - 1 >= 0 && (r'.status == Approved <==> Remaining(r') == 0)
  {
    AcceptedIff(r, v);
    VoteKeepsInv(r, v);
    NoneLeftIffApproved(Moved(r, v));
  }

  lemma AdvanceReports(r: Request, v: Vote)
    requires Shaped(r) && InStep(r) && StatusTells(r) && !Resolved(r)
    ensures Advance(Recorded(r, v), r.currentLevel - 1, v.decision).1
         == if v.decision == Approve && !Completes(r, v) then PartiallyApproved else Moved(r, v).status
  {
    ApprovalsAdded(r.actions, Recorded(r, v).actions[|r.actions|], r.currentLevel - 1);
    NextIsAbove(r);
    SameSearch(r, Recorded(r, v), r.currentLevel, 0);
  }

  /** The reported status is the stored one, except that an unfinished single level is reported PARTIALLY_APPROVED but stays stored as PENDING. */
  lemma ReportedStatus(r: Request, v: Vote)
    requires Inv(r) && Accepts(r, v)
    ensures RecordAction(r, v).Ok?
    ensures var (r', reported) := RecordAction(r, v).value;
      reported != r'.status <==> |r.steps| == 1 && v.decision == Approve && Remaining(r') > 0
    ensures var (r', reported) := RecordAction(r, v).value;
      reported != r'.status ==> reported == PartiallyApproved && r'.status == Pending
  {
    AcceptedIff(r, v);
    CurrentStepActionable(r);
    AdvanceReports(r, v);
    if v.decision == Approve {
      VoteKeepsInv(r, v);
      NoneLeftIffApproved(Moved(r, v));
    }
  }

  /** A vote that throws changes nothing. */
  function AfterVote(r: Request, v: Vote): (r': Request)
    requires |r.steps| == |r.marks|
    ensures |r'.steps| == |r'.marks|
  {
    if RecordAction(r, v).Ok? then RecordAction(r, v).value.0 else r
  }

  function Votes(r: Request, vs: seq<Vote>): Request
    requires |r.steps| == |r.marks|
    decreases |vs|
  {
    if |vs| == 0 then r else Votes(AfterVote(r, vs[0]), vs[1..])
  }

  /** No sequence of fewer votes than remain, whoever casts them, approves a request. */
  lemma {:induction false} FewerNeverSuffice(r: Request, vs: seq<Vote>)
    requires Inv(r) && r.status != Approved && (Resolved(r) || |vs| < Remaining(r))
    ensures Votes(r, vs).status != Approved
    decreases |vs|
  {
    if |vs| > 0 {
      AcceptedIff(r, vs[0]);
      if Accepts(r, vs[0]) {
        VoteKeepsInv(r, vs[0]);
        if vs[0].decision == Approve {
          ApprovalProgress(r, vs[0]);
        }
      }
      FewerNeverSuffice(AfterVote(r, vs[0]), vs[1..]);
    }
  }

  /** The step that approval number n lands on, by the thresholds: the first, from k on, that the approvals before n do not fill. */
  function StepOf(steps: seq<StepRequirement>, n: nat, k: nat): nat
    decreases |steps| - k
  {
    if k >= |steps| || n < Sum(k + 1, Needed(steps)) then k else StepOf(steps, n, k + 1)
  }

  /** Someone who has not acted, is not the creator and holds a role of the step that the n-th approval lands on. */
  ghost predicate FreshApprover(r: Request, v: Vote, n: nat) {
    && v.decision == Approve
    && v.actor != r.createdBy
    && (v.delegatedFor == "" || v.delegatedFor != r.createdBy)
    && !HasActed(r.actions, v.actor)
    && StepOf(r.steps, n, 0) < |r.steps| && HoldsRole(r.steps[StepOf(r.steps, n, 0)].roles, v.roles)
  }

  ghost predicate FreshApprovers(r: Request, vs: seq<Vote>) {
    && (forall i | 0 <= i < |vs| :: FreshApprover(r, vs[i], |r.actions| + i))
    && (forall i, j | 0 <= i < j < |vs| :: vs[i].actor != vs[j].actor)
  }

  lemma {:induction false} StepFound(steps: seq<StepRequirement>, n: nat, k: nat, c: nat)
    requires k <= c < |steps| && Sum(c, Needed(steps)) <= n < Sum(c + 1, Needed(steps))
    requires forall i | 0 <= i < |steps| :: steps[i].minApprovers >= 1
    ensures StepOf(steps, n, k) == c
    decreases c - k
  {
    if k < c {
      NeedsAtLeast(steps, k + 1, c);
      StepFound(steps, n, k + 1, c);
    }
  }

  /** The next approval lands on the current step. */
  lemma NextLandsOnCurrent(r: Request)
    requires Inv(r) && !Resolved(r)
    ensures StepOf(r.steps, |r.actions|, 0) == r.currentLevel - 1
  {
    var c := r.currentLevel - 1;
    SumDominates(|r.actions|, IsApproval(r.actions, c));
    StepFound(r.steps, |r.actions|, 0, c);
  }

  /** Votes suit a request exactly when the first does and the others suit the request with the first recorded. */
  lemma FreshUnfolds(r: Request, r': Request, x: Action, vs: seq<Vote>)
    requires |vs| > 0 && r'.actions == r.actions + [x] && x.actor == vs[0].actor && r'.steps == r.steps && r'.createdBy == r.createdBy
    ensures FreshApprovers(r, vs) <==> FreshApprover(r, vs[0], |r.actions|) && FreshApprovers(r', vs[1..])
  {
    forall a ensures HasActed(r'.actions, a) <==> HasActed(r.actions, a) || a == vs[0].actor {
      ActedMore(r.actions, x, a);
    }
    if FreshApprovers(r, vs) {
      assert FreshApprover(r, vs[0], |r.actions| + 0);
      forall i | 0 <= i < |vs| - 1 ensures FreshApprover(r', vs[1..][i], |r'.actions| + i) {
        assert FreshApprover(r, vs[i + 1], |r.actions| + (i + 1)) && vs[0].actor != vs[i + 1].actor;
      }
    }
    if FreshApprover(r, vs[0], |r.actions|) && FreshApprovers(r', vs[1..]) {
      forall i | 0 <= i < |vs| ensures FreshApprover(r, vs[i], |r.actions| + i) && (i > 0 ==> vs[i].actor != vs[0].actor) {
        if i > 0 {
          assert FreshApprover(r', vs[1..][i - 1], |r'.actions| + (i - 1));
        }
      }
      forall i, j | 0 <= i < j < |vs| ensures vs[i].actor != vs[j].actor {
        if i > 0 {
          assert vs[1..][i - 1].actor != vs[1..][j - 1].actor;
        }
      }
    }
  }

  lemma ActedMore(actions: seq<Action>, x: Action, a: string)
    ensures HasActed(actions + [x], a) <==> HasActed(actions, a) || a == x.actor
  {
    if HasActed(actions, a) {
      var i :| 0 <= i < |actions| && actions[i].actor == a;
      assert (actions + [x])[i].actor == a;
    }
    assert (actions + [x])[|actions|] == x;
  }

  lemma FirstIsFresh(r: Request, v: Vote)
    requires Inv(r) && !Resolved(r)
    ensures FreshApprover(r, v, |r.actions|) <==> Accepts(r, v) && v.decision == Approve
  {
    NextLandsOnCurrent(r);
  }

  lemma FirstVoteDecides(r: Request, vs: seq<Vote>)
    requires |vs| > 0 && Inv(r) && !Resolved(r)
    ensures FreshApprovers(r, vs) <==> Accepts(r, vs[0]) && vs[0].decision == Approve && FreshApprovers(Moved(r, vs[0]), vs[1..])
  {
    FirstIsFresh(r, vs[0]);
    FreshUnfolds(r, Moved(r, vs[0]), Recorded(r, vs[0]).actions[|r.actions|], vs);
  }

  /** A vote that is no acceptable approval leaves as many to come as before, or ends the request. */
  lemma WastedVote(r: Request, vs: seq<Vote>)
    requires Inv(r) && !Resolved(r) && 0 < |vs| == Remaining(r) && !(Accepts(r, vs[0]) && vs[0].decision == Approve)
    ensures Votes(r, vs).status != Approved
  {
    AcceptedIff(r, vs[0]);
    if Accepts(r, vs[0]) {
      VoteKeepsInv(r, vs[0]);
    }
    FewerNeverSuffice(AfterVote(r, vs[0]), vs[1..]);
  }

  /**
   The remaining number of votes approves an open request exactly when they are approvals by distinct
   people who have not acted and did not create it, each with a role of the level the vote lands on.
   */
  lemma {:induction false} EnoughApproversSuffice(r: Request, vs: seq<Vote>)
    requires Inv(r) && !Resolved(r) && |vs| == Remaining(r)
    ensures Votes(r, vs).status == Approved <==> FreshApprovers(r, vs)
    decreases |vs|
  {
    NoneLeftIffApproved(r);
    FirstVoteDecides(r, vs);
    if Accepts(r, vs[0]) && vs[0].decision == Approve {
      AcceptedIff(r, vs[0]);
      ApprovalProgress(r, vs[0]);
      VoteKeepsInv(r, vs[0]);
      if |vs| > 1 {
        EnoughApproversSuffice(Moved(r, vs[0]), vs[1..]);
      }
    } else {
      WastedVote(r, vs);
    }
  }

  lemma RunLast(cs: seq<Command>, more: seq<Command>)
    requires |more| > 0
    ensures Run(cs + more) == Next(Run(cs + more[..|more| - 1]), more[|more| - 1])
  {
    assert (cs + more)[..|cs + more| - 1] == cs + more[..|more| - 1];
  }

  lemma StepKeepsResolved(rs: seq<Request>, c: Command, k: nat)
    requires WellFormed(rs) && k < |rs| && Resolved(rs[k])
    ensures k < |Next(rs, c)| && Next(rs, c)[k] == rs[k]
  {
  }

  /** A resolved request never changes again. */
  lemma {:induction false} ResolvedIsFinal(cs: seq<Command>, more: seq<Command>, k: nat)
    requires k < |Run(cs)| && Resolved(Run(cs)[k])
    ensures k < |Run(cs + more)| && Run(cs + more)[k] == Run(cs)[k]
    decreases |more|
  {
    if |more| == 0 {
      assert cs + more == cs;
    } else {
      var n := |more| - 1;
      ResolvedIsFinal(cs, more[..n], k);
      RunLast(cs, more);
      StepKeepsResolved(Run(cs + more[..n]), more[n], k);
    }
  }

  /** Expiry reaches a request only while it waits on its first level: one past level 1 never expires, however long it is overdue. */
  lemma ExpiryOnlyOnLevelOne(cs: seq<Command>, k: nat, now: int)
    requires k < |Run(cs)|
    ensures var r := Run(cs)[k];
      Expire(r, now) != r <==> !Resolved(r) && r.currentLevel == 1 && r.dueAt.Some? && r.dueAt.value <= now
    ensures var r := Run(cs)[k]; r.status == Expired ==> r.currentLevel == 1
  {
    RunKeepsInv(cs, k);
  }

  // ------------------------------------------------------ what is created and recorded

  lemma {:induction false} SequentialNeeds(steps: seq<StepRequirement>, n: nat)
    requires n <= |steps| && forall i | 0 <= i < |steps| :: steps[i].minApprovers == 1
    ensures Sum(n, Needed(steps)) == n
  {
    if n > 0 {
      SequentialNeeds(steps, n - 1);
    }
  }

  /** The rules are refused, ask for nothing, or the deciding rule fixes mode, steps and the number of approvals of a request that waits on level 1. */
  lemma CreatedIs(rules: seq<Rule>, ctx: Context, createdBy: string, dueAt: Option<int>)
    ensures var r := CreateRequest(rules, ctx, createdBy, dueAt);
      && (!ValidRules(rules) ==> r == Err("INVALID_RULES"))
      && (ValidRules(rules) && (forall i | 0 <= i < |rules| :: Excluded(rules[i], ctx)) ==> r == Err("NO_STEPS_REQUIRED"))
      && (ValidRules(rules) && (exists i :: 0 <= i < |rules| && !Excluded(rules[i], ctx)) ==> r.Ok?)
    ensures forall k: nat | ValidRules(rules) && Decides(rules, ctx, k) :: Opened(rules[k], createdBy, dueAt, CreateRequest(rules, ctx, createdBy, dueAt))
  {
    DecisionIs(rules, ctx);
    forall k: nat | ValidRules(rules) && Decides(rules, ctx, k) ensures Opened(rules[k], createdBy, dueAt, CreateRequest(rules, ctx, createdBy, dueAt)) {
      OpenedBy(rules, ctx, createdBy, dueAt, k);
    }
  }

  /** A new request for a rule: everyone of a SEQUENTIAL rule's roles once, otherwise the rule's own number of approvers. */
  predicate Opened(rule: Rule, createdBy: string, dueAt: Option<int>, created: Result<Request>) {
    created.Ok? &&
    var r := created.value;
    && r.createdBy == createdBy && r.dueAt == dueAt && r.status == Pending && r.currentLevel == 1 && r.actions == []
    && r.mode == rule.mode && Demand(rule, r.steps)
    && r.required == (if rule.mode == Sequential && |rule.requiredRoles| > 1 then |rule.requiredRoles| else rule.minApprovers)
    && |r.marks| == |r.steps| && forall i | 0 <= i < |r.marks| :: r.marks[i] == if i == 0 then InProgress else Waiting
  }

  lemma OpenedBy(rules: seq<Rule>, ctx: Context, createdBy: string, dueAt: Option<int>, k: nat)
    requires ValidRules(rules) && Decides(rules, ctx, k) && Demand(rules[k], Evaluate(rules, ctx))
    ensures Opened(rules[k], createdBy, dueAt, CreateRequest(rules, ctx, createdBy, dueAt))
  {
    var steps := Evaluate(rules, ctx);
    if rules[k].mode == Sequential && |rules[k].requiredRoles| > 1 {
      SequentialNeeds(steps, |steps|);
    } else {
      assert Sum(1, Needed(steps)) == Sum(0, Needed(steps)) + steps[0].minApprovers;
    }
  }

  predicate SharesRole(roles: seq<string>, held: seq<string>) {
    exists i, j :: 0 <= i < |roles| && 0 <= j < |held| && roles[i] == held[j]
  }

  lemma HoldsIffShares(roles: seq<string>, held: seq<string>)
    ensures HoldsRole(roles, held) <==> SharesRole(roles, held)
  {
    if HoldsRole(roles, held) {
      var x :| x in roles && x in held;
      var i, j :| 0 <= i < |roles| && 0 <= j < |held| && roles[i] == x && held[j] == x;
    }
    if SharesRole(roles, held) {
      var i, j :| 0 <= i < |roles| && 0 <= j < |held| && roles[i] == held[j];
      assert roles[i] in held;
    }
  }

  /** The positions of the approvals on a step. */
  function ApprovalsOn(actions: seq<Action>, step: nat): set<nat> {
    set i: nat | i < |actions| && actions[i].step == step && actions[i].decision == Approve
  }

  lemma ApprovalsCounted(actions: seq<Action>, step: nat)
    ensures Approvals(actions, step) == |ApprovalsOn(actions, step)|
  {
    SumCounts(|actions|, IsApproval(actions, step));
    assert ApprovalsOn(actions, step) == set i: nat | i < |actions| && IsApproval(actions, step)(i) == 1;
  }

  /** The vote is on record for the current level; a rejection ends the request, and enough approvals open the next level or approve it. */
  ghost predicate VoteRecorded(r: Request, v: Vote, r': Request, reported: RequestStatus)
    requires 1 <= r.currentLevel <= |r.steps| == |r.marks|
  {
    var c := r.currentLevel - 1;
    var enough := |ApprovalsOn(r.actions, c)| + 1 >= r.steps[c].minApprovers;
    && r' == r.(status := r'.status, currentLevel := r'.currentLevel, marks := r'.marks, actions := r.actions + [Action(c, v.actor, v.roles, v.decision)])
    && (if v.decision == Reject then
          r'.status == reported == Rejected && r'.currentLevel == r.currentLevel && r'.marks == r.marks[c := Refused]
        else if !enough then
          reported == PartiallyApproved && r'.status == r.status && r'.currentLevel == r.currentLevel && r'.marks == r.marks
        else if r.currentLevel < |r.steps| then
          r'.status == reported == PartiallyApproved && r'.currentLevel == r.currentLevel + 1 && r'.marks == r.marks[c := Passed][c + 1 := InProgress]
        else
          r'.status == reported == Approved && r'.currentLevel == r.currentLevel && r'.marks == r.marks[c := Passed])
  }

  lemma MoveIsRecorded(r: Request, v: Vote)
    requires Shaped(r) && InStep(r) && StatusTells(r) && !Resolved(r)
    ensures VoteRecorded(r, v, Moved(r, v), if v.decision == Approve && !Completes(r, v) then PartiallyApproved else Moved(r, v).status)
  {
    var c := r.currentLevel - 1;
    ApprovalsCounted(r.actions, c);
  }

  /** An accepted vote. */
  lemma AcceptedIsRecorded(r: Request, v: Vote)
    requires Inv(r) && Accepts(r, v)
    ensures RecordAction(r, v).Ok? && VoteRecorded(r, v, RecordAction(r, v).value.0, RecordAction(r, v).value.1)
  {
    CurrentStepActionable(r);
    AdvanceIsMoved(r, v);
    AdvanceReports(r, v);
    MoveIsRecorded(r, v);
  }

  /** Every vote: the reason it is refused, in the order of the checks, or what it does. */
  lemma VoteIs(r: Request, v: Vote)
    requires Inv(r)
    ensures var res := RecordAction(r, v);
      if r.status !in {Pending, PartiallyApproved} then res == Err("ALREADY_RESOLVED")
      else if v.actor == r.createdBy || (v.delegatedFor != "" && v.delegatedFor == r.createdBy) then res == Err("MAKER_CHECKER_VIOLATION")
      else if exists i :: 0 <= i < |r.actions| && r.actions[i].actor == v.actor then res == Err("ALREADY_ACTED")
      else if !SharesRole(r.steps[r.currentLevel - 1].roles, v.roles) then res == Err("ROLE_MISMATCH")
      else res.Ok? && VoteRecorded(r, v, res.value.0, res.value.1)
  {
    if !Resolved(r) {
      CurrentStepActionable(r);
      HoldsIffShares(r.steps[r.currentLevel - 1].roles, v.roles);
    }
    if Accepts(r, v) {
      AcceptedIsRecorded(r, v);
    }
  }
}

/** The approval tables in place. */
module ApprovalDb {
  import opened Prelude
  import opened Sums
  import opened Policy
  import opened Approvals

  class ApprovalTables {
    var requests: seq<Request>

    constructor ()
      ensures requests == []
    {
      requests := [];
    }

    method RequiredApprovals(steps: seq<StepRequirement>) returns (required: int)
      ensures required == Sum(|steps|, Needed(steps))
    {
      required := 0;
      for i := 0 to |steps|
        invariant required == Sum(i, Needed(steps))
      {
        required := required + steps[i].minApprovers;
      }
    }

    /** The request row, then its step rows one by one. */
    method InsertRequest(createdBy: string, required: int, dueAt: Option<int>, steps: seq<StepRequirement>) returns (id: nat)
      requires |steps| > 0
      modifies this
      ensures id == |old(requests)|
      ensures requests == old(requests) + [Request(createdBy, Pending, steps[0].mode, required, 1, dueAt, steps, OpeningMarks(steps), [])]
    {
      id := |requests|;
      requests := requests + [Request(createdBy, Pending, steps[0].mode, required, 1, dueAt, [], [], [])];
      for i := 0 to |steps|
        invariant requests == old(requests)
                  + [Request(createdBy, Pending, steps[0].mode, required, 1, dueAt, steps[..i], OpeningMarks(steps)[..i], [])]
      {
        var mark := if steps[i].level == 1 then InProgress else Waiting;
        requests := requests[id := requests[id].(steps := requests[id].steps + [steps[i]], marks := requests[id].marks + [mark])];
        assert steps[..i + 1] == steps[..i] + [steps[i]];
        assert OpeningMarks(steps)[..i + 1] == OpeningMarks(steps)[..i] + [mark];
      }
      assert steps[..|steps|] == steps && OpeningMarks(steps)[..|steps|] == OpeningMarks(steps);
    }

    method CreateApprovalRequest(rules: seq<Rule>, ctx: Context, createdBy: string, dueAt: Option<int>) returns (r: Result<nat>)
      requires WellFormed(requests)
      modifies this
      ensures requests == Approvals.Next(old(requests), DoOpen(rules, ctx, createdBy, dueAt))
      ensures match CreateRequest(rules, ctx, createdBy, dueAt)
              case Ok(_) => r == Ok(|old(requests)|)
              case Err(c) => r == Err(c)
    {
      var valid := ValidateRules(rules);
      if !valid {
        return Err("INVALID_RULES");
      }
      var steps := EvaluatePolicy(rules, ctx);
      if |steps| == 0 {
        return Err("NO_STEPS_REQUIRED");
      }
      var required := RequiredApprovals(steps);
      var id := InsertRequest(createdBy, required, dueAt, steps);
      return Ok(id);
    }

    method FindEligible(r: Request) returns (found: Option<nat>)
      requires |r.steps| == |r.marks|
      ensures found == FirstEligible(r, 0)
    {
      for i := 0 to |r.steps|
        invariant FirstEligible(r, 0) == FirstEligible(r, i)
      {
        if Eligible(r, i) {
          return Some(i);
        }
      }
      return None;
    }

    method FindNext(r: Request, level: nat) returns (found: Option<nat>)
      requires |r.steps| == |r.marks|
      ensures found == NextWaiting(r, level, 0)
    {
      for i := 0 to |r.steps|
        invariant NextWaiting(r, level, 0) == NextWaiting(r, level, i)
      {
        if r.steps[i].level > level && r.marks[i] == Waiting {
          return Some(i);
        }
      }
      return None;
    }

    method CountApprovals(actions: seq<Action>, step: nat) returns (n: int)
      ensures n == Approvals.Approvals(actions, step)
    {
      n := 0;
      for i := 0 to |actions|
        invariant n == Sum(i, IsApproval(actions, step))
      {
        if actions[i].step == step && actions[i].decision == Approve {
          n := n + 1;
        }
      }
    }

    method SetMark(id: nat, k: nat, mark: StepStatus)
      requires id < |requests| && k < |requests[id].marks|
      modifies this
      ensures requests == old(requests)[id := old(requests)[id].(marks := old(requests)[id].marks[k := mark])]
    {
      requests := requests[id := requests[id].(marks := requests[id].marks[k := mark])];
    }

    /** The rest of an accepted action, once it is on record for step k. */
    method AdvanceRequest(id: nat, k: nat, decision: Decision) returns (reported: RequestStatus)
      requires WellFormed(requests) && id < |requests| && k < |requests[id].steps|
      modifies this
      ensures var (r', s) := Advance(old(requests)[id], k, decision);
        requests == old(requests)[id := r'] && reported == s
    {
      var r := requests[id];
      if decision == Reject {
        requests := requests[id := r.(status := Rejected, currentLevel := r.steps[k].level)];
        SetMark(id, k, Refused);
        return Rejected;
      }
      var approvers := CountApprovals(r.actions, k);
      if approvers >= r.steps[k].minApprovers {
        SetMark(id, k, Passed);
        var next := FindNext(r, r.steps[k].level);
        if next.Some? {
          requests := requests[id := requests[id].(status := PartiallyApproved, currentLevel := r.steps[next.value].level)];
          SetMark(id, next.value, InProgress);
          return PartiallyApproved;
        }
        requests := requests[id := requests[id].(status := Approved)];
        return Approved;
      }
      return PartiallyApproved;
    }

    method RecordApprovalAction(id: nat, v: Vote) returns (res: Result<RequestStatus>)
      requires WellFormed(requests)
      modifies this
      ensures requests == Approvals.Next(old(requests), DoVote(id, v))
      ensures match (if id < |old(requests)| then RecordAction(old(requests)[id], v) else Err("NOT_FOUND"))
              case Ok((_, reported)) => res == Ok(reported)
              case Err(c) => res == Err(c)
    {
      if id >= |requests| {
        return Err("NOT_FOUND");
      }
      var r := requests[id];
      if r.status == Approved || r.status == Rejected || r.status == Expired || r.status == Cancelled {
        return Err("ALREADY_RESOLVED");
      }
      if r.createdBy == v.actor {
        return Err("MAKER_CHECKER_VIOLATION");
      }
      if v.delegatedFor != "" && r.createdBy == v.delegatedFor {
        return Err("MAKER_CHECKER_VIOLATION");
      }
      if HasActed(r.actions, v.actor) {
        return Err("ALREADY_ACTED");
      }
      var eligible := FindEligible(r);
      if eligible.None? {
        return Err("NO_ACTIONABLE_STEP");
      }
      var k := eligible.value;
      if !HoldsRole(r.steps[k].roles, v.roles) {
        return Err("ROLE_MISMATCH");
      }
      requests := requests[id := r.(actions := r.actions + [Action(k, v.actor, v.roles, v.decision)])];
      var reported := AdvanceRequest(id, k, v.decision);
      return Ok(reported);
    }

    method ExpireDueApprovals(now: int) returns (n: nat)
      requires WellFormed(requests)
      modifies this
      ensures requests == Approvals.Next(old(requests), DoExpire(now))
      ensures n == |set i | 0 <= i < |old(requests)| && Due(old(requests)[i], now)|
    {
      n := 0;
      ghost var stale: set<int> := {};
      for i := 0 to |requests|
        invariant |requests| == |old(requests)|
        invariant forall j | 0 <= j < |requests| :: requests[j] == if j < i then Expire(old(requests)[j], now) else old(requests)[j]
        invariant stale == set j | 0 <= j < i && Due(old(requests)[j], now)
        invariant n == |stale|
      {
        if Due(requests[i], now) {
          requests := requests[i := requests[i].(status := Expired)];
          stale := stale + {i};
          n := n + 1;
        }
      }
    }
  }
}
