/**
 * The goal projection (crates/app/src/goal_host.rs): one pass over a session's
 * events, in saturating arithmetic, against a per-run account of what was used.
 */
module Goal {
  import opened Common

  type U64 = n: nat | n <= MAX_U64
  type U32 = n: nat | n <= MAX_U32

  type GoalId = string
  type RunId = string

  datatype Status = Active | Paused | Achieved | Abandoned

  datatype Criterion = Criterion(id: string, description: string, satisfied: bool)

  datatype Usage = Usage(input: U64, output: U64)

  datatype Payload =
    | Created(goal: GoalId, title: string, criteria: seq<Criterion>, budget: Option<U64>, maxRuns: Option<U32>)
    | PausedGoal(goal: GoalId)
    | Resumed(goal: GoalId, grant: U64, runs: Option<U32>)
    | Steered(goal: GoalId, input: string)
    | AchievedGoal(goal: GoalId)
    | AbandonedGoal(goal: GoalId, reason: string)
    | CriterionSatisfied(goal: GoalId, criterion: string)
    | RunStarted
    | RunCompleted(usage: Usage)
    | RunCancelled(partial: Option<Usage>)
    | RunFailed(partial: Option<Usage>)
    | ProviderRequestStarted
    | UsageUpdated(usage: Usage)
    | Diagnostic(code: string, named: Option<GoalId>, why: Option<string>)
    | Other

  datatype Event = Event(run: RunId, payload: Payload)

  datatype Snapshot = Snapshot(
    goal: GoalId,
    title: string,
    criteria: seq<Criterion>,
    status: Status,
    budget: Option<U64>,
    maxRuns: Option<U32>,
    usedTokens: U64,
    usedRuns: U32,
    currentRun: Option<RunId>,
    steering: seq<string>,
    pauseReason: Option<string>)

  const STEERING_KEPT := 16

  function Plus(a: U64, b: U64): U64 {
    SaturatingAdd(a, b, MAX_U64)
  }

  function UsageTokens(u: Usage): U64 {
    Plus(u.input, u.output)
  }

  function RemainingTokens(s: Snapshot): nat {
    SaturatingSub(if s.budget.Some? then s.budget.value else 0, s.usedTokens)
  }

  function RemainingRuns(s: Snapshot): nat {
    SaturatingSub(if s.maxRuns.Some? then s.maxRuns.value else 0, s.usedRuns)
  }

  // --------------------------------------------------------------- the single pass

  datatype Fold = Fold(goal: Snapshot, prior: U64, inFlight: U64)

  function Started(p: Payload): Fold
    requires p.Created?
  {
    Fold(Snapshot(p.goal, p.title, p.criteria, Active, p.budget, p.maxRuns, 0, 0, None, [], None), 0, 0)
  }

  function Keep(q: seq<string>): seq<string> {
    if |q| > STEERING_KEPT then q[1..] else q
  }

  /** The first criterion of that name, if there is one, is satisfied. */
  function MarkFirst(q: seq<Criterion>, id: string): (r: seq<Criterion>)
    ensures |r| == |q|
  {
    if q == [] then []
    else if q[0].id == id then [q[0].(satisfied := true)] + q[1..]
    else [q[0]] + MarkFirst(q[1..], id)
  }

  function AdvanceGoal(g: Snapshot, p: Payload): Snapshot {
    match p
    case PausedGoal(id) => if id == g.goal then g.(status := Paused) else g
    case Resumed(id, grant, runs) =>
      if id != g.goal then g
      else g.(
          budget := Some(Plus(g.usedTokens, grant)),
          maxRuns := if runs.Some? then Some(SaturatingAdd(g.usedRuns, runs.value, MAX_U32)) else None,
          status := Active,
          pauseReason := None)
    case Steered(id, input) => if id == g.goal then g.(steering := Keep(g.steering + [input])) else g
    case AchievedGoal(id) => if id == g.goal then g.(status := Achieved, pauseReason := None) else g
    case AbandonedGoal(id, reason) => if id == g.goal then g.(status := Abandoned, pauseReason := Some(reason)) else g
    case CriterionSatisfied(id, criterion) =>
      if id == g.goal then g.(criteria := MarkFirst(g.criteria, criterion)) else g
    case Diagnostic(code, named, why) =>
      if code == "goal.paused" && named == Some(g.goal) then g.(pauseReason := why) else g
    case _ => g
  }

  function Commit(f: Fold, used: U64): Fold {
    Fold(f.goal.(usedTokens := Plus(f.goal.usedTokens, used), currentRun := None), 0, 0)
  }

  function StopRun(f: Fold, partial: Option<Usage>): Fold {
    var t := Commit(f, if partial.Some? then UsageTokens(partial.value) else Plus(f.prior, f.inFlight));
    t.(goal := t.goal.(pauseReason := Some("run_stopped")))
  }

  function Advance(f: Fold, e: Event): Fold {
    if e.payload.Created? then Started(e.payload)
    else if e.payload.RunStarted? then
      if f.goal.status == Active then
        Fold(f.goal.(currentRun := Some(e.run), usedRuns := SaturatingAdd(f.goal.usedRuns, 1, MAX_U32)), 0, 0)
      else f
    else if f.goal.currentRun == Some(e.run) then
      match e.payload
      case RunCompleted(usage) => Commit(f, UsageTokens(usage))
      case RunCancelled(partial) => StopRun(f, partial)
      case RunFailed(partial) => StopRun(f, partial)
      case ProviderRequestStarted => Fold(f.goal, Plus(f.prior, f.inFlight), 0)
      case UsageUpdated(usage) => f.(inFlight := UsageTokens(usage))
      case _ => f.(goal := AdvanceGoal(f.goal, e.payload))
    else f.(goal := AdvanceGoal(f.goal, e.payload))
  }

  function After(f: Fold, es: seq<Event>): Fold {
    if es == [] then f else Advance(After(f, es[..|es| - 1]), es[|es| - 1])
  }

  function FoldOf(es: seq<Event>): Option<Fold> {
    if es == [] then None
    else
      var last := es[|es| - 1];
      if last.payload.Created? then Some(Started(last.payload))
      else
        match FoldOf(es[..|es| - 1])
        case None => None
        case Some(f) => Some(Advance(f, last))
  }

  function Settled(f: Fold): Snapshot {
    f.goal.(usedTokens := Plus(Plus(f.goal.usedTokens, f.prior), f.inFlight))
  }

  function Projection(es: seq<Event>): Option<Snapshot> {
    match FoldOf(es)
    case None => None
    case Some(f) => Some(Settled(f))
  }

  method GoalSnapshotOf(events: seq<Event>) returns (result: Option<Snapshot>)
    ensures result == Projection(events)
  {
    var snapshot: Option<Snapshot> := None;
    var inFlightUsage: U64, priorRequestUsage: U64 := 0, 0;
    var i := 0;
    while i < |events|
      invariant 0 <= i <= |events|
      invariant FoldOf(events[..i]) ==
        (if snapshot.None? then None else Some(Fold(snapshot.value, priorRequestUsage, inFlightUsage)))
    {
      var event := events[i];
      assert events[..i + 1][..i] == events[..i] && events[..i + 1][i] == event;
      i := i + 1;
      if event.payload.Created? {
        var p := event.payload;
        snapshot := Some(Snapshot(p.goal, p.title, p.criteria, Active, p.budget, p.maxRuns, 0, 0, None, [], None));
        inFlightUsage, priorRequestUsage := 0, 0;
        continue;
      }
      if snapshot.None? {
        continue;
      }
      var goal := snapshot.value;
      var open := goal.currentRun == Some(event.run);
      if event.payload.RunStarted? && goal.status == Active {
        goal := goal.(currentRun := Some(event.run), usedRuns := SaturatingAdd(goal.usedRuns, 1, MAX_U32));
        inFlightUsage, priorRequestUsage := 0, 0;
      } else if event.payload.RunCompleted? && open {
        goal := goal.(usedTokens := Plus(goal.usedTokens, UsageTokens(event.payload.usage)), currentRun := None);
        inFlightUsage, priorRequestUsage := 0, 0;
      } else if (event.payload.RunCancelled? || event.payload.RunFailed?) && open {
        var used := Plus(priorRequestUsage, inFlightUsage);
        if event.payload.partial.Some? {
          used := UsageTokens(event.payload.partial.value);
        }
        goal := goal.(
          usedTokens := Plus(goal.usedTokens, used),
          currentRun := None,
          pauseReason := Some("run_stopped"));
        inFlightUsage, priorRequestUsage := 0, 0;
      } else if event.payload.ProviderRequestStarted? && open {
        priorRequestUsage := Plus(priorRequestUsage, inFlightUsage);
        inFlightUsage := 0;
      } else if event.payload.UsageUpdated? && open {
        inFlightUsage := UsageTokens(event.payload.usage);
      } else {
        goal := AdvanceGoal(goal, event.payload);
      }
      snapshot := Some(goal);
    }
    assert events[..i] == events;
    if snapshot.None? {
      return None;
    }
    var goal := snapshot.value;
    return Some(goal.(usedTokens := Plus(Plus(goal.usedTokens, priorRequestUsage), inFlightUsage)));
  }

  // ------------------------------------------------------- only the last goal matters

  predicate NoCreated(es: seq<Event>) {
    forall i | 0 <= i < |es| :: !es[i].payload.Created?
  }

  lemma {:induction false} FoldFromCreated(before: seq<Event>, c: Event, es: seq<Event>)
    requires c.payload.Created? && NoCreated(es)
    ensures FoldOf(before + [c] + es) == Some(After(Started(c.payload), es))
  {
    var all := before + [c] + es;
    if es != [] {
      assert all[..|all| - 1] == before + [c] + es[..|es| - 1] && all[|all| - 1] == es[|es| - 1];
      FoldFromCreated(before, c, es[..|es| - 1]);
    }
  }

  /** What happened before the last Created leaves no trace. */
  lemma OnlyLastGoalMatters(before: seq<Event>, other: seq<Event>, c: Event, es: seq<Event>)
    requires c.payload.Created? && NoCreated(es)
    ensures Projection(before + [c] + es) == Projection(other + [c] + es)
    ensures Projection(before + [c] + es) == Some(Settled(After(Started(c.payload), es)))
  {
    FoldFromCreated(before, c, es);
    FoldFromCreated(other, c, es);
  }

  /** There is a snapshot if and only if some goal was ever created. */
  lemma {:induction false} SnapshotIffCreated(es: seq<Event>)
    ensures Projection(es).Some? <==> exists i :: 0 <= i < |es| && es[i].payload.Created?
  {
    if es != [] {
      var init := es[..|es| - 1];
      SnapshotIffCreated(init);
      if i :| 0 <= i < |es| && es[i].payload.Created? {
        assert i < |init| ==> init[i].payload.Created?;
      }
    }
  }

  // ------------------------------------------------------- what each run cost, exactly

  /** Whole numbers without a limit, from here on. */
  function Tokens(u: Usage): nat {
    u.input + u.output
  }

  /** The last event that sets the goal's status decides it. */
  function StatusAt(g: GoalId, es: seq<Event>): Status {
    if es == [] then Active
    else
      match es[|es| - 1].payload
      case PausedGoal(id) => if id == g then Paused else StatusAt(g, es[..|es| - 1])
      case Resumed(id, _, _) => if id == g then Active else StatusAt(g, es[..|es| - 1])
      case AchievedGoal(id) => if id == g then Achieved else StatusAt(g, es[..|es| - 1])
      case AbandonedGoal(id, _) => if id == g then Abandoned else StatusAt(g, es[..|es| - 1])
      case _ => StatusAt(g, es[..|es| - 1])
  }

  /** A run counts if the goal was active when it started. */
  predicate Counted(g: GoalId, es: seq<Event>, i: nat) {
    i < |es| && es[i].payload.RunStarted? && StatusAt(g, es[..i]) == Active
  }

  predicate Closes(e: Event, r: RunId) {
    e.run == r && (e.payload.RunCompleted? || e.payload.RunCancelled? || e.payload.RunFailed?)
  }

  /** The account of the run begun at `o` ends with its own last event, or with the next counted start. */
  predicate Ends(g: GoalId, es: seq<Event>, o: nat, j: nat) {
    o < j < |es| && (Counted(g, es, j) || Closes(es[j], es[o].run))
  }

  function FirstEnd(g: GoalId, es: seq<Event>, o: nat, k: nat): (j: nat)
    requires o < k <= |es|
    ensures k <= j <= |es| && (j < |es| ==> Ends(g, es, o, j))
    ensures forall i | k <= i < j :: !Ends(g, es, o, i)
    decreases |es| - k
  {
    if k == |es| || Ends(g, es, o, k) then k else FirstEnd(g, es, o, k + 1)
  }

  predicate IsUpdate(e: Event, r: RunId) {
    e.run == r && e.payload.UsageUpdated?
  }

  predicate IsRequest(e: Event, r: RunId) {
    e.run == r && e.payload.ProviderRequestStarted?
  }

  ghost predicate RequestBetween(q: seq<Event>, r: RunId, k: nat, m: nat) {
    exists l :: k < l < m <= |q| && IsRequest(q[l], r)
  }

  /** The last usage update of its request: any later update belongs to a later request. */
  ghost predicate Standing(q: seq<Event>, r: RunId, k: nat) {
    && k < |q| && IsUpdate(q[k], r)
    && forall m | k < m < |q| && IsUpdate(q[m], r) :: RequestBetween(q, r, k, m)
  }

  ghost function SumStanding(q: seq<Event>, r: RunId, m: nat): nat
    requires m <= |q|
  {
    if m == 0 then 0
    else SumStanding(q, r, m - 1) + (if Standing(q, r, m - 1) then Tokens(q[m - 1].payload.usage) else 0)
  }

  /** What a run without a final account has used: over its requests, the last update of each. */
  ghost function Provisional(q: seq<Event>, r: RunId): nat {
    SumStanding(q, r, |q|)
  }

  /**
   * What the run begun at `o` cost. A run whose account was cut off by another
   * counted start costs nothing: its provisional usage is discarded.
   */
  ghost function RunCost(g: GoalId, es: seq<Event>, o: nat): nat
    requires o < |es|
  {
    var j := FirstEnd(g, es, o, o + 1);
    var r := es[o].run;
    if j == |es| then Provisional(es[o + 1..], r)
    else if Counted(g, es, j) then 0
    else if es[j].payload.RunCompleted? then Tokens(es[j].payload.usage)
    else if es[j].payload.partial.Some? then Tokens(es[j].payload.partial.value)
    else Provisional(es[o + 1..j], r)
  }

  ghost function SumCost(g: GoalId, es: seq<Event>, m: nat): nat
    requires m <= |es|
  {
    if m == 0 then 0
    else SumCost(g, es, m - 1) + (if Counted(g, es, m - 1) then RunCost(g, es, m - 1) else 0)
  }

  ghost function Total(g: GoalId, es: seq<Event>): nat {
    SumCost(g, es, |es|)
  }

  // ----------------------------------------------------- the pass without its limits

  datatype Tally = Tally(used: nat, runs: nat, open: Option<nat>, prior: nat, inFlight: nat)

  function TallyOf(g: GoalId, es: seq<Event>): (t: Tally)
    ensures t.open.Some? ==> t.open.value < |es|
  {
    if es == [] then Tally(0, 0, None, 0, 0)
    else
      var n := |es| - 1;
      var t := TallyOf(g, es[..n]);
      if Counted(g, es, n) then Tally(t.used, t.runs + 1, Some(n), 0, 0)
      else if t.open.None? || es[n].run != es[t.open.value].run then t
      else TallyNext(t, es[n].payload)
  }

  function TallyNext(t: Tally, p: Payload): (r: Tally)
    ensures (r.open.Some? ==> r.open == t.open) && r.runs == t.runs
  {
    match p
    case RunCompleted(usage) => Tally(t.used + Tokens(usage), t.runs, None, 0, 0)
    case RunCancelled(partial) => Stopped(t, partial)
    case RunFailed(partial) => Stopped(t, partial)
    case ProviderRequestStarted => t.(prior := t.prior + t.inFlight, inFlight := 0)
    case UsageUpdated(usage) => t.(inFlight := Tokens(usage))
    case _ => t
  }

  function Stopped(t: Tally, partial: Option<Usage>): Tally {
    Tally(t.used + (if partial.Some? then Tokens(partial.value) else t.prior + t.inFlight), t.runs, None, 0, 0)
  }

  function Cap(n: nat): U64 {
    if n > MAX_U64 then MAX_U64 else n
  }

  function Cap32(n: nat): U32 {
    if n > MAX_U32 then MAX_U32 else n
  }

  /** Saturating at every step is saturating once, at the end. */
  lemma CapPlus(a: nat, b: nat)
    ensures Plus(Cap(a), Cap(b)) == Cap(a + b)
  {
  }

  ghost predicate Caps(f: Fold, g: GoalId, es: seq<Event>) {
    var t := TallyOf(g, es);
    && f.goal.goal == g
    && f.goal.status == StatusAt(g, es)
    && CapsUsage(f, t)
    && f.goal.usedRuns == Cap32(t.runs)
    && f.goal.currentRun == (if t.open.Some? then Some(es[t.open.value].run) else None)
  }

  predicate AboutRun(p: Payload) {
    || p.RunStarted? || p.RunCompleted? || p.RunCancelled? || p.RunFailed?
    || p.ProviderRequestStarted? || p.UsageUpdated?
  }

  /** Goal events leave the account alone. */
  lemma AdvanceGoalFrame(s: Snapshot, g: GoalId, es: seq<Event>, e: Event)
    requires s.goal == g && s.status == StatusAt(g, es)
    ensures var t := AdvanceGoal(s, e.payload);
      && t.goal == g && t.status == StatusAt(g, es + [e])
      && t.usedTokens == s.usedTokens && t.usedRuns == s.usedRuns && t.currentRun == s.currentRun
    ensures AboutRun(e.payload) ==> StatusAt(g, es + [e]) == StatusAt(g, es)
  {
    assert (es + [e])[..|es|] == es;
  }

  ghost predicate CapsUsage(f: Fold, t: Tally) {
    f.goal.usedTokens == Cap(t.used) && f.prior == Cap(t.prior) && f.inFlight == Cap(t.inFlight)
  }

  lemma CommitCaps(f: Fold, t: Tally, used: nat)
    requires CapsUsage(f, t)
    ensures CapsUsage(Commit(f, Cap(used)), Tally(t.used + used, t.runs, None, 0, 0))
  {
  }

  lemma OpenCaps(f: Fold, t: Tally, e: Event)
    requires CapsUsage(f, t) && f.goal.currentRun == Some(e.run)
    requires !e.payload.Created? && !e.payload.RunStarted?
    ensures CapsUsage(Advance(f, e), TallyNext(t, e.payload))
  {
    CapPlus(t.prior, t.inFlight);
    if e.payload.RunCompleted? {
      CommitCaps(f, t, Tokens(e.payload.usage));
    } else if e.payload.RunCancelled? || e.payload.RunFailed? {
      CommitCaps(f, t, if e.payload.partial.Some? then Tokens(e.payload.partial.value) else t.prior + t.inFlight);
    }
    hide Commit, Plus;
  }

  lemma AdvanceCaps(f: Fold, g: GoalId, es: seq<Event>, e: Event)
    requires Caps(f, g, es) && !e.payload.Created?
    ensures Caps(Advance(f, e), g, es + [e])
  {
    var es' := es + [e];
    var t := TallyOf(g, es);
    assert es'[..|es|] == es;
    AdvanceGoalFrame(f.goal, g, es, e);
    if f.goal.currentRun == Some(e.run) && !e.payload.RunStarted? { OpenCaps(f, t, e); }
    hide AdvanceGoal, StatusAt, Plus, Cap, UsageTokens, Tokens;
    if e.payload.RunStarted? {
      assert Counted(g, es', |es|) <==> f.goal.status == Active;
      if f.goal.status == Active {
        ZeroCaps();
      } else if t.open.Some? {
        assert TallyOf(g, es') == t;
      }
    } else {
      assert !Counted(g, es', |es|);
    }
  }

  lemma ZeroCaps()
    ensures Cap(0) == 0
  {
  }

  lemma {:induction false} FoldIsCappedTally(c: Payload, es: seq<Event>)
    requires c.Created? && NoCreated(es)
    ensures Caps(After(Started(c), es), c.goal, es)
  {
    if es != [] {
      var init := es[..|es| - 1];
      FoldIsCappedTally(c, init);
      AdvanceCaps(After(Started(c), init), c.goal, init, es[|es| - 1]);
      assert es == init + [es[|es| - 1]];
    }
  }

  // ------------------------------------------------- requests within an unfinished run

  function Boundary(q: seq<Event>, r: RunId): (b: nat)
    ensures b <= |q|
    ensures b > 0 ==> IsRequest(q[b - 1], r)
    ensures forall i | b <= i < |q| :: !IsRequest(q[i], r)
  {
    if q == [] then 0
    else if IsRequest(q[|q| - 1], r) then |q|
    else Boundary(q[..|q| - 1], r)
  }

  /** The last update of the current request, if it had one. */
  function Latest(q: seq<Event>, r: RunId): (k: Option<nat>)
    ensures k.Some? ==> Boundary(q, r) <= k.value < |q| && IsUpdate(q[k.value], r)
    ensures forall i | Boundary(q, r) <= i < |q| && IsUpdate(q[i], r) :: k.Some? && i <= k.value
  {
    if q == [] || IsRequest(q[|q| - 1], r) then None
    else if IsUpdate(q[|q| - 1], r) then Some(|q| - 1)
    else Latest(q[..|q| - 1], r)
  }

  function LatestTokens(q: seq<Event>, r: RunId): nat {
    match Latest(q, r)
    case None => 0
    case Some(k) => Tokens(q[k].payload.usage)
  }

  /** In the current request, the last update stands and no other does. */
  lemma OnlyLatestStands(q: seq<Event>, r: RunId, k: nat)
    requires Boundary(q, r) <= k < |q|
    ensures Standing(q, r, k) <==> Latest(q, r) == Some(k)
  {
    if IsUpdate(q[k], r) && Latest(q, r) != Some(k) {
      assert !RequestBetween(q, r, k, Latest(q, r).value);
    }
  }

  lemma {:induction false} SumFromBoundary(q: seq<Event>, r: RunId, m: nat)
    requires Boundary(q, r) <= m <= |q|
    ensures var k := Latest(q, r);
      SumStanding(q, r, m) ==
        SumStanding(q, r, Boundary(q, r)) + (if k.Some? && k.value < m then LatestTokens(q, r) else 0)
    decreases m
  {
    if m > Boundary(q, r) {
      SumFromBoundary(q, r, m - 1);
      OnlyLatestStands(q, r, m - 1);
    }
  }

  lemma ProvisionalSplits(q: seq<Event>, r: RunId)
    ensures Provisional(q, r) == SumStanding(q, r, Boundary(q, r)) + LatestTokens(q, r)
  {
    SumFromBoundary(q, r, |q|);
  }

  /** Whether an update stands does not change while no later update joins its request. */
  lemma StandingStays(q: seq<Event>, e: Event, r: RunId, k: nat)
    requires k < |q| && (!IsUpdate(e, r) || RequestBetween(q, r, k, |q|))
    ensures Standing(q + [e], r, k) == Standing(q, r, k)
  {
    var t := q + [e];
    forall m | k < m <= |q| ensures RequestBetween(t, r, k, m) == RequestBetween(q, r, k, m) {
      if l :| k < l < m && IsRequest(q[l], r) { assert IsRequest(t[l], r); }
      if l :| k < l < m && IsRequest(t[l], r) { assert IsRequest(q[l], r); }
    }
    if Standing(q, r, k) {
      forall m | k < m < |t| && IsUpdate(t[m], r) ensures RequestBetween(t, r, k, m) {
        if m < |q| { assert IsUpdate(q[m], r); }
      }
    }
    if Standing(t, r, k) {
      forall m | k < m < |q| && IsUpdate(q[m], r) ensures RequestBetween(q, r, k, m) {
        assert IsUpdate(t[m], r);
      }
    }
  }

  lemma {:induction false} SumStays(q: seq<Event>, e: Event, r: RunId, m: nat)
    requires m <= |q| && (!IsUpdate(e, r) || m <= Boundary(q, r))
    ensures SumStanding(q + [e], r, m) == SumStanding(q, r, m)
    decreases m
  {
    if m > 0 {
      SumStays(q, e, r, m - 1);
      if !IsUpdate(e, r) {
        StandingStays(q, e, r, m - 1);
      } else {
        var b := Boundary(q, r);
        assert IsRequest(q[b - 1], r);
        if m < b {
          assert RequestBetween(q, r, m - 1, |q|);
          StandingStays(q, e, r, m - 1);
        }
      }
    }
  }

  /** One more event of an open run: what it does to the earlier requests and to the current one. */
  lemma ProvisionalGrows(q: seq<Event>, e: Event, r: RunId)
    ensures var t := q + [e];
      var prior := SumStanding(q, r, Boundary(q, r));
      var prior' := SumStanding(t, r, Boundary(t, r));
      if IsRequest(e, r) then prior' == prior + LatestTokens(q, r) && LatestTokens(t, r) == 0
      else prior' == prior
           && LatestTokens(t, r) == if IsUpdate(e, r) then Tokens(e.payload.usage) else LatestTokens(q, r)
  {
    var t := q + [e];
    assert t[..|q|] == q;
    if IsRequest(e, r) {
      SumStays(q, e, r, |q|);
      assert SumStanding(t, r, |q| + 1) == SumStanding(t, r, |q|);
      ProvisionalSplits(q, r);
    } else {
      SumStays(q, e, r, Boundary(q, r));
    }
  }

  // ------------------------------------------------------------- the tally is the total

  /** The counted runs that began before `m` all have their account closed. */
  ghost predicate ClosedBefore(g: GoalId, es: seq<Event>, m: nat) {
    m <= |es| && forall i: nat | i < m && Counted(g, es, i) :: FirstEnd(g, es, i, i + 1) < |es|
  }

  lemma PrefixCounted(g: GoalId, es: seq<Event>, e: Event, i: nat)
    requires i < |es|
    ensures Counted(g, es + [e], i) == Counted(g, es, i)
  {
    assert (es + [e])[..i] == es[..i];
  }

  lemma PrefixEnd(g: GoalId, es: seq<Event>, e: Event, o: nat)
    requires o < |es|
    ensures var j := FirstEnd(g, es, o, o + 1); var t := es + [e];
      FirstEnd(g, t, o, o + 1) ==
        if j < |es| then j else if Ends(g, t, o, |es|) then |es| else |es| + 1
  {
    forall i: nat | i < |es| ensures Counted(g, es + [e], i) == Counted(g, es, i) { PrefixCounted(g, es, e, i); }
    var t := es + [e];
    assert forall i: nat | i < |es| :: Ends(g, t, o, i) == Ends(g, es, o, i);
    var j, j' := FirstEnd(g, es, o, o + 1), FirstEnd(g, t, o, o + 1);
    if j < |es| { assert Ends(g, es, o, j) && Ends(g, t, o, j); }
    if j' < |es| { assert Ends(g, t, o, j') && Ends(g, es, o, j'); }
  }

  /** A closed account is not reopened. */
  lemma PrefixCost(g: GoalId, es: seq<Event>, e: Event, o: nat)
    requires o < |es| && FirstEnd(g, es, o, o + 1) < |es|
    ensures RunCost(g, es + [e], o) == RunCost(g, es, o)
  {
    var j := FirstEnd(g, es, o, o + 1);
    PrefixEnd(g, es, e, o);
    PrefixCounted(g, es, e, j);
    assert (es + [e])[o + 1..j] == es[o + 1..j];
  }

  lemma {:induction false} PrefixSum(g: GoalId, es: seq<Event>, e: Event, m: nat)
    requires ClosedBefore(g, es, m)
    ensures SumCost(g, es + [e], m) == SumCost(g, es, m)
    decreases m
  {
    if m > 0 {
      PrefixSum(g, es, e, m - 1);
      PrefixCounted(g, es, e, m - 1);
      if Counted(g, es, m - 1) { PrefixCost(g, es, e, m - 1); }
    }
  }

  lemma {:induction false} NothingCounted(g: GoalId, es: seq<Event>, a: nat, b: nat)
    requires a <= b <= |es| && forall i: nat | a <= i < b :: !Counted(g, es, i)
    ensures SumCost(g, es, b) == SumCost(g, es, a)
    decreases b
  {
    if a < b { NothingCounted(g, es, a, b - 1); }
  }

  /** The pass keeps, beside the closed accounts, the two parts of the open one. */
  ghost predicate Accounts(g: GoalId, es: seq<Event>, t: Tally) {
    match t.open
    case None => t.used == SumCost(g, es, |es|) && ClosedBefore(g, es, |es|) && t.prior == t.inFlight == 0
    case Some(o) =>
      && Counted(g, es, o) && FirstEnd(g, es, o, o + 1) == |es|
      && t.used == SumCost(g, es, o) && ClosedBefore(g, es, o)
      && Requests(es[o + 1..], es[o].run, t)
  }

  /** The open run's finished requests, and its current one. */
  ghost predicate Requests(q: seq<Event>, r: RunId, t: Tally) {
    t.prior == SumStanding(q, r, Boundary(q, r)) && t.inFlight == LatestTokens(q, r)
  }

  lemma RequestsGrow(q: seq<Event>, r: RunId, t: Tally, e: Event)
    requires Requests(q, r, t) && !Closes(e, r)
    ensures Requests(q + [e], r, if e.run == r then TallyNext(t, e.payload) else t)
  {
    ProvisionalGrows(q, e, r);
    hide SumStanding, LatestTokens, Boundary, Tokens;
  }

  /** A continuing account has new request figures and nothing else. */
  lemma AccountsFrom(g: GoalId, es: seq<Event>, o: nat, t: Tally)
    requires Counted(g, es, o) && FirstEnd(g, es, o, o + 1) == |es|
    requires t.open == Some(o) && t.used == SumCost(g, es, o) && ClosedBefore(g, es, o)
    requires Requests(es[o + 1..], es[o].run, t)
    ensures Accounts(g, es, t)
  {
  }

  lemma OpenTallyNext(t: Tally, p: Payload)
    requires !p.RunCompleted? && !p.RunCancelled? && !p.RunFailed?
    ensures var n := TallyNext(t, p); n.open == t.open && n.used == t.used
  {
  }

  lemma OpenIsLast(g: GoalId, es: seq<Event>, o: nat)
    requires o < |es| && FirstEnd(g, es, o, o + 1) == |es|
    ensures forall i: nat | o < i < |es| :: !Counted(g, es, i)
  {
    forall i: nat | o < i < |es| ensures !Counted(g, es, i) { assert !Ends(g, es, o, i); }
  }

  lemma ClosedStays(g: GoalId, es: seq<Event>, e: Event, m: nat)
    requires ClosedBefore(g, es, m)
    ensures ClosedBefore(g, es + [e], m)
  {
    forall i: nat | i < m && Counted(g, es + [e], i) ensures FirstEnd(g, es + [e], i, i + 1) < |es + [e]| {
      PrefixCounted(g, es, e, i);
      PrefixEnd(g, es, e, i);
    }
  }

  /** When the open account ends at the new event, everything up to it is closed. */
  lemma OpenEnds(g: GoalId, es: seq<Event>, e: Event, o: nat)
    requires Counted(g, es, o) && FirstEnd(g, es, o, o + 1) == |es| && ClosedBefore(g, es, o)
    requires Ends(g, es + [e], o, |es|)
    ensures ClosedBefore(g, es + [e], |es|)
    ensures SumCost(g, es + [e], |es|) == SumCost(g, es, o) + RunCost(g, es + [e], o)
    ensures FirstEnd(g, es + [e], o, o + 1) == |es|
  {
    var t := es + [e];
    OpenIsLast(g, es, o);
    PrefixEnd(g, es, e, o);
    ClosedStays(g, es, e, o);
    PrefixSum(g, es, e, o);
    hide FirstEnd, RunCost, StatusAt;
    forall i: nat | i < |es| ensures Counted(g, t, i) == Counted(g, es, i) { PrefixCounted(g, es, e, i); }
    NothingCounted(g, t, o + 1, |es|);
  }

  lemma CountedKeepsAccounts(g: GoalId, es: seq<Event>, e: Event, t: Tally)
    requires Accounts(g, es, t) && Counted(g, es + [e], |es|)
    ensures Accounts(g, es + [e], Tally(t.used, t.runs + 1, Some(|es|), 0, 0))
  {
    match t.open
    case None =>
      PrefixSum(g, es, e, |es|);
      ClosedStays(g, es, e, |es|);
    case Some(o) =>
      assert Ends(g, es + [e], o, |es|);
      OpenEnds(g, es, e, o);
  }

  lemma CloseKeepsAccounts(g: GoalId, es: seq<Event>, e: Event, t: Tally, o: nat)
    requires Accounts(g, es, t) && t.open == Some(o) && Closes(e, es[o].run)
    ensures var cost :=
        if e.payload.RunCompleted? then Tokens(e.payload.usage)
        else if e.payload.partial.Some? then Tokens(e.payload.partial.value)
        else t.prior + t.inFlight;
      Accounts(g, es + [e], Tally(t.used + cost, t.runs, None, 0, 0))
  {
    var es' := es + [e];
    assert Ends(g, es', o, |es|);
    OpenEnds(g, es, e, o);
    assert !Counted(g, es', |es|);
    assert es'[o + 1..|es|] == es[o + 1..];
    ProvisionalSplits(es[o + 1..], es[o].run);
    hide Provisional, SumStanding, LatestTokens, Boundary, StatusAt;
    assert RunCost(g, es', o) ==
      if e.payload.RunCompleted? then Tokens(e.payload.usage)
      else if e.payload.partial.Some? then Tokens(e.payload.partial.value)
      else t.prior + t.inFlight;
    hide RunCost, FirstEnd, Tokens, Counted;
    assert SumCost(g, es', |es'|) == SumCost(g, es', |es|);
    ClosedOneMore(g, es');
  }

  lemma ClosedOneMore(g: GoalId, es: seq<Event>)
    requires es != [] && ClosedBefore(g, es, |es| - 1) && !Counted(g, es, |es| - 1)
    ensures ClosedBefore(g, es, |es|)
  {
  }

  lemma IdleKeepsAccounts(g: GoalId, es: seq<Event>, e: Event, t: Tally)
    requires Accounts(g, es, t) && !Counted(g, es + [e], |es|) && t.open.None?
    ensures Accounts(g, es + [e], t)
  {
    PrefixSum(g, es, e, |es|);
    ClosedStays(g, es, e, |es|);
  }

  lemma OpenStays(g: GoalId, es: seq<Event>, e: Event, o: nat)
    requires Counted(g, es, o) && FirstEnd(g, es, o, o + 1) == |es| && ClosedBefore(g, es, o)
    requires !Counted(g, es + [e], |es|) && !Closes(e, es[o].run)
    ensures Counted(g, es + [e], o) && FirstEnd(g, es + [e], o, o + 1) == |es| + 1
    ensures ClosedBefore(g, es + [e], o) && SumCost(g, es + [e], o) == SumCost(g, es, o)
  {
    PrefixEnd(g, es, e, o);
    PrefixCounted(g, es, e, o);
    PrefixSum(g, es, e, o);
    ClosedStays(g, es, e, o);
  }

  lemma OpenKeepsAccounts(g: GoalId, es: seq<Event>, e: Event, t: Tally, o: nat)
    requires Accounts(g, es, t) && !Counted(g, es + [e], |es|)
    requires t.open == Some(o) && !Closes(e, es[o].run)
    ensures Accounts(g, es + [e], if e.run == es[o].run then TallyNext(t, e.payload) else t)
  {
    OpenStays(g, es, e, o);
    RequestsGrow(es[o + 1..], es[o].run, t, e);
    assert (es + [e])[o + 1..] == es[o + 1..] + [e];
    var t' := if e.run == es[o].run then TallyNext(t, e.payload) else t;
    if e.run == es[o].run { OpenTallyNext(t, e.payload); }
    hide *;
    AccountsFrom(g, es + [e], o, t');
  }

  lemma {:induction false} TallyAccounts(g: GoalId, es: seq<Event>)
    ensures Accounts(g, es, TallyOf(g, es))
  {
    if es != [] {
      var n := |es| - 1;
      var init, e := es[..n], es[n];
      TallyAccounts(g, init);
      assert es == init + [e];
      var t := TallyOf(g, init);
      hide Accounts, Counted;
      if Counted(g, es, n) {
        CountedKeepsAccounts(g, init, e, t);
      } else if t.open.None? {
        IdleKeepsAccounts(g, init, e, t);
      } else if Closes(e, init[t.open.value].run) {
        CloseKeepsAccounts(g, init, e, t, t.open.value);
      } else {
        OpenKeepsAccounts(g, init, e, t, t.open.value);
      }
    } else {
      assert ClosedBefore(g, es, 0);
    }
  }

  lemma TallyIsTotal(g: GoalId, es: seq<Event>)
    ensures var t := TallyOf(g, es); t.used + t.prior + t.inFlight == Total(g, es)
  {
    TallyAccounts(g, es);
    var t := TallyOf(g, es);
    if t.open.Some? {
      var o := t.open.value;
      OpenIsLast(g, es, o);
      NothingCounted(g, es, o + 1, |es|);
      ProvisionalSplits(es[o + 1..], es[o].run);
    }
  }

  lemma SettledUsage(c: Payload, es: seq<Event>)
    requires c.Created? && NoCreated(es)
    ensures Settled(After(Started(c), es)).usedTokens == Cap(Total(c.goal, es))
  {
    FoldIsCappedTally(c, es);
    TallyIsTotal(c.goal, es);
    var t := TallyOf(c.goal, es);
    CapPlus(t.used, t.prior);
    CapPlus(t.used + t.prior, t.inFlight);
  }

  /** The published usage is the exact total over the counted runs, cut at 2^64 - 1 once. */
  lemma UsedTokensIsTotal(before: seq<Event>, c: Event, es: seq<Event>)
    requires c.payload.Created? && NoCreated(es)
    ensures var s := Projection(before + [c] + es);
      s.Some? && s.value.usedTokens == Cap(Total(c.payload.goal, es))
  {
    OnlyLastGoalMatters(before, [], c, es);
    SettledUsage(c.payload, es);
  }

  ghost function CountedRuns(g: GoalId, es: seq<Event>): set<nat> {
    set i: nat | i < |es| && Counted(g, es, i)
  }

  lemma {:induction false} TallyRuns(g: GoalId, es: seq<Event>)
    ensures TallyOf(g, es).runs == |CountedRuns(g, es)|
  {
    if es == [] {
      assert CountedRuns(g, es) == {};
    } else {
      var n := |es| - 1;
      var init, e := es[..n], es[n];
      TallyRuns(g, init);
      assert es == init + [e];
      hide TallyNext, StatusAt;
      assert TallyOf(g, es).runs == TallyOf(g, init).runs + (if Counted(g, es, n) then 1 else 0);
      forall i: nat | i < n ensures Counted(g, es, i) == Counted(g, init, i) { PrefixCounted(g, init, e, i); }
      hide Counted, TallyOf;
      var earlier := CountedRuns(g, init);
      assert n !in earlier;
      assert CountedRuns(g, es) == if Counted(g, es, n) then earlier + {n} else earlier;
    }
  }

  lemma UsedRunsIsCount(before: seq<Event>, c: Event, es: seq<Event>)
    requires c.payload.Created? && NoCreated(es)
    ensures var s := Projection(before + [c] + es);
      s.Some? && s.value.usedRuns == Cap32(|CountedRuns(c.payload.goal, es)|)
  {
    OnlyLastGoalMatters(before, [], c, es);
    SettledRuns(c.payload, es);
  }

  lemma SettledRuns(c: Payload, es: seq<Event>)
    requires c.Created? && NoCreated(es)
    ensures Settled(After(Started(c), es)).usedRuns == Cap32(|CountedRuns(c.goal, es)|)
  {
    FoldIsCappedTally(c, es);
    TallyRuns(c.goal, es);
  }

  // -------------------------------------------------------------- budgets and resumes

  lemma AfterSplit(f: Fold, a: seq<Event>, b: seq<Event>)
    ensures After(f, a + b) == After(After(f, a), b)
  {
    if b == [] {
      assert a + b == a;
    } else {
      assert (a + b)[..|a + b| - 1] == a + b[..|b| - 1] && (a + b)[|a + b| - 1] == b[|b| - 1];
      AfterSplit(f, a, b[..|b| - 1]);
    }
  }

  predicate Grants(g: GoalId, e: Event) {
    e.payload.Resumed? && e.payload.goal == g
  }

  predicate NoGrant(g: GoalId, es: seq<Event>) {
    forall i | 0 <= i < |es| :: !Grants(g, es[i])
  }

  lemma AdvanceKeepsBudget(f: Fold, e: Event)
    requires !e.payload.Created? && !Grants(f.goal.goal, e)
    ensures var t := Advance(f, e).goal;
      t.goal == f.goal.goal && t.budget == f.goal.budget && t.maxRuns == f.goal.maxRuns
  {
  }

  /** Only a grant, or a new goal, changes what the goal may use. */
  lemma {:induction false} BudgetStays(f: Fold, es: seq<Event>)
    requires NoCreated(es) && NoGrant(f.goal.goal, es)
    ensures var t := After(f, es).goal;
      t.goal == f.goal.goal && t.budget == f.goal.budget && t.maxRuns == f.goal.maxRuns
  {
    if es != [] {
      BudgetStays(f, es[..|es| - 1]);
      AdvanceKeepsBudget(After(f, es[..|es| - 1]), es[|es| - 1]);
    }
  }

  /** Closed accounts are never taken back. */
  lemma {:induction false} CommittedOnlyGrows(g: GoalId, a: seq<Event>, b: seq<Event>)
    ensures TallyOf(g, a).used <= TallyOf(g, a + b).used && TallyOf(g, a).runs <= TallyOf(g, a + b).runs
  {
    if b == [] {
      assert a + b == a;
    } else {
      var n := |b| - 1;
      assert (a + b)[..|a + b| - 1] == a + b[..n];
      CommittedOnlyGrows(g, a, b[..n]);
    }
  }

  /** So the goal's committed usage and run count never fall while it lasts. */
  lemma CommittedNeverFalls(c: Payload, a: seq<Event>, b: seq<Event>)
    requires c.Created? && NoCreated(a + b)
    ensures var s, t := After(Started(c), a).goal, After(Started(c), a + b).goal;
      s.usedTokens <= t.usedTokens && s.usedRuns <= t.usedRuns
  {
    assert forall i | 0 <= i < |a| :: (a + b)[i] == a[i];
    FoldIsCappedTally(c, a);
    FoldIsCappedTally(c, a + b);
    CommittedOnlyGrows(c.goal, a, b);
  }

  /** The counted run begun at `o` has not had its account closed. */
  predicate OpenAt(g: GoalId, es: seq<Event>, o: nat) {
    Counted(g, es, o) && FirstEnd(g, es, o, o + 1) == |es|
  }

  /** `e` would start a run that counts. */
  predicate StartsCounted(g: GoalId, es: seq<Event>, e: Event) {
    e.payload.RunStarted? && StatusAt(g, es) == Active
  }

  /** A final account below the provisional one, or an update below the last of its request. */
  predicate Undercuts(p: Payload, provisional: nat, latest: nat) {
    match p
    case RunCompleted(usage) => Tokens(usage) < provisional
    case RunCancelled(partial) => partial.Some? && Tokens(partial.value) < provisional
    case RunFailed(partial) => partial.Some? && Tokens(partial.value) < provisional
    case UsageUpdated(usage) => Tokens(usage) < latest
    case _ => false
  }

  function SumOf(t: Tally): nat {
    t.used + t.prior + t.inFlight
  }

  lemma UndercutsIff(t: Tally, p: Payload)
    ensures SumOf(TallyNext(t, p)) < SumOf(t) <==> Undercuts(p, t.prior + t.inFlight, t.inFlight)
  {
    hide Tokens;
  }

  /**
   * What makes the account of the open run smaller: another counted start, which
   * discards it; a final account below the provisional one; an update below the
   * last update of its request.
   */
  ghost predicate Shrinks(g: GoalId, es: seq<Event>, o: nat, e: Event)
    requires o < |es|
  {
    var q, r := es[o + 1..], es[o].run;
    if StartsCounted(g, es, e) then Provisional(q, r) > 0
    else e.run == r && Undercuts(e.payload, Provisional(q, r), LatestTokens(q, r))
  }

  ghost predicate Lowers(g: GoalId, es: seq<Event>, e: Event) {
    exists o: nat :: o < |es| && OpenAt(g, es, o) && Shrinks(g, es, o, e)
  }

  lemma OnlyOpen(g: GoalId, es: seq<Event>, o: nat, p: nat)
    requires o < |es| && p < |es| && OpenAt(g, es, o) && ClosedBefore(g, es, o)
    ensures OpenAt(g, es, p) <==> p == o
  {
    OpenIsLast(g, es, o);
    hide StatusAt;
  }

  /** The pass has a run open exactly if one is. */
  lemma TallyOpenIff(g: GoalId, es: seq<Event>, o: nat)
    requires o < |es|
    ensures OpenAt(g, es, o) <==> TallyOf(g, es).open == Some(o)
  {
    TallyAccounts(g, es);
    var t := TallyOf(g, es);
    hide Requests, SumCost, TallyOf, Counted;
    if t.open.Some? { OnlyOpen(g, es, t.open.value, o); }
  }

  /** And its two counters add up to that run's account. */
  lemma TallyOpenIsProvisional(g: GoalId, es: seq<Event>)
    requires TallyOf(g, es).open.Some?
    ensures var t := TallyOf(g, es); var o := t.open.value;
      && t.prior + t.inFlight == Provisional(es[o + 1..], es[o].run)
      && t.inFlight == LatestTokens(es[o + 1..], es[o].run)
  {
    TallyAccounts(g, es);
    var o := TallyOf(g, es).open.value;
    ProvisionalSplits(es[o + 1..], es[o].run);
    hide TallyOf, Provisional, SumStanding, LatestTokens, Boundary, SumCost, ClosedBefore, Counted, FirstEnd;
  }

  lemma IdleTally(g: GoalId, es: seq<Event>)
    requires TallyOf(g, es).open.None?
    ensures TallyOf(g, es).prior == TallyOf(g, es).inFlight == 0
  {
    TallyAccounts(g, es);
    hide TallyOf, SumCost, ClosedBefore;
  }

  lemma TallySnoc(g: GoalId, es: seq<Event>, e: Event)
    ensures var t := TallyOf(g, es);
      TallyOf(g, es + [e]) ==
        if StartsCounted(g, es, e) then Tally(t.used, t.runs + 1, Some(|es|), 0, 0)
        else if t.open.None? || e.run != es[t.open.value].run then t
        else TallyNext(t, e.payload)
  {
    assert (es + [e])[..|es|] == es;
    hide TallyNext, StatusAt;
  }

  lemma TallyFallsIff(g: GoalId, es: seq<Event>, e: Event)
    ensures var t := TallyOf(g, es);
      SumOf(TallyOf(g, es + [e])) < SumOf(t) <==> t.open.Some? && Shrinks(g, es, t.open.value, e)
  {
    hide StartsCounted, TallyOf, TallyNext, Undercuts, Provisional, LatestTokens;
    TallySnoc(g, es, e);
    var t := TallyOf(g, es);
    if t.open.None? {
      IdleTally(g, es);
    } else {
      TallyOpenIsProvisional(g, es);
      UndercutsIff(t, e.payload);
      assert StartsCounted(g, es, e) ==> SumOf(TallyOf(g, es + [e])) == t.used;
    }
  }

  lemma LowersIff(g: GoalId, es: seq<Event>, e: Event)
    ensures var t := TallyOf(g, es); Lowers(g, es, e) <==> t.open.Some? && Shrinks(g, es, t.open.value, e)
  {
    var t := TallyOf(g, es);
    forall o: nat | o < |es| ensures OpenAt(g, es, o) <==> t.open == Some(o) { TallyOpenIff(g, es, o); }
    hide OpenAt, TallyOf, Shrinks;
    if t.open.Some? { assert OpenAt(g, es, t.open.value); }
  }

  /** The exact total falls exactly when the next event lowers the open run's account. */
  lemma TotalFallsIff(g: GoalId, es: seq<Event>, e: Event)
    ensures Total(g, es + [e]) < Total(g, es) <==> Lowers(g, es, e)
  {
    hide TallyOf, Total, Shrinks, Lowers;
    TallyIsTotal(g, es);
    TallyIsTotal(g, es + [e]);
    TallyFallsIff(g, es, e);
    LowersIff(g, es, e);
  }

  /**
   * So from one event to the next, within a goal, the published usage falls exactly
   * when the event lowers the open run's account and leaves the total below 2^64 - 1.
   */
  lemma PublishedUsageFallsIff(before: seq<Event>, c: Event, es: seq<Event>, e: Event)
    requires c.payload.Created? && NoCreated(es) && !e.payload.Created?
    ensures var g := c.payload.goal;
      var s, t := Projection(before + [c] + es), Projection(before + [c] + (es + [e]));
      && s.Some? && t.Some?
      && (t.value.usedTokens < s.value.usedTokens <==> Lowers(g, es, e) && Total(g, es + [e]) < MAX_U64)
  {
    UsedTokensIsTotal(before, c, es);
    UsedTokensIsTotal(before, c, es + [e]);
    TotalFallsIff(c.payload.goal, es, e);
    hide Projection, Lowers, Total;
  }

  /** For one: a second start discards ten provisional tokens. */
  lemma PublishedUsageCanFall(c: Event, first: RunId, second: RunId)
    requires c.payload.Created?
    ensures var spent := [c, Event(first, RunStarted), Event(first, UsageUpdated(Usage(7, 3)))];
      && Projection(spent).Some? && Projection(spent).value.usedTokens == 10
      && Projection(spent + [Event(second, RunStarted)]).Some?
      && Projection(spent + [Event(second, RunStarted)]).value.usedTokens == 0
  {
    var s0 := [c];
    var s1 := s0 + [Event(first, RunStarted)];
    var s2 := s1 + [Event(first, UsageUpdated(Usage(7, 3)))];
    var s3 := s2 + [Event(second, RunStarted)];
    assert s2 == [c, Event(first, RunStarted), Event(first, UsageUpdated(Usage(7, 3)))];
    assert s0[..0] == [] && s1[..1] == s0 && s2[..2] == s1 && s3[..3] == s2;
    assert FoldOf(s0) == Some(Started(c.payload));
    assert FoldOf(s1).Some? && FoldOf(s2).Some? && FoldOf(s3).Some?;
  }

  /** Remaining under a limit granted on top of what was used. */
  lemma GrantArithmetic(limit: nat, used: nat, grant: nat, later: nat)
    requires used <= limit && grant <= limit
    ensures
      (SaturatingSub(SaturatingAdd(used, grant, limit), SaturatingAdd(used, later, limit))
         == SaturatingSub(grant, later))
      <==> (used + grant <= limit || grant <= later)
  {
  }

  /** A resume sets both limits on top of what is committed then; they stand until the next. */
  lemma LimitsAfterResume(c: Payload, es: seq<Event>, resume: Event, later: seq<Event>)
    requires c.Created? && Grants(c.goal, resume)
    requires NoCreated(es) && NoCreated(later) && NoGrant(c.goal, later)
    ensures NoCreated(es + [resume] + later)
    ensures var was, now := After(Started(c), es).goal, After(Started(c), es + [resume] + later).goal;
      && now.budget == Some(Plus(was.usedTokens, resume.payload.grant))
      && now.maxRuns == (if resume.payload.runs.Some?
                         then Some(SaturatingAdd(was.usedRuns, resume.payload.runs.value, MAX_U32)) else None)
  {
    var f := Started(c);
    FoldIsCappedTally(c, es);
    AfterSplit(f, es + [resume], later);
    assert (es + [resume])[..|es|] == es;
    var mid := After(f, es + [resume]);
    assert mid == Advance(After(f, es), resume);
    BudgetStays(mid, later);
  }

  lemma CommittedUsage(c: Payload, es: seq<Event>)
    requires c.Created? && NoCreated(es)
    ensures var s := After(Started(c), es).goal;
      s.usedTokens == Cap(TallyOf(c.goal, es).used) && s.usedRuns == Cap32(TallyOf(c.goal, es).runs)
  {
    FoldIsCappedTally(c, es);
  }

  lemma RemainingOf(f: Fold)
    ensures f.goal.budget.Some? ==>
      RemainingTokens(Settled(f)) == SaturatingSub(f.goal.budget.value, Settled(f).usedTokens)
    ensures RemainingRuns(Settled(f)) ==
      if f.goal.maxRuns.Some? then SaturatingSub(f.goal.maxRuns.value, Settled(f).usedRuns) else 0
  {
  }

  lemma CommittedWithinTotal(g: GoalId, es: seq<Event>, rest: seq<Event>)
    ensures TallyOf(g, es).used <= Total(g, es + rest)
  {
    CommittedOnlyGrows(g, es, rest);
    TallyIsTotal(g, es + rest);
  }

  lemma TokensLeft(c: Payload, es: seq<Event>, resume: Event, later: seq<Event>)
    requires c.Created? && Grants(c.goal, resume)
    requires NoCreated(es) && NoCreated(later) && NoGrant(c.goal, later)
    ensures var s := Settled(After(Started(c), es + [resume] + later));
      && s.budget == Some(Plus(Cap(TallyOf(c.goal, es).used), resume.payload.grant))
      && s.usedTokens == Cap(Total(c.goal, es + [resume] + later))
  {
    LimitsAfterResume(c, es, resume, later);
    SettledUsage(c, es + [resume] + later);
    CommittedUsage(c, es);
    hide After, TallyOf, Total, NoCreated, NoGrant, Plus, Cap;
  }

  /** What remains of a grant, in saturating arithmetic, is what remains of it exactly - or not. */
  lemma GrantLeft(committed: nat, total: nat, grant: U64)
    requires committed <= total
    ensures
      (SaturatingSub(Plus(Cap(committed), grant), Cap(total)) == SaturatingSub(grant, total - committed))
      <==> (Cap(committed) + grant <= MAX_U64 || grant <= total - committed)
  {
    CapOfSum(committed, total - committed);
    GrantArithmetic(MAX_U64, Cap(committed), grant, total - committed);
  }

  lemma SnapshotGrantLeft(s: Snapshot, committed: nat, total: nat, grant: U64)
    requires committed <= total
    requires s.budget == Some(Plus(Cap(committed), grant)) && s.usedTokens == Cap(total)
    ensures RemainingTokens(s) == SaturatingSub(grant, total - committed) <==>
      Cap(committed) + grant <= MAX_U64 || grant <= total - committed
  {
    GrantLeft(committed, total, grant);
    hide Plus, Cap, SaturatingSub;
  }

  /**
   * After a resume, and until the next, what remains is the grant less what was used
   * since the last closed account, floored at zero: exactly if the grant fitted
   * under 2^64 - 1 on top of the usage then, or is used up by now.
   */
  lemma ResumeGrantsTokens(before: seq<Event>, c: Event, es: seq<Event>, resume: Event, later: seq<Event>)
    requires c.payload.Created? && Grants(c.payload.goal, resume)
    requires NoCreated(es) && NoCreated(later) && NoGrant(c.payload.goal, later)
    ensures var g := c.payload.goal;
      var s := Projection(before + [c] + (es + [resume] + later));
      var committed := TallyOf(g, es).used;
      var total := Total(g, es + [resume] + later);
      && s.Some? && committed <= total
      && (RemainingTokens(s.value) == SaturatingSub(resume.payload.grant, total - committed) <==>
            Cap(committed) + resume.payload.grant <= MAX_U64 || resume.payload.grant <= total - committed)
  {
    var g := c.payload.goal;
    var grant := resume.payload.grant;
    var all := es + [resume] + later;
    hide *;
    assert all == es + ([resume] + later);
    LimitsAfterResume(c.payload, es, resume, later);
    OnlyLastGoalMatters(before, [], c, all);
    TokensLeft(c.payload, es, resume, later);
    CommittedWithinTotal(g, es, [resume] + later);
    SnapshotGrantLeft(Projection(before + [c] + all).value, TallyOf(g, es).used, Total(g, all), grant);
  }

  lemma CapOfSum(a: nat, b: nat)
    ensures Cap(a + b) == SaturatingAdd(Cap(a), b, MAX_U64)
  {
  }

  lemma AllClosedIsAllCommitted(g: GoalId, es: seq<Event>)
    requires ClosedBefore(g, es, |es|)
    ensures TallyOf(g, es).used == Total(g, es)
  {
    TallyAccounts(g, es);
  }

  /** With no run open at the resume, what remains is the grant less all usage since. */
  lemma ResumeWithNoOpenRun(before: seq<Event>, c: Event, es: seq<Event>, resume: Event, later: seq<Event>)
    requires c.payload.Created? && Grants(c.payload.goal, resume)
    requires NoCreated(es) && NoCreated(later) && NoGrant(c.payload.goal, later)
    requires ClosedBefore(c.payload.goal, es, |es|)
    ensures var g := c.payload.goal;
      var s := Projection(before + [c] + (es + [resume] + later));
      var was, now := Total(g, es), Total(g, es + [resume] + later);
      && s.Some? && was <= now
      && (RemainingTokens(s.value) == SaturatingSub(resume.payload.grant, now - was) <==>
            Cap(was) + resume.payload.grant <= MAX_U64 || resume.payload.grant <= now - was)
  {
    AllClosedIsAllCommitted(c.payload.goal, es);
    hide TallyOf, Total, ClosedBefore, NoCreated, NoGrant, Projection, RemainingTokens, Cap;
    ResumeGrantsTokens(before, c, es, resume, later);
  }

  lemma RunsLeft(c: Payload, es: seq<Event>, resume: Event, later: seq<Event>)
    requires c.Created? && Grants(c.goal, resume)
    requires NoCreated(es) && NoCreated(later) && NoGrant(c.goal, later)
    ensures var s := Settled(After(Started(c), es + [resume] + later));
      var was, now := |CountedRuns(c.goal, es)|, |CountedRuns(c.goal, es + [resume] + later)|;
      && was <= now
      && RemainingRuns(s) ==
           if resume.payload.runs.None? then 0
           else SaturatingSub(SaturatingAdd(Cap32(was), resume.payload.runs.value, MAX_U32),
                              SaturatingAdd(Cap32(was), now - was, MAX_U32))
  {
    var runs := resume.payload.runs;
    hide *;
    var all := es + [resume] + later;
    LimitsAfterResume(c, es, resume, later);
    SettledRuns(c, all);
    CommittedUsage(c, es);
    TallyRuns(c.goal, es);
    TallyRuns(c.goal, all);
    assert all == es + ([resume] + later);
    CommittedOnlyGrows(c.goal, es, [resume] + later);
    RemainingOf(After(Started(c), all));
    var was, now := |CountedRuns(c.goal, es)|, |CountedRuns(c.goal, all)|;
    RunsAddUp(was, now);
    var s := Settled(After(Started(c), all));
    assert After(Started(c), es).goal.usedRuns == Cap32(was);
    assert s.usedRuns == Cap32(now);
    assert s.usedRuns == SaturatingAdd(Cap32(was), now - was, MAX_U32);
    if runs.Some? {
      assert After(Started(c), all).goal.maxRuns == Some(SaturatingAdd(Cap32(was), runs.value, MAX_U32));
    }
  }

  lemma RunsAddUp(was: nat, now: nat)
    requires was <= now
    ensures Cap32(now) == SaturatingAdd(Cap32(was), now - was, MAX_U32)
  {
  }

  /** The same for runs, of which none is ever provisional. */
  lemma ResumeGrantsRuns(before: seq<Event>, c: Event, es: seq<Event>, resume: Event, later: seq<Event>)
    requires c.payload.Created? && Grants(c.payload.goal, resume)
    requires NoCreated(es) && NoCreated(later) && NoGrant(c.payload.goal, later)
    ensures var g := c.payload.goal;
      var s := Projection(before + [c] + (es + [resume] + later));
      var was, now := |CountedRuns(g, es)|, |CountedRuns(g, es + [resume] + later)|;
      && s.Some? && was <= now
      && (resume.payload.runs.None? ==> RemainingRuns(s.value) == 0)
      && (resume.payload.runs.Some? ==>
            (RemainingRuns(s.value) == SaturatingSub(resume.payload.runs.value, now - was) <==>
               Cap32(was) + resume.payload.runs.value <= MAX_U32 || resume.payload.runs.value <= now - was))
  {
    var runs := resume.payload.runs;
    hide *;
    var g := c.payload.goal;
    LimitsAfterResume(c.payload, es, resume, later);
    OnlyLastGoalMatters(before, [], c, es + [resume] + later);
    RunsLeft(c.payload, es, resume, later);
    if runs.Some? {
      var was := |CountedRuns(g, es)|;
      GrantArithmetic(MAX_U32, Cap32(was), runs.value, |CountedRuns(g, es + [resume] + later)| - was);
    }
  }

  /**
   * Until the first grant, what remains is what the goal was created with less all it
   * has used, floored at zero; without a budget nothing remains. Here no sum saturates.
   */
  lemma RemainsBeforeGrants(before: seq<Event>, c: Event, es: seq<Event>)
    requires c.payload.Created? && NoCreated(es) && NoGrant(c.payload.goal, es)
    ensures var s := Projection(before + [c] + es); var g := c.payload.goal;
      && s.Some?
      && RemainingTokens(s.value) ==
           (if c.payload.budget.Some? then SaturatingSub(c.payload.budget.value, Total(g, es)) else 0)
      && RemainingRuns(s.value) ==
           (if c.payload.maxRuns.Some? then SaturatingSub(c.payload.maxRuns.value, |CountedRuns(g, es)|) else 0)
  {
    OnlyLastGoalMatters(before, [], c, es);
    BudgetStays(Started(c.payload), es);
    SettledUsage(c.payload, es);
    SettledRuns(c.payload, es);
    hide After, Total, CountedRuns, NoCreated, NoGrant;
  }

  // --------------------------------------------------------------- steering, criteria

  /** Every input that steered the goal, in order. */
  function Inputs(g: GoalId, es: seq<Event>): seq<string> {
    if es == [] then []
    else
      var e := es[|es| - 1].payload;
      Inputs(g, es[..|es| - 1]) + (if e.Steered? && e.goal == g then [e.input] else [])
  }

  function LastOf<T>(q: seq<T>, n: nat): seq<T> {
    if |q| <= n then q else q[|q| - n..]
  }

  lemma AdvanceSteers(f: Fold, e: Event)
    requires !e.payload.Created?
    ensures var t := Advance(f, e).goal;
      && t.goal == f.goal.goal
      && t.steering == if e.payload.Steered? && e.payload.goal == f.goal.goal
                       then Keep(f.goal.steering + [e.payload.input]) else f.goal.steering
  {
  }

  lemma KeepIsLastOf(q: seq<string>, x: string)
    ensures Keep(LastOf(q, STEERING_KEPT) + [x]) == LastOf(q + [x], STEERING_KEPT)
  {
  }

  lemma {:induction false} SteeringAfter(c: Payload, es: seq<Event>)
    requires c.Created? && NoCreated(es)
    ensures var s := After(Started(c), es).goal;
      s.goal == c.goal && s.steering == LastOf(Inputs(c.goal, es), STEERING_KEPT)
  {
    if es != [] {
      var init, e := es[..|es| - 1], es[|es| - 1];
      SteeringAfter(c, init);
      AdvanceSteers(After(Started(c), init), e);
      hide Advance;
      var was := Inputs(c.goal, init);
      if e.payload.Steered? && e.payload.goal == c.goal {
        KeepIsLastOf(was, e.payload.input);
      } else {
        assert was + [] == was;
      }
      hide Keep, LastOf;
    }
  }

  /** The snapshot keeps the last sixteen inputs of this goal. */
  lemma SteeringIsLastSixteen(before: seq<Event>, c: Event, es: seq<Event>)
    requires c.payload.Created? && NoCreated(es)
    ensures var s := Projection(before + [c] + es);
      s.Some? && s.value.steering == LastOf(Inputs(c.payload.goal, es), STEERING_KEPT)
  {
    OnlyLastGoalMatters(before, [], c, es);
    SteeringAfter(c.payload, es);
  }

  predicate FirstOfName(q: seq<Criterion>, k: nat) {
    k < |q| && forall i | 0 <= i < k :: q[i].id != q[k].id
  }

  ghost predicate MetLater(g: GoalId, es: seq<Event>, id: string) {
    exists i :: 0 <= i < |es| && es[i].payload == CriterionSatisfied(g, id)
  }

  lemma {:induction false} MarkFirstMarks(q: seq<Criterion>, id: string, k: nat)
    requires k < |q|
    ensures MarkFirst(q, id)[k] ==
      if q[k].id == id && FirstOfName(q, k) then q[k].(satisfied := true) else q[k]
  {
    if q[0].id != id && k > 0 {
      MarkFirstMarks(q[1..], id, k - 1);
      if q[k].id == id {
        if FirstOfName(q[1..], k - 1) {
          forall i | 0 <= i < k ensures q[i].id != q[k].id { if i > 0 { assert q[1..][i - 1].id != q[1..][k - 1].id; } }
        } else {
          var i :| 0 <= i < k - 1 && q[1..][i].id == q[1..][k - 1].id;
          assert q[i + 1].id == q[k].id;
        }
      }
    }
  }

  /** Marking keeps every name; a criterion is marked if it has the name first, in `named` as in `q`. */
  lemma MarkKeepsNames(named: seq<Criterion>, q: seq<Criterion>, id: string, k: nat)
    requires k < |q| == |named| && forall i | 0 <= i < |q| :: q[i].id == named[i].id
    ensures var r := MarkFirst(q, id);
      && (forall i | 0 <= i < |q| :: r[i].id == named[i].id)
      && r[k] == if named[k].id == id && FirstOfName(named, k) then q[k].(satisfied := true) else q[k]
  {
    assert FirstOfName(q, k) == FirstOfName(named, k);
    forall i | 0 <= i < |q| ensures MarkFirst(q, id)[i].id == named[i].id { MarkFirstMarks(q, id, i); }
    MarkFirstMarks(q, id, k);
    hide MarkFirst, FirstOfName;
  }

  lemma AdvanceCriteria(f: Fold, e: Event)
    requires !e.payload.Created?
    ensures var t := Advance(f, e).goal;
      && t.goal == f.goal.goal
      && t.criteria == if e.payload.CriterionSatisfied? && e.payload.goal == f.goal.goal
                       then MarkFirst(f.goal.criteria, e.payload.criterion) else f.goal.criteria
  {
  }

  /** Names are kept; the `k`-th is satisfied as created, or, if the first of its name, by a later event. */
  ghost predicate CriteriaOf(c: Payload, q: seq<Criterion>, es: seq<Event>, k: nat)
    requires c.Created? && k < |c.criteria|
  {
    && |q| == |c.criteria|
    && (forall i | 0 <= i < |q| :: q[i].id == c.criteria[i].id)
    && q[k] == c.criteria[k].(satisfied :=
         c.criteria[k].satisfied || (FirstOfName(c.criteria, k) && MetLater(c.goal, es, c.criteria[k].id)))
  }

  lemma CriteriaStep(c: Payload, q: seq<Criterion>, es: seq<Event>, e: Event, k: nat)
    requires c.Created? && k < |c.criteria| && CriteriaOf(c, q, es, k)
    ensures CriteriaOf(c,
      if e.payload.CriterionSatisfied? && e.payload.goal == c.goal then MarkFirst(q, e.payload.criterion) else q,
      es + [e], k)
  {
    MetGrows(c.goal, es, e, c.criteria[k].id);
    if e.payload.CriterionSatisfied? && e.payload.goal == c.goal {
      MarkKeepsNames(c.criteria, q, e.payload.criterion, k);
    }
    hide MetLater, MarkFirst, FirstOfName;
  }

  lemma {:induction false} CriteriaAfter(c: Payload, es: seq<Event>, k: nat)
    requires c.Created? && NoCreated(es) && k < |c.criteria|
    ensures var s := After(Started(c), es).goal; s.goal == c.goal && CriteriaOf(c, s.criteria, es, k)
  {
    if es == [] {
      assert !MetLater(c.goal, es, c.criteria[k].id);
    } else {
      hide CriteriaOf, Advance;
      var init, e := es[..|es| - 1], es[|es| - 1];
      CriteriaAfter(c, init, k);
      AdvanceCriteria(After(Started(c), init), e);
      CriteriaStep(c, After(Started(c), init).goal.criteria, init, e, k);
      assert es == init + [e];
    }
  }

  lemma MetGrows(g: GoalId, es: seq<Event>, e: Event, id: string)
    ensures MetLater(g, es + [e], id) <==> MetLater(g, es, id) || e.payload == CriterionSatisfied(g, id)
  {
    var t := es + [e];
    assert t[|es|] == e;
    if i :| 0 <= i < |es| && es[i].payload == CriterionSatisfied(g, id) {
      assert t[i].payload == CriterionSatisfied(g, id);
    }
  }

  /** A criterion is satisfied exactly if it was created so, or was met later and is the first of its name. */
  lemma CriterionSatisfiedIff(before: seq<Event>, c: Event, es: seq<Event>, k: nat)
    requires c.payload.Created? && NoCreated(es) && k < |c.payload.criteria|
    ensures var s := Projection(before + [c] + es); var q := c.payload.criteria;
      && s.Some? && |s.value.criteria| == |q|
      && (s.value.criteria[k].satisfied <==>
            q[k].satisfied || (FirstOfName(q, k) && MetLater(c.payload.goal, es, q[k].id)))
  {
    OnlyLastGoalMatters(before, [], c, es);
    CriteriaAfter(c.payload, es, k);
  }

  // ------------------------------------------------- status, pause reason, current run

  /** The status that an event gives the goal, if it gives one. */
  function StatusGiven(g: GoalId, e: Event): Option<Status> {
    if e.payload == PausedGoal(g) then Some(Paused)
    else if e.payload.Resumed? && e.payload.goal == g then Some(Active)
    else if e.payload == AchievedGoal(g) then Some(Achieved)
    else if e.payload.AbandonedGoal? && e.payload.goal == g then Some(Abandoned)
    else None
  }

  /** The event stops the run whose account is open: it is cancelled, or it failed. */
  ghost predicate StopsOpenRun(g: GoalId, es: seq<Event>, e: Event) {
    && (e.payload.RunCancelled? || e.payload.RunFailed?)
    && exists o: nat :: o < |es| && OpenAt(g, es, o) && es[o].run == e.run
  }

  /** What event `i` makes of the pause reason, if it sets or clears it. */
  ghost function ReasonGiven(g: GoalId, es: seq<Event>, i: nat): Option<Option<string>>
    requires i < |es|
  {
    var p := es[i].payload;
    if (p.Resumed? && p.goal == g) || p == AchievedGoal(g) then Some(None)
    else if p.AbandonedGoal? && p.goal == g then Some(Some(p.reason))
    else if p.Diagnostic? && p.code == "goal.paused" && p.named == Some(g) then Some(p.why)
    else if StopsOpenRun(g, es[..i], es[i]) then Some(Some("run_stopped"))
    else None
  }

  lemma AdvanceReason(f: Fold, g: GoalId, es: seq<Event>, e: Event)
    requires Caps(f, g, es) && !e.payload.Created?
    ensures var given := ReasonGiven(g, es + [e], |es|);
      Advance(f, e).goal.pauseReason == if given.Some? then given.value else f.goal.pauseReason
  {
    assert (es + [e])[..|es|] == es;
    StopsOpenRunIff(f, g, es, e);
    hide StopsOpenRun, Caps, Plus, MarkFirst, Keep, UsageTokens;
  }

  lemma StopsOpenRunIff(f: Fold, g: GoalId, es: seq<Event>, e: Event)
    requires Caps(f, g, es)
    ensures f.goal.goal == g
    ensures StopsOpenRun(g, es, e) <==>
      (e.payload.RunCancelled? || e.payload.RunFailed?) && f.goal.currentRun == Some(e.run)
  {
    var t := TallyOf(g, es);
    forall o: nat | o < |es| ensures OpenAt(g, es, o) <==> t.open == Some(o) { TallyOpenIff(g, es, o); }
    hide OpenAt, TallyOf, StatusAt, CapsUsage, Plus;
    if t.open.Some? { assert OpenAt(g, es, t.open.value); }
  }

  /** The last that is given counts; `initial` if none is. */
  ghost predicate LastCounts<T>(given: seq<Option<T>>, initial: T, value: T) {
    && ((forall i | 0 <= i < |given| :: given[i].None?) ==> value == initial)
    && (forall i | 0 <= i < |given| && given[i].Some? && (forall j | i < j < |given| :: given[j].None?) ::
          value == given[i].value)
  }

  lemma LastCountsSnoc<T>(given: seq<Option<T>>, x: Option<T>, initial: T, value: T)
    requires LastCounts(given, initial, value)
    ensures LastCounts(given + [x], initial, if x.Some? then x.value else value)
  {
    var longer := given + [x];
    assert longer[|given|] == x;
    assert forall i | 0 <= i < |given| :: longer[i] == given[i];
  }

  ghost function Reasons(g: GoalId, es: seq<Event>): seq<Option<Option<string>>> {
    seq(|es|, i requires 0 <= i < |es| => ReasonGiven(g, es, i))
  }

  function Statuses(g: GoalId, es: seq<Event>): seq<Option<Status>> {
    seq(|es|, i requires 0 <= i < |es| => StatusGiven(g, es[i]))
  }

  /** The last event that sets or clears the reason decides it; so for the status. */
  ghost predicate DecidedBy(c: Payload, es: seq<Event>, s: Snapshot)
    requires c.Created?
  {
    LastCounts(Reasons(c.goal, es), None, s.pauseReason) && LastCounts(Statuses(c.goal, es), Active, s.status)
  }

  lemma AdvanceStatus(f: Fold, e: Event)
    requires !e.payload.Created?
    ensures var given := StatusGiven(f.goal.goal, e);
      Advance(f, e).goal.status == if given.Some? then given.value else f.goal.status
  {
    hide Plus, MarkFirst, Keep, UsageTokens;
  }

  lemma PrefixReason(g: GoalId, es: seq<Event>, e: Event, i: nat)
    requires i < |es|
    ensures ReasonGiven(g, es + [e], i) == ReasonGiven(g, es, i)
  {
    assert (es + [e])[..i] == es[..i];
    hide StopsOpenRun;
  }

  lemma DecidedStep(c: Payload, es: seq<Event>, e: Event, s: Snapshot, t: Snapshot)
    requires c.Created? && DecidedBy(c, es, s)
    requires var given := ReasonGiven(c.goal, es + [e], |es|);
      t.pauseReason == if given.Some? then given.value else s.pauseReason
    requires var given := StatusGiven(c.goal, e); t.status == if given.Some? then given.value else s.status
    ensures DecidedBy(c, es + [e], t)
  {
    var es' := es + [e];
    forall i: nat | i < |es| ensures ReasonGiven(c.goal, es', i) == ReasonGiven(c.goal, es, i) {
      PrefixReason(c.goal, es, e, i);
    }
    hide ReasonGiven, StatusGiven, LastCounts;
    assert Reasons(c.goal, es') == Reasons(c.goal, es) + [ReasonGiven(c.goal, es', |es|)];
    assert Statuses(c.goal, es') == Statuses(c.goal, es) + [StatusGiven(c.goal, e)];
    LastCountsSnoc(Reasons(c.goal, es), ReasonGiven(c.goal, es', |es|), None, s.pauseReason);
    LastCountsSnoc(Statuses(c.goal, es), StatusGiven(c.goal, e), Active, s.status);
  }

  lemma {:induction false} DecidedAfter(c: Payload, es: seq<Event>)
    requires c.Created? && NoCreated(es)
    ensures DecidedBy(c, es, After(Started(c), es).goal)
  {
    if es != [] {
      var init, e := es[..|es| - 1], es[|es| - 1];
      hide DecidedBy, ReasonGiven, StatusGiven, Advance;
      var f := After(Started(c), init);
      DecidedAfter(c, init);
      AdvanceDecides(c, init, e);
      assert es == init + [e];
      DecidedStep(c, init, e, f.goal, Advance(f, e).goal);
    }
  }

  lemma AdvanceDecides(c: Payload, es: seq<Event>, e: Event)
    requires c.Created? && NoCreated(es) && !e.payload.Created?
    ensures var f := After(Started(c), es); var t := Advance(f, e).goal;
      && (var given := ReasonGiven(c.goal, es + [e], |es|);
          t.pauseReason == if given.Some? then given.value else f.goal.pauseReason)
      && (var given := StatusGiven(c.goal, e);
          t.status == if given.Some? then given.value else f.goal.status)
  {
    var f := After(Started(c), es);
    FoldIsCappedTally(c, es);
    hide ReasonGiven, StatusGiven, Advance, After;
    AdvanceReason(f, c.goal, es, e);
    AdvanceStatus(f, e);
  }

  lemma {:induction false} NameStays(f: Fold, es: seq<Event>)
    requires NoCreated(es)
    ensures After(f, es).goal.goal == f.goal.goal && After(f, es).goal.title == f.goal.title
  {
    if es != [] {
      NameStays(f, es[..|es| - 1]);
      hide MarkFirst, Plus, Keep;
    }
  }

  /**
   * The snapshot is named as created; its status and pause reason are those the last
   * event gave that gives one; and its current run is the one whose account is open.
   */
  lemma StateIsDecidedByLast(before: seq<Event>, c: Event, es: seq<Event>)
    requires c.payload.Created? && NoCreated(es)
    ensures var s := Projection(before + [c] + es);
      && s.Some? && s.value.goal == c.payload.goal && s.value.title == c.payload.title
      && DecidedBy(c.payload, es, s.value)
      && (forall r :: s.value.currentRun == Some(r) <==>
            exists o: nat :: o < |es| && OpenAt(c.payload.goal, es, o) && es[o].run == r)
  {
    OnlyLastGoalMatters(before, [], c, es);
    DecidedAfter(c.payload, es);
    NameStays(Started(c.payload), es);
    FoldIsCappedTally(c.payload, es);
    var g, t := c.payload.goal, TallyOf(c.payload.goal, es);
    forall o: nat | o < |es| ensures OpenAt(g, es, o) <==> t.open == Some(o) { TallyOpenIff(g, es, o); }
    hide OpenAt, TallyOf, StatusAt, CapsUsage, ReasonGiven, StatusGiven, After;
    if t.open.Some? { assert OpenAt(g, es, t.open.value); }
  }
}
