/**
 * Cancellation and fail-closed across the interruption: a cancel that lands
 * while Core is still deciding reaches the run Core accepts, once; a fail-closed
 * that lands then keeps the prompt from ever being bound.
 */
module AcpCancel {
  import opened Common
  import opened AcpTypes
  import opened AcpHost
  import opened AcpCoupling
  import opened AcpOrder
  import opened AcpPrompts

  /** How often RunCancel was attempted for `run`. */
  ghost function CancelsOf(attempts: seq<Attempt>, run: RunId): nat {
    if attempts == [] then 0
    else
      var last := attempts[|attempts| - 1];
      CancelsOf(attempts[..|attempts| - 1], run) + (if last.RunCancel? && last.run == run then 1 else 0)
  }

  lemma {:induction false} CancelsAppend(a: seq<Attempt>, b: seq<Attempt>, run: RunId)
    ensures CancelsOf(a + b, run) == CancelsOf(a, run) + CancelsOf(b, run)
  {
    if b == [] {
      assert a + b == a;
    } else {
      assert (a + b)[..|a + b| - 1] == a + b[..|b| - 1];
      CancelsAppend(a, b[..|b| - 1], run);
    }
  }

  lemma CancelsOne(a: Attempt, run: RunId)
    ensures CancelsOf([a], run) == if a.RunCancel? && a.run == run then 1 else 0
  {
    assert [a][..0] == [] && CancelsOf([a][..0], run) == 0;
  }

  lemma CancelsSnoc(attempts: seq<Attempt>, a: Attempt, run: RunId)
    ensures CancelsOf(attempts + [a], run) == CancelsOf(attempts, run) + (if a.RunCancel? && a.run == run then 1 else 0)
  {
    CancelsAppend(attempts, [a], run);
    CancelsOne(a, run);
  }

  // ------------------------------------------------------------------ bound runs

  /** A session cancel attempts one RunCancel, for the run its session is bound to. */
  lemma SessionCancelReaches(s: Host, sid: SessionId, order: seq<JsonRpcId>)
    requires Coupled(s)
    ensures CancelSession(s, sid, order).log.attempts == s.log.attempts
      + (if sid in s.occupancy && s.occupancy[sid].runId.Some?
         then [RunCancel(sid, s.occupancy[sid].runId.value)] else [])
  {
  }

  /** So does a request cancel for the prompt the run answers, whatever its id collides with. */
  lemma RequestCancelReaches(s: Host, run: RunId)
    requires Coupled(s) && run in s.runSessions
    ensures var sid := s.runSessions[run];
      sid in s.occupancy &&
      CancelRequest(s, s.occupancy[sid].requestId).log.attempts == s.log.attempts + [RunCancel(sid, run)]
  {
    var sid := s.runSessions[run];
    assert SlotLinked(sid, s.occupancy[sid], s.runSessions, s.pendingPrompts);
    assert s.initialized;
  }

  /**
   * A request cancel for a prompt still in flight is remembered exactly when its
   * id is not also the id of a permission request the host is waiting on.
   */
  lemma EarlyRequestCancelLandsIff(s: Host, f: Flight)
    requires Coupled(s) && s.inFlight == Some(f) && f.PromptFlight? && f.session in s.occupancy
    requires !s.occupancy[f.session].earlyRequestCancel
    ensures
      CancelRequest(s, f.requestId).occupancy[f.session].earlyRequestCancel <==> f.requestId !in s.pendingPermissions
  {
    if f.requestId !in s.pendingPermissions {
      OnlySlotOf(s, f);
    }
  }

  lemma OnlySlotOf(s: Host, f: Flight)
    requires Coupled(s) && s.inFlight == Some(f) && f.PromptFlight? && f.session in s.occupancy
    ensures FindSlot(s.occupancy, f.requestId) == Some(f.session)
  {
    var sid := FindSlot(s.occupancy, f.requestId);
    assert s.occupancy[f.session].requestId == f.requestId;
    BoundSlotHasPrompt(s, sid.value);
  }

  lemma BoundSlotHasPrompt(s: Host, sid: SessionId)
    requires Linked(s) && sid in s.occupancy
    ensures s.occupancy[sid].runId.Some? ==> s.occupancy[sid].requestId in s.pendingPrompts
  {
    if s.occupancy[sid].runId.Some? {
      assert SlotLinked(sid, s.occupancy[sid], s.runSessions, s.pendingPrompts);
    }
  }

  lemma RunsNeedSlots(s: Host)
    requires Linked(s) && s.occupancy == map[]
    ensures s.runSessions == map[]
  {
    assert forall r :: r !in s.runSessions;
  }

  /** The collision is real: a client that numbers its prompt like the host's permission loses the cancel. */
  /** One prompt, alone, whose dispatch is outstanding. */
  ghost predicate FirstInFlight(s: Host, one: SessionId) {
    && s.initialized && s.inFlight == Some(PromptFlight(one, TextId("p"), 0))
    && s.occupancy == map[one := Slot(TextId("p"), None, false, false)]
    && s.runSessions == map[] && s.pendingPrompts == map[] && s.pendingPermissions == map[]
    && s.heldEvents == [] && s.log.accepted == {} && s.nextRequestId == 1 && s.nextChannel == 1
  }

  /** That prompt's run is bound. */
  ghost predicate FirstBound(s: Host, one: SessionId, run: RunId) {
    && s.initialized && s.inFlight.None? && s.occupancy.Keys == {one}
    && s.runSessions == map[run := one] && s.pendingPrompts.Keys == {TextId("p")}
    && s.nextRequestId == 1 && s.nextChannel == 1
  }

  ghost predicate FirstAsks(s: Host, one: SessionId) {
    && s.initialized && s.inFlight.None? && s.occupancy.Keys == {one}
    && s.pendingPrompts.Keys == {TextId("p")} && NumberId(1) in s.pendingPermissions && s.nextChannel == 1
  }

  lemma FirstPromptBegins(one: SessionId)
    ensures Allowed(INITIAL_HOST, Initialize)
    ensures var s := Next(INITIAL_HOST, Initialize); var prompt := Prompt(TextId("p"), one, Dispatched);
      Allowed(s, prompt) && FirstInFlight(Next(s, prompt), one)
  {
  }

  lemma FirstPromptBinds(s: Host, one: SessionId, run: RunId)
    requires FirstInFlight(s, one)
    ensures var reply := Step.Reply(Accepted(run), []);
      Allowed(s, reply) && FirstBound(Next(s, reply), one, run)
  {
    var f := s.inFlight.value;
    var u := Bind(NoteAccepted(s.(inFlight := None), run), f, run);
    assert RouteAll(u.(heldEvents := []), []) == u.(heldEvents := []);
    assert FlushHeldEvents(u) == u.(heldEvents := []);
    assert CascadeIds(AfterFlush(s, f, run), one) == {};
    hide FlushHeldEvents;
  }

  lemma FirstRunAsks(s: Host, one: SessionId, run: RunId, tool: ToolCallId)
    requires FirstBound(s, one, run)
    ensures var pump := Pump([Envelope(RunStream(run), ToolApprovalRequired(run, tool, ""))]);
      Allowed(s, pump) && FirstAsks(Next(s, pump), one)
  {
    var e := Envelope(RunStream(run), ToolApprovalRequired(run, tool, ""));
    PumpOne(s, e);
    assert ResolveClientSession(s.runSessions, e) == Some(one);
    hide PumpEvents;
  }

  lemma SecondPromptCollides(s: Host, one: SessionId, other: SessionId)
    requires FirstAsks(s, one) && other != one
    ensures var prompt := Prompt(NumberId(1), other, Dispatched);
      && Allowed(s, prompt)
      && var t := Next(s, prompt);
         && t.inFlight == Some(PromptFlight(other, NumberId(1), 1)) && other in t.occupancy
         && NumberId(1) in t.pendingPermissions
  {
  }

  /**
   * A collision can be reached: the host numbers a permission request 1, and the
   * client sends a prompt under that same id.
   */
  lemma CollisionIsReachable(one: SessionId, other: SessionId, run: RunId, tool: ToolCallId)
    requires one != other
    ensures var steps := CollidingSteps(one, other, run, tool);
      && AllowedRun(INITIAL_HOST, steps)
      && var s := Run(INITIAL_HOST, steps);
         && s.inFlight == Some(PromptFlight(other, NumberId(1), 1)) && other in s.occupancy
         && NumberId(1) in s.pendingPermissions
  {
    hide Next, Allowed, AllowedRun, Run, FirstInFlight, FirstBound, FirstAsks;
    var steps := CollidingSteps(one, other, run, tool);
    FirstPromptBegins(one);
    var s1 := Next(INITIAL_HOST, Initialize);
    var s2 := Next(s1, steps[1]);
    FirstPromptBinds(s2, one, run);
    var s3 := Next(s2, steps[2]);
    FirstRunAsks(s3, one, run, tool);
    SecondPromptCollides(Next(s3, steps[3]), one, other);
    RunFive(INITIAL_HOST, steps[0], steps[1], steps[2], steps[3], steps[4]);
    assert steps == [steps[0], steps[1], steps[2], steps[3], steps[4]];
  }

  function CollidingSteps(one: SessionId, other: SessionId, run: RunId, tool: ToolCallId): (steps: seq<Step>)
    ensures |steps| == 5
  {
    [Initialize, Prompt(TextId("p"), one, Dispatched), Step.Reply(Accepted(run), []),
      Pump([Envelope(RunStream(run), ToolApprovalRequired(run, tool, ""))]), Prompt(NumberId(1), other, Dispatched)]
  }

  lemma PumpOne(s: Host, e: Envelope)
    ensures PumpEvents(s, [e]) == Receive(s, e)
  {
    assert [e][1..] == [];
    assert PumpEvents(Receive(s, e), []) == Receive(s, e);
  }

  lemma RunFive(s: Host, a: Step, b: Step, c: Step, d: Step, e: Step)
    requires Allowed(s, a) && Allowed(Next(s, a), b) && Allowed(Next(Next(s, a), b), c)
    requires Allowed(Next(Next(Next(s, a), b), c), d)
    requires Allowed(Next(Next(Next(Next(s, a), b), c), d), e)
    ensures AllowedRun(s, [a, b, c, d, e])
    ensures Run(s, [a, b, c, d, e]) == Next(Next(Next(Next(Next(s, a), b), c), d), e)
  {
    hide Next, Allowed;
    var q := [a, b, c, d, e];
    assert q[1..] == [b, c, d, e] && q[1..][1..] == [c, d, e] && q[1..][1..][1..] == [d, e];
    assert q[1..][1..][1..][1..] == [e] && q[1..][1..][1..][1..][1..] == [];
    var s4 := Next(Next(Next(Next(s, a), b), c), d);
    assert AllowedRun(Next(s4, e), []) && Run(Next(s4, e), []) == Next(s4, e);
    assert AllowedRun(s4, [e]) && Run(s4, [e]) == Next(s4, e);
    var s3 := Next(Next(Next(s, a), b), c);
    assert AllowedRun(s3, [d, e]) && Run(s3, [d, e]) == Next(s4, e);
    var s2 := Next(Next(s, a), b);
    assert AllowedRun(s2, [c, d, e]) && Run(s2, [c, d, e]) == Next(s4, e);
    assert AllowedRun(Next(s, a), [b, c, d, e]) && Run(Next(s, a), [b, c, d, e]) == Next(s4, e);
  }

  lemma CollidingCancelIsLost(s: Host, f: Flight, run: RunId)
    requires Coupled(s) && s.inFlight == Some(f) && f.PromptFlight? && f.session in s.occupancy
    requires f.requestId in s.pendingPermissions
    ensures CancelRequest(s, f.requestId).occupancy == s.occupancy
    ensures CancelsOf(CancelRequest(s, f.requestId).log.attempts, run) == CancelsOf(s.log.attempts, run)
  {
    CancelsSnoc(s.log.attempts, ApproveAttempt(f.requestId, s.pendingPermissions[f.requestId], CancelTool), run);
  }

  // ---------------------------------------------------- while the dispatch is out

  ghost predicate SomeFail(steps: seq<Step>) {
    exists i :: 0 <= i < |steps| && steps[i].FailAll?
  }

  /** Some step asks to cancel `f`, by session or by request id. */
  ghost predicate SomeAsk(steps: seq<Step>, f: Flight)
    requires f.PromptFlight?
  {
    exists i :: 0 <= i < |steps| && AsksFor(steps[i], f)
  }

  predicate AsksFor(step: Step, f: Flight)
    requires f.PromptFlight?
  {
    (step.SessionCancel? && step.session == f.session) || (step.RequestCancel? && step.id == f.requestId)
  }

  ghost predicate Flagged(s: Host, sid: SessionId) {
    sid in s.occupancy && (s.occupancy[sid].earlySessionCancel || s.occupancy[sid].earlyRequestCancel)
  }

  /** What stays put from one step of the interruption to the next. */
  ghost predicate Waiting(s: Host, f: Flight, run: RunId) {
    Awaited(s, f, run) && f.requestId !in s.pendingPermissions
  }

  /** The dispatch of prompt `f` is outstanding, and Core may still answer with `run`. */
  ghost predicate Awaited(s: Host, f: Flight, run: RunId) {
    && f.PromptFlight?
    && s.inFlight == Some(f)
    && Coupled(s)
    && run !in s.log.accepted
  }

  /** One urgent or drain step, seen from the waiting prompt and the run Core may give it. */
  lemma WaitingStep(s: Host, step: Step, f: Flight, run: RunId)
    requires Waiting(s, f, run) && Allowed(s, step) && !step.Reply?
    ensures var t := Next(s, step);
      && Waiting(t, f, run)
      && CancelsOf(t.log.attempts, run) == CancelsOf(s.log.attempts, run)
      && (step.FailAll? ==> f.session !in t.occupancy)
      && (!step.FailAll? ==>
            && t.heldEvents == s.heldEvents
            && (f.session in t.occupancy <==> f.session in s.occupancy)
            && (f.session in s.occupancy ==> (Flagged(t, f.session) <==> Flagged(s, f.session) || AsksFor(step, f))))
  {
    StepKeepsCoupled(s, step);
    if step.SessionCancel? {
      WaitingSessionCancel(s, step.session, step.order, f, run);
    } else if step.RequestCancel? {
      WaitingRequestCancel(s, step.id, f, run);
    } else if step.FailAll? {
      WaitingFail(s, step.orders, f, run);
    }
  }

  lemma WaitingSessionCancel(s: Host, sid: SessionId, order: seq<JsonRpcId>, f: Flight, run: RunId)
    requires Waiting(s, f, run)
    ensures var t := CancelSession(s, sid, order);
      && t.inFlight == s.inFlight && t.log.accepted == s.log.accepted && f.requestId !in t.pendingPermissions
      && CancelsOf(t.log.attempts, run) == CancelsOf(s.log.attempts, run)
      && t.heldEvents == s.heldEvents
      && (f.session in t.occupancy <==> f.session in s.occupancy)
      && (f.session in s.occupancy ==> (Flagged(t, f.session) <==> Flagged(s, f.session) || sid == f.session))
  {
    SessionCancelReaches(s, sid, order);
    if sid in s.occupancy && s.occupancy[sid].runId.Some? {
      var other := s.occupancy[sid].runId.value;
      assert SlotLinked(sid, s.occupancy[sid], s.runSessions, s.pendingPrompts);
      assert other != run;
      CancelsSnoc(s.log.attempts, RunCancel(sid, other), run);
    }
  }

  lemma WaitingRequestCancel(s: Host, id: JsonRpcId, f: Flight, run: RunId)
    requires Waiting(s, f, run)
    ensures var t := CancelRequest(s, id);
      && t.inFlight == s.inFlight && t.log.accepted == s.log.accepted && f.requestId !in t.pendingPermissions
      && CancelsOf(t.log.attempts, run) == CancelsOf(s.log.attempts, run)
      && t.heldEvents == s.heldEvents
      && (f.session in t.occupancy <==> f.session in s.occupancy)
      && (f.session in s.occupancy ==> (Flagged(t, f.session) <==> Flagged(s, f.session) || id == f.requestId))
  {
    CancelRequestCases(s, id);
    hide CancelRequest, CancelsOf, EarlyFlagsAreEarly;
    if id in s.pendingPrompts {
      var p := s.pendingPrompts[id];
      assert PromptLinked(id, p, s.occupancy);
      assert SlotLinked(p.session, s.occupancy[p.session], s.runSessions, s.pendingPrompts);
      assert p.run != run;
      CancelsSnoc(s.log.attempts, RunCancel(p.session, p.run), run);
    } else if id in s.pendingPermissions {
      CancelsSnoc(s.log.attempts, ApproveAttempt(id, s.pendingPermissions[id], CancelTool), run);
    } else if id == f.requestId && f.session in s.occupancy {
      OnlySlotOf(s, f);
    }
  }

  lemma {:induction false} RunCancelsCount(runs: map<RunId, SessionId>, order: seq<RunId>, run: RunId)
    requires Distinct(order) && forall r | r in order :: r in runs
    ensures CancelsOf(RunCancels(runs, order), run) == if run in order then 1 else 0
  {
    if order != [] {
      var n := |order| - 1;
      RunCancelsCount(runs, order[..n], run);
      assert RunCancels(runs, order)[..n] == RunCancels(runs, order[..n]);
      assert order == order[..n] + [order[n]];
    }
  }

  lemma {:induction false} DenialsCancelNothing(
      pending: map<JsonRpcId, PendingPermission>, order: seq<JsonRpcId>, run: RunId)
    requires forall id | id in order :: id in pending
    ensures CancelsOf(Denials(pending, order), run) == 0
  {
    if order != [] {
      var n := |order| - 1;
      DenialsCancelNothing(pending, order[..n], run);
      assert Denials(pending, order)[..n] == Denials(pending, order[..n]);
    }
  }

  /** Fail-closed attempts one RunCancel for each bound run and none for any other. */
  lemma FailClosedCancels(s: Host, orders: Orders, run: RunId)
    requires Coupled(s) && OrdersFor(orders, s)
    ensures CancelsOf(FailClosed(s, orders).log.attempts, run)
      == CancelsOf(s.log.attempts, run) + (if run in s.runSessions then 1 else 0)
  {
    var cancels := RunCancels(s.runSessions, orders.runs);
    var denials := Denials(s.pendingPermissions, orders.permissions);
    if s.initialized {
      RunCancelsCount(s.runSessions, orders.runs, run);
      DenialsCancelNothing(s.pendingPermissions, orders.permissions, run);
      CancelsAppend(s.log.attempts, cancels, run);
      CancelsAppend(s.log.attempts + cancels, denials, run);
    } else {
      RunsNeedSlots(s);
    }
  }

  lemma WaitingFail(s: Host, orders: Orders, f: Flight, run: RunId)
    requires Waiting(s, f, run) && OrdersFor(orders, s)
    ensures var t := FailClosed(s, orders);
      && t.inFlight == s.inFlight && t.log.accepted == s.log.accepted && f.requestId !in t.pendingPermissions
      && CancelsOf(t.log.attempts, run) == CancelsOf(s.log.attempts, run)
      && f.session !in t.occupancy
  {
    FailClosedCancels(s, orders, run);
  }

  /** The whole interruption. */
  lemma {:induction false} WaitingRun(s: Host, steps: seq<Step>, f: Flight, run: RunId)
    requires Waiting(s, f, run) && AllowedRun(s, steps)
    requires forall i | 0 <= i < |steps| :: !steps[i].Reply?
    ensures var t := Run(s, steps);
      && Waiting(t, f, run)
      && CancelsOf(t.log.attempts, run) == CancelsOf(s.log.attempts, run)
      && (f.session in t.occupancy <==> f.session in s.occupancy && !SomeFail(steps))
      && (!SomeFail(steps) ==> t.heldEvents == s.heldEvents)
      && (f.session in t.occupancy ==> (Flagged(t, f.session) <==> Flagged(s, f.session) || SomeAsk(steps, f)))
    decreases |steps|
  {
    if steps != [] {
      WaitingStep(s, steps[0], f, run);
      var rest := steps[1..];
      WaitingRun(Next(s, steps[0]), rest, f, run);
      assert steps == [steps[0]] + rest;
      SomeSplit(steps, f);
    }
  }

  lemma SomeSplit(steps: seq<Step>, f: Flight)
    requires steps != [] && f.PromptFlight?
    ensures SomeFail(steps) <==> steps[0].FailAll? || SomeFail(steps[1..])
    ensures SomeAsk(steps, f) <==> AsksFor(steps[0], f) || SomeAsk(steps[1..], f)
  {
    var rest := steps[1..];
    assert forall i | 0 <= i < |rest| :: rest[i] == steps[i + 1];
    if SomeFail(rest) {
      var i :| 0 <= i < |rest| && rest[i].FailAll?;
      assert steps[i + 1].FailAll?;
    }
    if SomeAsk(rest, f) {
      var i :| 0 <= i < |rest| && AsksFor(rest[i], f);
      assert AsksFor(steps[i + 1], f);
    }
    if SomeFail(steps) {
      var i :| 0 <= i < |steps| && steps[i].FailAll?;
      assert i > 0 ==> rest[i - 1].FailAll?;
    }
    if SomeAsk(steps, f) {
      var i :| 0 <= i < |steps| && AsksFor(steps[i], f);
      assert i > 0 ==> AsksFor(rest[i - 1], f);
    }
  }

  // ------------------------------------------------------------- Core's acceptance

  /** A terminal event for `run` is already waiting for the run to be bound. */
  ghost predicate EndedBeforeBinding(s: Host, run: RunId) {
    FirstTerminal(EventsOf(s.heldEvents, run)) < |EventsOf(s.heldEvents, run)|
  }

  /** The state in which Core's acceptance has been bound and its held events shown. */
  lemma AfterBinding(s: Host, f: Flight, run: RunId)
    requires Awaited(s, f, run) && InOrder(s, []) && f.session in s.occupancy
    ensures var t := AfterFlush(s, f, run);
      && CoupledFor(t, None)
      && t.log.attempts == s.log.attempts
      && run in t.log.bound && t.log.bound[run] == BoundPrompt(f.session, f.requestId, f.completion)
      && (run in t.runSessions <==> !EndedBeforeBinding(s, run))
      && (run in t.runSessions ==> t.runSessions[run] == f.session)
  {
    var s0 := s.(inFlight := None);
    SameOrderSuffices(s, s0);
    var s1 := Bind(NoteAccepted(s0, run), f, run);
    BindAndFlushKeepsInOrder(s0, f, run);
    var t := FlushHeldEvents(s1);
    RouteAllKeepsFrame(s1.(heldEvents := []), s1.heldEvents);
    BindKeepsCoupled(s0, f, run);
    SameTablesKeepCoupled(s1, s1.(heldEvents := []), None);
    RouteAllKeepsCoupled(s1.(heldEvents := []), s1.heldEvents, None);
    assert RunInOrder(s, [], run);
    assert RunInOrder(t, [], run);
    var all := EventsOf(s.log.arrived, run);
    assert EventsOf(s.heldEvents, run) + [] == EventsOf(s.heldEvents, run);
    assert all[..|all|] == all;
    RouteAllKeepsFrame(s1.(heldEvents := []), s1.heldEvents);
  }

  /** While its events are flushed, a slot either goes away with its run or stays as it was. */
  lemma {:induction false} RouteAllKeepsSlot(s: Host, events: seq<Envelope>, sid: SessionId, run: RunId)
    requires CoupledFor(s, None)
    requires sid in s.occupancy && s.occupancy[sid].runId == Some(run)
    ensures var t := RouteAll(s, events);
      run in t.runSessions && t.runSessions[run] == sid ==> sid in t.occupancy && t.occupancy[sid] == s.occupancy[sid]
    ensures var t := RouteAll(s, events); run !in t.runSessions ==> sid !in t.occupancy
    decreases |events|
  {
    RouteAllKeepsCoupled(s, events, None);
    if events != [] {
      var u := RouteOrHold(s, events[0]);
      RouteKeepsCoupled(s, events[0], None);
      RouteSlot(s, events[0], sid, run);
      if sid in u.occupancy {
        RouteAllKeepsSlot(u, events[1..], sid, run);
      } else {
        RouteAllAddsNothing(u, events[1..], sid, run);
      }
    }
  }

  lemma RouteSlot(s: Host, e: Envelope, sid: SessionId, run: RunId)
    requires CoupledFor(s, None) && sid in s.occupancy && s.occupancy[sid].runId == Some(run)
    ensures var t := RouteOrHold(s, e);
      || (sid in t.occupancy && t.occupancy[sid] == s.occupancy[sid])
      || (sid !in t.occupancy && run !in t.runSessions)
  {
    RouteShape(s, e);
    hide RouteOrHold;
    if !SameTables(s, RouteOrHold(s, e)) {
      ResolveSlot(s, e.payload.run, e.payload.state, sid, run);
    }
    hide ResolvePrompt, CoupledFor;
  }

  lemma ResolveSlot(s: Host, ended: RunId, state: RunState, sid: SessionId, run: RunId)
    requires CoupledFor(s, None) && sid in s.occupancy && s.occupancy[sid].runId == Some(run)
    ensures var t := ResolvePrompt(s, ended, state);
      || (sid in t.occupancy && t.occupancy[sid] == s.occupancy[sid])
      || (sid !in t.occupancy && run !in t.runSessions)
  {
    var id := FindPrompt(s.pendingPrompts, ended);
    if id.Some? { assert PromptLinked(id.value, s.pendingPrompts[id.value], s.occupancy); }
    hide SnapshotOf, ResolutionOf;
  }

  lemma {:induction false} RouteAllAddsNothing(s: Host, events: seq<Envelope>, sid: SessionId, run: RunId)
    requires sid !in s.occupancy && run !in s.runSessions
    ensures sid !in RouteAll(s, events).occupancy && run !in RouteAll(s, events).runSessions
    decreases |events|
  {
    if events != [] {
      RouteShape(s, events[0]);
      RouteAllAddsNothing(RouteOrHold(s, events[0]), events[1..], sid, run);
    }
  }

  /** Replaying both early flags attempts one RunCancel, replaying none attempts none. */
  lemma ReplayCancels(s: Host, f: Flight, order: seq<JsonRpcId>, run: RunId)
    requires CoupledFor(s, None) && f.PromptFlight? && f.session in s.occupancy
    requires s.occupancy[f.session].runId == Some(run) && s.occupancy[f.session].requestId == f.requestId
    requires OnlyFlagged(s.occupancy, f.session)
    ensures ReplayEarlyCancels(s, f, order).log.attempts
      == s.log.attempts + (if Flagged(s, f.session) then [RunCancel(f.session, run)] else [])
    ensures ReplayEarlyCancels(s, f, order).runSessions == s.runSessions
    ensures ReplayEarlyCancels(s, f, order).log.bound == s.log.bound
  {
    var t := ClearEarlyCancels(s, f.session);
    ClearKeepsCoupled(s, f.session, None);
    assert t.occupancy[f.session].runId == Some(run);
    assert SlotLinked(f.session, t.occupancy[f.session], t.runSessions, t.pendingPrompts);
    assert s.initialized;
  }

  lemma SlotAfterFlush(s: Host, f: Flight, run: RunId)
    requires Awaited(s, f, run) && f.session in s.occupancy
    ensures var t := AfterFlush(s, f, run);
      && OnlyFlagged(t.occupancy, f.session)
      && (run !in t.runSessions ==> f.session !in t.occupancy)
      && (run in t.runSessions && t.runSessions[run] == f.session ==>
            && f.session in t.occupancy
            && t.occupancy[f.session] == s.occupancy[f.session].(runId := Some(run)))
  {
    var s0 := s.(inFlight := None);
    var s1 := Bind(NoteAccepted(s0, run), f, run);
    var s2 := s1.(heldEvents := []);
    BindKeepsCoupled(s0, f, run);
    SameTablesKeepCoupled(s1, s2, None);
    RouteAllKeepsSlot(s2, s.heldEvents, f.session, run);
    RouteAllKeepsFlags(s2, s.heldEvents, f.session);
  }

  /** Core accepted the run: it is bound, and cancelled once if anyone asked while it was awaited. */
  lemma AcceptedWhileHeld(s: Host, f: Flight, run: RunId, order: seq<JsonRpcId>)
    requires Awaited(s, f, run) && InOrder(s, []) && f.session in s.occupancy
    ensures var t := CoreReply(s, Accepted(run), order);
      && run in t.log.bound
      && t.log.bound[run] == BoundPrompt(f.session, f.requestId, f.completion)
      && (run in t.runSessions <==> !EndedBeforeBinding(s, run))
      && t.log.attempts == s.log.attempts
           + (if Flagged(s, f.session) && !EndedBeforeBinding(s, run) then [RunCancel(f.session, run)] else [])
  {
    AfterBinding(s, f, run);
    SlotAfterFlush(s, f, run);
    var t := AfterFlush(s, f, run);
    assert CoreReply(s, Accepted(run), order) == ReplayEarlyCancels(t, f, order);
    if run in t.runSessions {
      ReplayCancels(t, f, order, run);
    }
  }

  /** Core accepted the run of a prompt that fail-closed has already given up: it is cancelled, not bound. */
  lemma AcceptedAfterFail(s: Host, f: Flight, run: RunId, order: seq<JsonRpcId>)
    requires Awaited(s, f, run) && f.session !in s.occupancy && s.initialized
    ensures var t := CoreReply(s, Accepted(run), order);
      && run !in t.log.bound && run !in t.runSessions
      && t.log.attempts == s.log.attempts + [RunCancel(f.session, run)]
  {
  }

  lemma {:induction false} AlwaysFlightNeedsInit(s: Host, steps: seq<Step>)
    requires s.inFlight.Some? ==> s.initialized
    requires AllowedRun(s, steps)
    ensures Run(s, steps).inFlight.Some? ==> Run(s, steps).initialized
    decreases |steps|
  {
    if steps != [] {
      FlightNeedsInit(s, steps[0]);
      AlwaysFlightNeedsInit(Next(s, steps[0]), steps[1..]);
    }
  }

  lemma FlightNeedsInit(s: Host, step: Step)
    requires Allowed(s, step) && (s.inFlight.Some? ==> s.initialized)
    ensures Next(s, step).inFlight.Some? ==> Next(s, step).initialized
  {
    if step.Pump? {
      PumpKeepsFrame(s, step.events);
    } else if step.Reply? {
      if s.inFlight.value.PromptFlight? {
        FinishKeepsFlight(s.(inFlight := None), s.inFlight.value, step.reply, step.order);
      }
    } else if step.SessionCancel? || step.CloseSession? {
      CancelsKeepFlight(s, step.session, step.order, NullId);
    } else if step.RequestCancel? {
      CancelsKeepFlight(s, SessionId(""), [], step.id);
    }
  }

  /**
   * No cancel is lost once a prompt has reserved its session, and none is doubled.
   * Take any reachable state with prompt `f` reserved and in flight, any
   * interruption, and Core's acceptance of the new run `run`. Then RunCancel is
   * attempted for `run`: once if fail-closed came in between; else once if some
   * cancel for the session or the request did and the run has not already ended;
   * else not at all. And the run is bound exactly when no fail-closed came.
   */
  lemma EarlyCancelReachesTheRun(
      before: seq<Step>, interruption: seq<Step>, f: Flight, run: RunId, order: seq<JsonRpcId>)
    requires AllowedRun(INITIAL_HOST, before)
    requires forall i | 0 <= i < |before| :: StreamsAgree(before[i])
    requires var s := Run(INITIAL_HOST, before);
      && s.inFlight == Some(f) && f.PromptFlight? && f.session in s.occupancy && !Flagged(s, f.session)
      && f.requestId !in s.pendingPermissions
      && run !in s.log.accepted
      && AllowedRun(s, interruption)
    requires forall i | 0 <= i < |interruption| :: !interruption[i].Reply?
    ensures var s := Run(INITIAL_HOST, before);
      var t := CoreReply(Run(s, interruption), Accepted(run), order);
      && CancelsOf(t.log.attempts, run) - CancelsOf(s.log.attempts, run)
         == (if SomeFail(interruption) then 1
             else if SomeAsk(interruption, f) && !EndedBeforeBinding(s, run) then 1 else 0)
      && (run in t.log.bound <==> !SomeFail(interruption))
  {
    InitiallyCoupled();
    AlwaysInOrder(INITIAL_HOST, before);
    AlwaysFlightNeedsInit(INITIAL_HOST, before);
    ReplyReachesTheRun(Run(INITIAL_HOST, before), interruption, f, run, order);
  }

  lemma ReplyReachesTheRun(s: Host, interruption: seq<Step>, f: Flight, run: RunId, order: seq<JsonRpcId>)
    requires Waiting(s, f, run) && InOrder(s, []) && s.initialized
    requires f.session in s.occupancy && !Flagged(s, f.session)
    requires AllowedRun(s, interruption) && forall i | 0 <= i < |interruption| :: !interruption[i].Reply?
    ensures var t := CoreReply(Run(s, interruption), Accepted(run), order);
      && CancelsOf(t.log.attempts, run) - CancelsOf(s.log.attempts, run)
         == (if SomeFail(interruption) then 1
             else if SomeAsk(interruption, f) && !EndedBeforeBinding(s, run) then 1 else 0)
      && (run in t.log.bound <==> !SomeFail(interruption))
  {
    WaitingRun(s, interruption, f, run);
    AlwaysFlightNeedsInit(s, interruption);
    InterruptionInOrder(s, interruption);
    var u := Run(s, interruption);
    ReplyCount(u, f, run, order);
    assert !SomeFail(interruption) ==> (EndedBeforeBinding(u, run) <==> EndedBeforeBinding(s, run));
  }

  lemma ReplyCount(u: Host, f: Flight, run: RunId, order: seq<JsonRpcId>)
    requires Waiting(u, f, run) && InOrder(u, []) && u.initialized
    ensures var t := CoreReply(u, Accepted(run), order);
      && CancelsOf(t.log.attempts, run) == CancelsOf(u.log.attempts, run)
           + (if f.session !in u.occupancy then 1
              else if Flagged(u, f.session) && !EndedBeforeBinding(u, run) then 1 else 0)
      && (run in t.log.bound <==> f.session in u.occupancy)
  {
    CancelsSnoc(u.log.attempts, RunCancel(f.session, run), run);
    if f.session in u.occupancy {
      AcceptedWhileHeld(u, f, run, order);
    } else {
      AcceptedAfterFail(u, f, run, order);
    }
    assert u.log.attempts + [] == u.log.attempts;
  }

  /** No event is pumped while a dispatch is out, so the hypothesis on streams holds by itself. */
  lemma {:induction false} InterruptionInOrder(s: Host, steps: seq<Step>)
    requires Coupled(s) && InOrder(s, []) && s.inFlight.Some? && AllowedRun(s, steps)
    requires forall i | 0 <= i < |steps| :: !steps[i].Reply?
    ensures InOrder(Run(s, steps), [])
    decreases |steps|
  {
    if steps != [] {
      StepKeepsInOrder(s, steps[0]);
      StepKeepsCoupled(s, steps[0]);
      if steps[0].SessionCancel? {
        CancelsKeepFlight(s, steps[0].session, steps[0].order, NullId);
      } else if steps[0].RequestCancel? {
        CancelsKeepFlight(s, SessionId(""), [], steps[0].id);
      }
      InterruptionInOrder(Next(s, steps[0]), steps[1..]);
    }
  }

  // ------------------------------------------------------------------ fail-closed

  /**
   * Fail-closed is total: every ledger is empty and published so, each bound run
   * gets one RunCancel, each pending permission a Deny, each pending prompt its
   * failure, and each queued barrier its own resolution.
   */
  lemma FailClosedIsTotal(s: Host, orders: Orders)
    requires Coupled(s) && OrdersFor(orders, s)
    ensures var t := FailClosed(s, orders);
      && t.occupancy == map[] && t.runSessions == map[] && t.pendingPrompts == map[]
      && t.pendingPermissions == map[] && t.outbox == [] && t.heldEvents == []
      && t.published.occupancy == map[] && t.published.runSessions == map[]
      && (forall run :: CancelsOf(t.log.attempts, run)
            == CancelsOf(s.log.attempts, run) + (if run in s.runSessions then 1 else 0))
      && (forall id | id in s.pendingPermissions ::
            ApproveAttempt(id, s.pendingPermissions[id], Deny) in t.log.attempts)
      && (forall id | id in s.pendingPrompts ::
            Delivery(s.pendingPrompts[id].completion, TurnFailed) in t.log.delivered)
      && t.log.delivered == s.log.delivered
           + FailedDeliveries(s.pendingPrompts, orders.prompts) + BarrierDeliveries(s.outbox)
  {
    var t := FailClosed(s, orders);
    forall run ensures CancelsOf(t.log.attempts, run)
            == CancelsOf(s.log.attempts, run) + (if run in s.runSessions then 1 else 0)
    {
      FailClosedCancels(s, orders, run);
    }
    forall id | id in s.pendingPermissions
      ensures ApproveAttempt(id, s.pendingPermissions[id], Deny) in t.log.attempts
    {
      assert id in orders.permissions;
      var i :| 0 <= i < |orders.permissions| && orders.permissions[i] == id;
      assert Denials(s.pendingPermissions, orders.permissions)[i] in Denials(s.pendingPermissions, orders.permissions);
    }
    forall id | id in s.pendingPrompts
      ensures Delivery(s.pendingPrompts[id].completion, TurnFailed) in t.log.delivered
    {
      assert id in orders.prompts;
      var i :| 0 <= i < |orders.prompts| && orders.prompts[i] == id;
      var failed := FailedDeliveries(s.pendingPrompts, orders.prompts);
      assert failed[i] in failed;
    }
  }

  /** `c` belongs to a prompt that can no longer be bound. */
  ghost predicate GivenUp(s: Host, c: Channel) {
    && c < s.nextChannel
    && c !in s.log.completions
    && (s.inFlight.Some? && s.inFlight.value.PromptFlight? && s.inFlight.value.completion == c ==>
          s.inFlight.value.session !in s.occupancy)
  }

  lemma CancelsKeepGivenUp(s: Host, sid: SessionId, order: seq<JsonRpcId>, id: JsonRpcId, c: Channel)
    requires GivenUp(s, c)
    ensures GivenUp(CancelSession(s, sid, order), c) && GivenUp(CancelRequest(s, id), c)
  {
    hide CancelSession, CancelRequest;
    CancelSessionFrame(s, sid, order);
    CancelRequestFrame(s, id);
  }

  lemma StepKeepsGivenUp(s: Host, step: Step, c: Channel)
    requires Coupled(s) && Allowed(s, step) && GivenUp(s, c)
    ensures GivenUp(Next(s, step), c)
  {
    hide CoreReply, PumpEvents, FailedDeliveries, BarrierDeliveries, Completions, SnapshotOf, Coupled, AfterFlush;
    hide CancelSession, CancelRequest;
    if step.SessionCancel? || step.CloseSession? {
      CancelsKeepGivenUp(s, step.session, step.order, NullId, c);
    } else if step.RequestCancel? {
      CancelsKeepGivenUp(s, SessionId(""), [], step.id, c);
    } else if step.Reply? {
      ReplyKeepsGivenUp(s, step.reply, step.order, c);
    } else if step.Pump? {
      PumpKeepsFrame(s, step.events);
      PumpKeepsAway(s, step.events);
    }
  }

  lemma ReplayKeepsChannels(s: Host, f: Flight, order: seq<JsonRpcId>)
    requires f.PromptFlight?
    ensures var t := ReplayEarlyCancels(s, f, order);
      t.nextChannel == s.nextChannel && t.log.completions == s.log.completions && t.inFlight == s.inFlight
  {
    hide ReplayEarlyCancels;
    ReplayHolders(s, f, order);
    ReplayKeepsFlight(s, f, order);
  }

  lemma ReplyKeepsGivenUp(s: Host, reply: Reply, order: seq<JsonRpcId>, c: Channel)
    requires Coupled(s) && s.inFlight.Some? && GivenUp(s, c)
    ensures GivenUp(CoreReply(s, reply, order), c)
  {
    var f := s.inFlight.value;
    if f.PromptFlight? && f.session in s.occupancy && reply.Accepted? {
      var s1 := Bind(NoteAccepted(s.(inFlight := None), reply.run), f, reply.run);
      RouteAllKeepsFrame(s1.(heldEvents := []), s1.heldEvents);
      ReplayKeepsChannels(FlushHeldEvents(s1), f, order);
    }
  }

  lemma {:induction false} PumpKeepsAway(s: Host, events: seq<Envelope>)
    ensures PumpEvents(s, events).occupancy.Keys <= s.occupancy.Keys
    decreases |events|
  {
    if events != [] {
      RouteShape(s.(log := s.log.(arrived := s.log.arrived + [events[0]])), events[0]);
      PumpKeepsAway(Receive(s, events[0]), events[1..]);
    }
  }

  /**
   * Fail-closed is final: the prompt that was in flight when it came is not bound
   * by anything that happens afterwards.
   */
  lemma {:induction false} NeverBoundAgain(s: Host, steps: seq<Step>, c: Channel)
    requires Coupled(s) && GivenUp(s, c) && AllowedRun(s, steps)
    ensures c !in Run(s, steps).log.completions
    decreases |steps|
  {
    if steps != [] {
      StepKeepsCoupled(s, steps[0]);
      StepKeepsGivenUp(s, steps[0], c);
      NeverBoundAgain(Next(s, steps[0]), steps[1..], c);
    }
  }

  lemma FailClosedGivesUpTheFlight(s: Host, orders: Orders)
    requires ChannelsAreNew(s, s.inFlight) && OrdersFor(orders, s)
    requires s.inFlight.Some? && s.inFlight.value.PromptFlight?
    ensures GivenUp(FailClosed(s, orders), s.inFlight.value.completion)
  {
  }
}
