/**
 * Permission accounting: every permission request put to the client leaves the
 * table once, paired with one ToolApprove for the very run and tool that asked,
 * or with the RunCancel of its session.
 */
module AcpPermissions {
  import opened Common
  import opened AcpTypes
  import opened AcpHost
  import opened AcpCoupling

  /** The asks that the attempted ToolApprove commands settle. */
  ghost function ApprovedAsks(attempts: seq<Attempt>): multiset<Ask> {
    if attempts == [] then multiset{}
    else
      var last := attempts[|attempts| - 1];
      var rest := ApprovedAsks(attempts[..|attempts| - 1]);
      if last.ToolApprove?
      then rest + multiset{Ask(last.permission, PendingPermission(last.run, last.tool, last.session))}
      else rest
  }

  ghost function PendingAsks(pending: map<JsonRpcId, PendingPermission>): set<Ask> {
    set id | id in pending :: Ask(id, pending[id])
  }

  ghost function Settled(s: Host): multiset<Ask> {
    ApprovedAsks(s.log.attempts) + multiset(s.log.cascaded)
  }

  /** The host numbers its requests 1, 2, ... and stays at the last number there is. */
  ghost predicate Numbered(s: Host) {
    && s.nextRequestId == SaturatingAdd(1, |s.log.issued|, MAX_U64)
    && (forall i | 0 <= i < |s.log.issued| :: s.log.issued[i].id == NumberId(SaturatingAdd(1, i, MAX_U64)))
  }

  ghost predicate Accounted(s: Host) {
    && Numbered(s)
    && (|s.log.issued| <= MAX_U64 ==>
          multiset(s.log.issued) == multiset(PendingAsks(s.pendingPermissions)) + Settled(s))
    && (!s.initialized ==> s.pendingPermissions == map[])
  }

  // ------------------------------------------------------------ counting lemmas

  lemma {:induction false} ApprovedAppend(a: seq<Attempt>, b: seq<Attempt>)
    ensures ApprovedAsks(a + b) == ApprovedAsks(a) + ApprovedAsks(b)
  {
    if b == [] {
      assert a + b == a;
    } else {
      assert (a + b)[..|a + b| - 1] == a + b[..|b| - 1];
      ApprovedAppend(a, b[..|b| - 1]);
    }
  }

  lemma ApprovedOne(a: Attempt)
    ensures ApprovedAsks([a]) == if a.ToolApprove?
      then multiset{Ask(a.permission, PendingPermission(a.run, a.tool, a.session))} else multiset{}
  {
    assert [a][..0] == [] && ApprovedAsks([a][..0]) == multiset{};
  }

  lemma {:induction false} RunCancelsApproveNothing(runs: map<RunId, SessionId>, order: seq<RunId>)
    requires forall r | r in order :: r in runs
    ensures ApprovedAsks(RunCancels(runs, order)) == multiset{}
  {
    if order != [] {
      var n := |order| - 1;
      RunCancelsApproveNothing(runs, order[..n]);
      assert RunCancels(runs, order)[..n] == RunCancels(runs, order[..n]);
    }
  }

  lemma RemovedAsk(pending: map<JsonRpcId, PendingPermission>, id: JsonRpcId)
    requires id in pending
    ensures multiset(PendingAsks(pending)) == multiset(PendingAsks(pending - {id})) + multiset{Ask(id, pending[id])}
  {
    var rest := PendingAsks(pending - {id});
    assert Ask(id, pending[id]) !in rest;
    forall a | a in PendingAsks(pending) ensures a in rest + {Ask(id, pending[id])} {
      assert a.id in pending && a.permission == pending[a.id];
      assert a.id != id ==> a.id in pending - {id};
    }
    assert PendingAsks(pending) == rest + {Ask(id, pending[id])};
  }

  lemma AddedAsk(pending: map<JsonRpcId, PendingPermission>, id: JsonRpcId, p: PendingPermission)
    requires id !in pending
    ensures multiset(PendingAsks(pending[id := p])) == multiset(PendingAsks(pending)) + multiset{Ask(id, p)}
  {
    RemovedAsk(pending[id := p], id);
    assert pending[id := p] - {id} == pending;
  }

  lemma DropLast(pending: map<JsonRpcId, PendingPermission>, order: seq<JsonRpcId>)
    requires order != []
    ensures var n := |order| - 1;
      (pending - (set id | id in order[..n])) - {order[n]} == pending - (set id | id in order)
  {
    var n := |order| - 1;
    assert order == order[..n] + [order[n]];
    assert (set id | id in order) == (set id | id in order[..n]) + {order[n]};
  }

  /** Removing the permissions in `order` one by one accounts for each of them. */
  lemma {:induction false} RemovedAsks(pending: map<JsonRpcId, PendingPermission>, order: seq<JsonRpcId>)
    requires Distinct(order) && forall id | id in order :: id in pending
    ensures multiset(PendingAsks(pending))
      == multiset(PendingAsks(pending - (set id | id in order))) + multiset(AsksOf(pending, order))
  {
    if order == [] {
      assert pending - (set id | id in order) == pending;
    } else {
      var n := |order| - 1;
      var init := order[..n];
      var last := order[n];
      hide PendingAsks;
      RemovedAsks(pending, init);
      var left := pending - (set id | id in init);
      assert last !in init && last in order;
      RemovedAsk(left, last);
      DropLast(pending, order);
      assert multiset(AsksOf(pending, order)) == multiset(AsksOf(pending, init)) + multiset{Ask(last, pending[last])};
      hide AsksOf;
    }
  }

  lemma {:induction false} DenialsSettle(pending: map<JsonRpcId, PendingPermission>, order: seq<JsonRpcId>)
    requires forall id | id in order :: id in pending
    ensures ApprovedAsks(Denials(pending, order)) == multiset(AsksOf(pending, order))
  {
    if order != [] {
      var n := |order| - 1;
      DenialsSettle(pending, order[..n]);
      assert Denials(pending, order)[..n] == Denials(pending, order[..n]);
      assert order[n] in order;
    }
  }

  // ------------------------------------------------------------------- handlers

  ghost predicate SameAsks(s: Host, t: Host) {
    && t.initialized == s.initialized
    && t.nextRequestId == s.nextRequestId
    && t.pendingPermissions == s.pendingPermissions
    && t.log.issued == s.log.issued
    && t.log.attempts == s.log.attempts
    && t.log.cascaded == s.log.cascaded
  }

  /**
   * A new request takes a number no other request ever had, exactly while fewer
   * than 2^64 - 1 have been issued.
   */
  lemma NumberIsNewIff(s: Host)
    requires Numbered(s)
    ensures (forall i | 0 <= i < |s.log.issued| :: s.log.issued[i].id != NumberId(s.nextRequestId))
      <==> |s.log.issued| < MAX_U64
  {
    if |s.log.issued| >= MAX_U64 {
      assert s.log.issued[MAX_U64 - 1].id == NumberId(s.nextRequestId);
    }
  }

  lemma PendingWasIssued(s: Host, id: JsonRpcId)
    requires Accounted(s) && |s.log.issued| <= MAX_U64 && id in s.pendingPermissions
    ensures exists i | 0 <= i < |s.log.issued| :: s.log.issued[i].id == id
  {
    var a := Ask(id, s.pendingPermissions[id]);
    assert a in PendingAsks(s.pendingPermissions);
    assert multiset(s.log.issued)[a] > 0;
    assert a in s.log.issued;
  }

  lemma EmitKeepsAccounted(s: Host, sid: SessionId, run: RunId, tool: ToolCallId, reason: string)
    requires Accounted(s)
    ensures Accounted(EmitPermissionRequest(s, sid, run, tool, reason))
  {
    if s.initialized && |s.log.issued| < MAX_U64 {
      var id := NumberId(s.nextRequestId);
      NumberIsNewIff(s);
      if id in s.pendingPermissions {
        PendingWasIssued(s, id);
        assert false;
      }
      AddedAsk(s.pendingPermissions, id, PendingPermission(run, tool, sid));
    }
  }

  lemma RouteAsks(s: Host, e: Envelope)
    ensures
      || SameAsks(s, RouteOrHold(s, e))
      || (e.payload.ToolApprovalRequired? && ResolveClientSession(s.runSessions, e).Some?
          && RouteOrHold(s, e) == EmitPermissionRequest(
               s, ResolveClientSession(s.runSessions, e).value, e.payload.run, e.payload.tool, e.payload.reason))
  {
    RouteCases(s, e);
    hide RouteOrHold, ResolveClientSession, TranslateSessionUpdate, EmitPermissionRequest;
    hide FindPrompt, ResolutionOf, SnapshotOf;
  }

  lemma RouteKeepsAccounted(s: Host, e: Envelope)
    requires Accounted(s)
    ensures Accounted(RouteOrHold(s, e))
  {
    RouteAsks(s, e);
    if SameAsks(s, RouteOrHold(s, e)) {
      assert Settled(RouteOrHold(s, e)) == Settled(s);
    } else {
      var sid := ResolveClientSession(s.runSessions, e).value;
      EmitKeepsAccounted(s, sid, e.payload.run, e.payload.tool, e.payload.reason);
    }
  }

  lemma {:induction false} RouteAllKeepsAccounted(s: Host, events: seq<Envelope>)
    requires Accounted(s)
    ensures Accounted(RouteAll(s, events))
    decreases |events|
  {
    if events != [] {
      RouteKeepsAccounted(s, events[0]);
      RouteAllKeepsAccounted(RouteOrHold(s, events[0]), events[1..]);
    }
  }

  lemma {:induction false} PumpKeepsAccounted(s: Host, events: seq<Envelope>)
    requires Accounted(s)
    ensures Accounted(PumpEvents(s, events))
    decreases |events|
  {
    if events != [] {
      var s1 := s.(log := s.log.(arrived := s.log.arrived + [events[0]]));
      assert SameAsks(s, s1) && Settled(s1) == Settled(s);
      RouteKeepsAccounted(s1, events[0]);
      PumpKeepsAccounted(Receive(s, events[0]), events[1..]);
    }
  }

  /** One ToolApprove for one removed permission. */
  lemma SettleOneKeepsAccounted(s: Host, id: JsonRpcId, decision: Decision)
    requires Accounted(s) && id in s.pendingPermissions
    ensures Accounted(TryDispatch(s.(pendingPermissions := s.pendingPermissions - {id}),
                        [ApproveAttempt(id, s.pendingPermissions[id], decision)]))
  {
    var a := ApproveAttempt(id, s.pendingPermissions[id], decision);
    RemovedAsk(s.pendingPermissions, id);
    ApprovedAppend(s.log.attempts, [a]);
    ApprovedOne(a);
  }

  lemma CascadeKeepsAccounted(s: Host, order: seq<JsonRpcId>)
    requires Accounted(s) && Distinct(order) && forall id | id in order :: id in s.pendingPermissions
    ensures Accounted(Cascade(s, order))
  {
    RemovedAsks(s.pendingPermissions, order);
  }

  lemma CancelRunKeepsAccounted(s: Host, sid: SessionId, run: RunId)
    requires Accounted(s)
    ensures Accounted(TryDispatch(s, [RunCancel(sid, run)]))
  {
    ApprovedAppend(s.log.attempts, [RunCancel(sid, run)]);
    ApprovedOne(RunCancel(sid, run));
  }

  lemma CancelSessionKeepsAccounted(s: Host, sid: SessionId, order: seq<JsonRpcId>)
    requires Accounted(s) && Enumerates(order, CascadeIds(s, sid))
    ensures Accounted(CancelSession(s, sid, order))
  {
    if sid in s.occupancy {
      var slot := s.occupancy[sid];
      if slot.runId.Some? {
        var s1 := s.(occupancy := s.occupancy[sid := slot.(earlySessionCancel := false)]);
        assert Settled(s1) == Settled(s);
        CancelRunKeepsAccounted(s1, sid, slot.runId.value);
        CascadeKeepsAccounted(TryDispatch(s1, [RunCancel(sid, slot.runId.value)]), order);
      } else {
        assert Settled(CancelSession(s, sid, order)) == Settled(s);
      }
    }
  }

  lemma CancelRequestKeepsAccounted(s: Host, id: JsonRpcId)
    requires Accounted(s)
    ensures Accounted(CancelRequest(s, id))
  {
    if id in s.pendingPrompts {
      CancelRunKeepsAccounted(s, s.pendingPrompts[id].session, s.pendingPrompts[id].run);
    } else if id in s.pendingPermissions {
      SettleOneKeepsAccounted(s, id, CancelTool);
    } else {
      assert SameAsks(s, CancelRequest(s, id));
      assert Settled(CancelRequest(s, id)) == Settled(s);
    }
  }

  /** Walking the whole table, in any order, denies each pending permission once. */
  lemma DenialsSettleAll(pending: map<JsonRpcId, PendingPermission>, order: seq<JsonRpcId>)
    requires Enumerates(order, pending.Keys)
    ensures ApprovedAsks(Denials(pending, order)) == multiset(PendingAsks(pending))
  {
    DenialsSettle(pending, order);
    RemovedAsks(pending, order);
    assert pending - (set id | id in order) == map[];
    NothingPending();
    hide ApprovedAsks, PendingAsks, AsksOf, Denials;
  }

  lemma FailClosedKeepsAccounted(s: Host, orders: Orders)
    requires Accounted(s) && OrdersFor(orders, s)
    ensures Accounted(FailClosed(s, orders))
  {
    hide ApprovedAsks, PendingAsks, AsksOf, BarrierDeliveries, FailedDeliveries, SnapshotOf;
    var t := FailClosed(s, orders);
    var cancels := RunCancels(s.runSessions, orders.runs);
    var denials := Denials(s.pendingPermissions, orders.permissions);
    RunCancelsApproveNothing(s.runSessions, orders.runs);
    DenialsSettleAll(s.pendingPermissions, orders.permissions);
    ApprovedAppend(s.log.attempts, cancels);
    ApprovedAppend(s.log.attempts + cancels, denials);
    NothingPending();
    if !s.initialized { WalkOfNothing(orders.permissions); }
  }

  lemma WalkOfNothing(q: seq<JsonRpcId>)
    requires Enumerates(q, {})
    ensures q == []
  {
    DistinctMultiset(q, {});
    assert |multiset(q)| == 0;
  }

  lemma NothingPending()
    ensures PendingAsks(map[]) == {}
  {
  }

  lemma SameAsksSuffice(s: Host, t: Host)
    requires Accounted(s) && SameAsks(s, t)
    ensures Accounted(t)
  {
    assert Settled(t) == Settled(s);
  }

  lemma BindAndFlushKeepsAccounted(s: Host, f: Flight, run: RunId)
    requires Accounted(s) && f.PromptFlight? && f.session in s.occupancy
    ensures Accounted(FlushHeldEvents(Bind(s, f, run)))
  {
    var s1 := Bind(s, f, run);
    SameAsksSuffice(s, s1.(heldEvents := []));
    RouteAllKeepsAccounted(s1.(heldEvents := []), s1.heldEvents);
  }

  lemma ReplayKeepsAccounted(s: Host, f: Flight, order: seq<JsonRpcId>)
    requires Accounted(s) && f.PromptFlight? && Enumerates(order, CascadeIds(s, f.session))
    ensures Accounted(ReplayEarlyCancels(s, f, order))
  {
    var t := ClearEarlyCancels(s, f.session);
    SameAsksSuffice(s, t);
    assert CascadeIds(t, f.session) == CascadeIds(s, f.session);
    CancelSessionKeepsAccounted(t, f.session, order);
    CancelRequestKeepsAccounted(t, f.requestId);
  }

  lemma FinishKeepsAccounted(s: Host, f: Flight, reply: Reply, order: seq<JsonRpcId>)
    requires Accounted(s) && f.PromptFlight?
    requires reply.Accepted? && f.session in s.occupancy ==>
      Enumerates(order, CascadeIds(FlushHeldEvents(Bind(NoteAccepted(s, reply.run), f, reply.run)), f.session))
    ensures Accounted(FinishPrompt(s, f, reply, order))
  {
    if !reply.Accepted? {
      SameAsksSuffice(s, FinishPrompt(s, f, reply, order));
    } else {
      var s0 := NoteAccepted(s, reply.run);
      SameAsksSuffice(s, s0);
      if f.session in s.occupancy {
        BindAndFlushKeepsAccounted(s0, f, reply.run);
        ReplayKeepsAccounted(FlushHeldEvents(Bind(s0, f, reply.run)), f, order);
      } else {
        CancelRunKeepsAccounted(s0, f.session, reply.run);
      }
    }
  }

  lemma ReplyKeepsAccounted(s: Host, reply: Reply, order: seq<JsonRpcId>)
    requires Accounted(s) && Allowed(s, Step.Reply(reply, order))
    ensures Accounted(CoreReply(s, reply, order))
  {
    var s1 := s.(inFlight := None);
    SameAsksSuffice(s, s1);
    if s.inFlight.value.PromptFlight? {
      FinishKeepsAccounted(s1, s.inFlight.value, reply, order);
    }
  }

  lemma InitializeKeepsAccounted(s: Host)
    requires Accounted(s)
    ensures Accounted(Publish(s.(initialized := true)))
  {
    assert Settled(Publish(s.(initialized := true))) == Settled(s);
  }

  lemma StepKeepsAccounted(s: Host, step: Step)
    requires Allowed(s, step) && Accounted(s)
    ensures Accounted(Next(s, step))
  {
    hide Accounted, CoreReply, CancelSession, CancelRequest, PumpEvents, FailClosed, AfterFlush;
    if step.Reply? {
      ReplyKeepsAccounted(s, step.reply, step.order);
    } else if step.SessionCancel? || step.CloseSession? {
      CancelSessionKeepsAccounted(s, step.session, step.order);
    } else if step.RequestCancel? {
      CancelRequestKeepsAccounted(s, step.id);
    } else if step.Answer? {
      if step.id in s.pendingPermissions {
        SettleOneKeepsAccounted(s, step.id, DecisionFor(step.answer));
      }
    } else if step.Pump? {
      PumpKeepsAccounted(s, step.events);
    } else if step.FailAll? {
      FailClosedKeepsAccounted(s, step.orders);
    } else if step.Initialize? {
      InitializeKeepsAccounted(s);
    } else {
      PlainStepSameAsks(s, step);
      hide SameAsks, Next;
      SameAsksSuffice(s, Next(s, step));
    }
  }

  lemma PlainStepSameAsks(s: Host, step: Step)
    requires Allowed(s, step)
    requires step.Prompt? || step.CreateSession? || step.Drain? || step.Consume?
      || step.ReleaseBatch? || step.LoseBatch? || step.Skip?
    ensures SameAsks(s, Next(s, step))
  {
    if step.Prompt? { BeginSameAsks(s, step.id, step.session, step.admission); }
    hide BeginPrompt, BarrierDeliveries, Completions, SnapshotOf;
  }

  lemma BeginSameAsks(s: Host, id: JsonRpcId, sid: SessionId, admission: Admission)
    ensures SameAsks(s, BeginPrompt(s, id, sid, admission))
  {
    hide SnapshotOf;
  }

  lemma {:induction false} AlwaysAccounted(s: Host, steps: seq<Step>)
    requires Accounted(s) && AllowedRun(s, steps)
    ensures Accounted(Run(s, steps))
    decreases |steps|
  {
    if steps != [] {
      StepKeepsAccounted(s, steps[0]);
      AlwaysAccounted(Next(s, steps[0]), steps[1..]);
    }
  }

  /**
   * From the start, over every run with fewer than 2^64 permission requests:
   * every request ever put to the client is still pending, or settled by exactly
   * one ToolApprove naming the run and tool that asked, or swept away by a
   * session cancel - and no two requests share an id.
   */
  lemma EveryAskLeavesOnce(steps: seq<Step>)
    requires AllowedRun(INITIAL_HOST, steps)
    requires |Run(INITIAL_HOST, steps).log.issued| <= MAX_U64
    ensures var s := Run(INITIAL_HOST, steps);
      && multiset(s.log.issued) == multiset(PendingAsks(s.pendingPermissions)) + Settled(s)
      && (forall a: Ask :: Settled(s)[a] <= 1)
      && (forall i, j | 0 <= i < j < |s.log.issued| :: s.log.issued[i].id != s.log.issued[j].id)
  {
    assert PendingAsks(INITIAL_HOST.pendingPermissions) == {};
    AlwaysAccounted(INITIAL_HOST, steps);
    var s := Run(INITIAL_HOST, steps);
    IssuedOnce(s.log.issued);
    forall a: Ask ensures Settled(s)[a] <= 1 {
      assert Settled(s)[a] <= multiset(s.log.issued)[a];
    }
  }

  lemma {:induction false} IssuedOnce(issued: seq<Ask>)
    requires forall i, j | 0 <= i < j < |issued| :: issued[i].id != issued[j].id
    ensures forall a :: multiset(issued)[a] <= 1
  {
    if issued != [] {
      var n := |issued| - 1;
      IssuedOnce(issued[..n]);
      assert issued == issued[..n] + [issued[n]];
      assert issued[n] !in issued[..n];
    }
  }

  // ------------------------------------------------- cascades and their RunCancel

  ghost predicate HasCancel(attempts: seq<Attempt>, sid: SessionId) {
    exists run :: RunCancel(sid, run) in attempts
  }

  /** The histories of `t` continue those of `s`. */
  ghost predicate Continues(s: Log, t: Log) {
    s.cascaded <= t.cascaded && s.attempts <= t.attempts && s.issued <= t.issued
  }

  /** The ask was pending in `s`, or was put to the client since. */
  ghost predicate HeldSince(s: Host, t: Log, a: Ask)
    requires s.log.issued <= t.issued
  {
    (a.id in s.pendingPermissions && s.pendingPermissions[a.id] == a.permission) || a in t.issued[|s.log.issued|..]
  }

  /** Between `s` and `t` the ask was swept, and in that same stretch a RunCancel for its session attempted. */
  ghost predicate SweptBetween(s: Host, t: Host, a: Ask) {
    && Continues(s.log, t.log)
    && a in t.log.cascaded[|s.log.cascaded|..] && a.id !in t.pendingPermissions
    && HeldSince(s, t.log, a)
    && HasCancel(t.log.attempts[|s.log.attempts|..], a.permission.session)
  }

  ghost predicate SweepsWithCancel(s: Host, t: Host) {
    && Continues(s.log, t.log)
    && forall a | a in t.log.cascaded[|s.log.cascaded|..] :: SweptBetween(s, t, a)
  }

  lemma {:induction false} AsksKeepSession(s: Host, order: seq<JsonRpcId>, sid: SessionId)
    requires forall id | id in order :: id in CascadeIds(s, sid)
    ensures forall a | a in AsksOf(s.pendingPermissions, order) ::
      && a.permission.session == sid && a.id in order
      && a.id in s.pendingPermissions && s.pendingPermissions[a.id] == a.permission
  {
    if order != [] {
      AsksKeepSession(s, order[..|order| - 1], sid);
      assert order[|order| - 1] in order;
    }
  }

  /** A session cancel sweeps only together with a RunCancel for its session. */
  lemma CancelSessionSweeps(s: Host, sid: SessionId, order: seq<JsonRpcId>)
    requires Enumerates(order, CascadeIds(s, sid))
    requires !s.initialized ==> s.occupancy == map[]
    ensures SweepsWithCancel(s, CancelSession(s, sid, order))
  {
    if sid in s.occupancy && s.occupancy[sid].runId.Some? {
      var t := CancelSession(s, sid, order);
      var run := s.occupancy[sid].runId.value;
      assert t.log.attempts == s.log.attempts + [RunCancel(sid, run)];
      assert t.log.attempts[|s.log.attempts|..] == [RunCancel(sid, run)];
      assert t.log.cascaded[|s.log.cascaded|..] == AsksOf(s.pendingPermissions, order);
      AsksKeepSession(s, order, sid);
      assert RunCancel(sid, run) in t.log.attempts[|s.log.attempts|..];
    }
  }

  /** Nothing was swept, and no record taken back. */
  ghost predicate SweepsNothing(s: Log, t: Log) {
    t.cascaded == s.cascaded && s.attempts <= t.attempts && s.issued <= t.issued
  }

  lemma SweepsNothingSuffices(s: Host, t: Host)
    requires SweepsNothing(s.log, t.log)
    ensures SweepsWithCancel(s, t)
  {
  }

  /** What is pending in `u` was pending in `s`, or has been issued since. */
  ghost predicate OnlyIssued(s: Host, u: Host) {
    && u.log.cascaded == s.log.cascaded && u.log.attempts == s.log.attempts && s.log.issued <= u.log.issued
    && forall id | id in u.pendingPermissions :: HeldSince(s, u.log, Ask(id, u.pendingPermissions[id]))
  }

  lemma OnlyIssuedTrans(s: Host, u: Host, t: Host)
    requires OnlyIssued(s, u) && OnlyIssued(u, t)
    ensures OnlyIssued(s, t)
  {
    forall id | id in t.pendingPermissions ensures HeldSince(s, t.log, Ask(id, t.pendingPermissions[id])) {
      var a := Ask(id, t.pendingPermissions[id]);
      assert HeldSince(u, t.log, a);
      IssuedSince(s.log.issued, u.log.issued, t.log.issued, a);
      if id in u.pendingPermissions { assert HeldSince(s, u.log, Ask(id, u.pendingPermissions[id])); }
    }
  }

  lemma IssuedSince(a: seq<Ask>, b: seq<Ask>, c: seq<Ask>, x: Ask)
    requires a <= b <= c
    ensures x in b[|a|..] || x in c[|b|..] ==> x in c[|a|..]
  {
    assert c[|a|..] == b[|a|..] + c[|b|..];
  }

  lemma RouteOnlyIssues(s: Host, e: Envelope)
    ensures OnlyIssued(s, RouteOrHold(s, e))
  {
    RouteAsks(s, e);
    var t := RouteOrHold(s, e);
    hide RouteOrHold, ResolveClientSession;
    if !SameAsks(s, t) && s.initialized {
      assert t.log.issued[|s.log.issued|..] == [t.log.issued[|s.log.issued|]];
    }
  }

  lemma {:induction false} RouteAllOnlyIssues(s: Host, events: seq<Envelope>)
    ensures OnlyIssued(s, RouteAll(s, events))
    decreases |events|
  {
    if events != [] {
      RouteOnlyIssues(s, events[0]);
      RouteAllOnlyIssues(RouteOrHold(s, events[0]), events[1..]);
      hide OnlyIssued, RouteOrHold;
      OnlyIssuedTrans(s, RouteOrHold(s, events[0]), RouteAll(s, events));
    }
  }

  /** What only issues can be put in front of what sweeps. */
  lemma SweepsAfterIssues(s: Host, u: Host, t: Host)
    requires OnlyIssued(s, u) && SweepsWithCancel(u, t)
    ensures SweepsWithCancel(s, t)
  {
    forall a | a in t.log.cascaded[|s.log.cascaded|..] ensures SweptBetween(s, t, a) {
      assert SweptBetween(u, t, a);
      IssuedSince(s.log.issued, u.log.issued, t.log.issued, a);
      if a.id in u.pendingPermissions { assert HeldSince(s, u.log, Ask(a.id, u.pendingPermissions[a.id])); }
    }
  }

  lemma ReplaySweeps(s: Host, f: Flight, order: seq<JsonRpcId>)
    requires s.initialized && f.PromptFlight? && Enumerates(order, CascadeIds(s, f.session))
    ensures SweepsWithCancel(s, ReplayEarlyCancels(s, f, order))
  {
    var t := ClearEarlyCancels(s, f.session);
    assert CascadeIds(t, f.session) == CascadeIds(s, f.session);
    assert OnlyIssued(s, t);
    CancelSessionSweeps(t, f.session, order);
    RequestCancelSweepsNothing(t, f.requestId);
    SweepsNothingSuffices(t, CancelRequest(t, f.requestId));
    SweepsNothingSuffices(t, t);
    hide SweepsWithCancel, OnlyIssued, CancelSession, CancelRequest, ClearEarlyCancels;
    SweepsAfterIssues(s, t, ReplayEarlyCancels(s, f, order));
  }

  lemma RequestCancelSweepsNothing(s: Host, id: JsonRpcId)
    ensures SweepsNothing(s.log, CancelRequest(s, id).log)
  {
    CancelRequestCases(s, id);
    hide CancelRequest, FindSlot;
  }

  lemma PlainReplySweepsNothing(s: Host, reply: Reply, order: seq<JsonRpcId>)
    requires Coupled(s) && s.inFlight.Some?
    requires var f := s.inFlight.value; !(f.PromptFlight? && f.session in s.occupancy && reply.Accepted?)
    ensures SweepsNothing(s.log, CoreReply(s, reply, order).log)
  {
    hide SnapshotOf, FlushHeldEvents, ReplayEarlyCancels;
  }

  lemma ReplySweeps(s: Host, reply: Reply, order: seq<JsonRpcId>)
    requires Coupled(s) && Allowed(s, Step.Reply(reply, order))
    ensures SweepsWithCancel(s, CoreReply(s, reply, order))
  {
    var f := s.inFlight.value;
    if f.PromptFlight? && f.session in s.occupancy && reply.Accepted? {
      var s1 := Bind(NoteAccepted(s.(inFlight := None), reply.run), f, reply.run).(heldEvents := []);
      RouteAllKeepsFrame(s1, s.heldEvents);
      RouteAllOnlyIssues(s1, s.heldEvents);
      var u := RouteAll(s1, s.heldEvents);
      assert OnlyIssued(s, s1);
      OnlyIssuedTrans(s, s1, u);
      hide OnlyIssued, SweepsWithCancel, ReplayEarlyCancels;
      ReplaySweeps(u, f, order);
      SweepsAfterIssues(s, u, ReplayEarlyCancels(u, f, order));
    } else {
      PlainReplySweepsNothing(s, reply, order);
      SweepsNothingSuffices(s, CoreReply(s, reply, order));
    }
  }

  lemma QuietStepSweepsNothing(s: Host, step: Step)
    requires Allowed(s, step)
    requires !step.Reply? && !step.SessionCancel? && !step.CloseSession? && !step.Pump?
    ensures SweepsNothing(s.log, Next(s, step).log)
  {
    hide CancelRequest, HandleResponse, FailClosed, BeginPrompt, DrainOutbox, ConsumeOne, ReleaseHanded, LoseHanded;
    hide CancelSession, CoreReply, PumpEvents, SnapshotOf;
    if step.RequestCancel? { RequestCancelSweepsNothing(s, step.id); }
    if step.FailAll? { FailClosedSweepsNothing(s, step.orders); }
    if step.Prompt? { BeginSameAsks(s, step.id, step.session, step.admission); }
    if step.Answer? { AnswerSweepsNothing(s, step.id, step.answer); }
    OutboxSweepsNothing(s);
  }

  lemma FailClosedSweepsNothing(s: Host, orders: Orders)
    requires OrdersFor(orders, s)
    ensures SweepsNothing(s.log, FailClosed(s, orders).log)
  {
    hide SnapshotOf, BarrierDeliveries, FailedDeliveries, RunCancels, Denials;
  }

  lemma AnswerSweepsNothing(s: Host, id: JsonRpcId, answer: PermissionAnswer)
    ensures SweepsNothing(s.log, HandleResponse(s, id, answer).log)
  {
    hide DecisionFor;
  }

  lemma OutboxSweepsNothing(s: Host)
    ensures SweepsNothing(s.log, DrainOutbox(s).log) && SweepsNothing(s.log, ConsumeOne(s).log)
    ensures SweepsNothing(s.log, ReleaseHanded(s).log) && SweepsNothing(s.log, LoseHanded(s).log)
  {
    hide BarrierDeliveries, Completions;
  }

  /** In every step, whatever is swept is swept together with a RunCancel for its session. */
  lemma StepSweepsWithCancel(s: Host, step: Step)
    requires Coupled(s) && Allowed(s, step)
    ensures SweepsWithCancel(s, Next(s, step))
  {
    hide SweepsWithCancel, CoreReply, CancelSession, PumpEvents, AfterFlush, Linked, UnboundIs;
    if step.Reply? {
      ReplySweeps(s, step.reply, step.order);
    } else if step.SessionCancel? || step.CloseSession? {
      if s.initialized { CancelSessionSweeps(s, step.session, step.order); }
      SweepsNothingSuffices(s, s);
    } else {
      if step.Pump? { PumpSweepsNothing(s, step.events); } else { QuietStepSweepsNothing(s, step); }
      hide Next;
      SweepsNothingSuffices(s, Next(s, step));
    }
  }

  lemma {:induction false} PumpSweepsNothing(s: Host, events: seq<Envelope>)
    ensures SweepsNothing(s.log, PumpEvents(s, events).log)
    decreases |events|
  {
    if events != [] {
      var s1 := s.(log := s.log.(arrived := s.log.arrived + [events[0]]));
      RouteOnlyIssues(s1, events[0]);
      hide RouteOrHold;
      PumpSweepsNothing(Receive(s, events[0]), events[1..]);
    }
  }

  /** Some step of the run swept the ask, together with a RunCancel for its session. */
  ghost predicate SweptAlong(s: Host, steps: seq<Step>, a: Ask)
    requires AllowedRun(s, steps)
    decreases |steps|
  {
    steps != [] &&
    (SweptBetween(s, Next(s, steps[0]), a) || SweptAlong(Next(s, steps[0]), steps[1..], a))
  }

  /** Over every run: whatever was swept was swept in a step that attempted a RunCancel for its session. */
  lemma {:induction false} SweptOnlyWithCancel(s: Host, steps: seq<Step>, a: Ask)
    requires Coupled(s) && AllowedRun(s, steps)
    ensures a in Run(s, steps).log.cascaded ==> a in s.log.cascaded || SweptAlong(s, steps, a)
    decreases |steps|
  {
    if steps != [] {
      var t := Next(s, steps[0]);
      StepKeepsCoupled(s, steps[0]);
      StepSweepsWithCancel(s, steps[0]);
      assert a in t.log.cascaded ==> a in s.log.cascaded || SweptBetween(s, t, a) by {
        assert t.log.cascaded == s.log.cascaded + t.log.cascaded[|s.log.cascaded|..];
      }
      hide Next, Coupled, SweptBetween, SweepsWithCancel;
      SweptOnlyWithCancel(t, steps[1..], a);
    }
  }

  /**
   * Each ask ever issued is in exactly one of three places: still pending; settled
   * by the one ToolApprove for it; or swept, once, by a step that attempted a
   * RunCancel for its session. An ask never issued is in none.
   */
  lemma EveryExitIsPaired(steps: seq<Step>, a: Ask)
    requires AllowedRun(INITIAL_HOST, steps) && |Run(INITIAL_HOST, steps).log.issued| <= MAX_U64
    ensures var s := Run(INITIAL_HOST, steps);
      && multiset(PendingAsks(s.pendingPermissions))[a] + ApprovedAsks(s.log.attempts)[a] + multiset(s.log.cascaded)[a]
         == (if a in s.log.issued then 1 else 0)
      && (a in s.log.cascaded ==> SweptAlong(INITIAL_HOST, steps, a))
  {
    EveryAskLeavesOnce(steps);
    InitiallyCoupled();
    SweptOnlyWithCancel(INITIAL_HOST, steps, a);
    var s := Run(INITIAL_HOST, steps);
    IssuedOnce(s.log.issued);
    assert multiset(s.log.issued)[a] <= 1 && (a in multiset(s.log.issued) <==> a in s.log.issued);
    assert multiset(s.log.issued)[a] == multiset(PendingAsks(s.pendingPermissions))[a] + Settled(s)[a];
  }
}
