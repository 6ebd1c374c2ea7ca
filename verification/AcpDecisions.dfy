/**
 * What a handler does for the permissions it touches: which decision Core is told,
 * what a session cancel sweeps and announces, and the numbers the client is shown.
 */
module AcpDecisions {
  import opened Common
  import opened AcpTypes
  import opened AcpHost
  import opened AcpCoupling
  import opened AcpOrder
  import opened AcpPermissions
  import opened AcpCancel

  // --------------------------------------------------------------- what a cancel sweeps

  /**
   * From `s` to `t` exactly the session's permissions left the table, and exactly one
   * notice for each was put behind the outbox.
   */
  ghost predicate SessionSwept(s: Host, t: Host, sid: SessionId) {
    && (forall id :: id in t.pendingPermissions <==>
          id in s.pendingPermissions && s.pendingPermissions[id].session != sid)
    && (forall id | id in t.pendingPermissions :: t.pendingPermissions[id] == s.pendingPermissions[id])
    && exists q: seq<JsonRpcId> :: Notified(s, t, sid, q)
  }

  /** `q` lists each of the session's permissions once, and the notices in the outbox are for these. */
  ghost predicate Notified(s: Host, t: Host, sid: SessionId, q: seq<JsonRpcId>) {
    && Distinct(q)
    && (forall id :: id in q <==> id in s.pendingPermissions && s.pendingPermissions[id].session == sid)
    && |t.outbox| == |s.outbox| + |q| && s.outbox <= t.outbox
    && forall i | 0 <= i < |q| :: t.outbox[|s.outbox| + i] == Frame(CancelNotice(q[i]))
  }

  lemma CascadeSweeps(s: Host, sid: SessionId, order: seq<JsonRpcId>)
    requires Enumerates(order, CascadeIds(s, sid))
    ensures SessionSwept(s, Cascade(s, order), sid)
  {
    var t := Cascade(s, order);
    assert t.outbox == s.outbox + CancelNotices(order);
    assert Notified(s, t, sid, order);
    hide AsksOf;
  }

  lemma SweptElsewhere(s: Host, u: Host, t: Host, sid: SessionId)
    requires SessionSwept(u, t, sid) && u.pendingPermissions == s.pendingPermissions && u.outbox == s.outbox
    ensures SessionSwept(s, t, sid)
  {
    var q :| Notified(u, t, sid, q);
    assert Notified(s, t, sid, q);
  }


  /**
   * A session cancel sweeps the session's permissions if its run is bound, and
   * otherwise touches neither table nor outbox.
   */
  lemma CancelSweepsIff(s: Host, sid: SessionId, order: seq<JsonRpcId>)
    requires Enumerates(order, CascadeIds(s, sid))
    ensures var t := CancelSession(s, sid, order);
      if sid in s.occupancy && s.occupancy[sid].runId.Some? then SessionSwept(s, t, sid)
      else t.pendingPermissions == s.pendingPermissions && t.outbox == s.outbox
  {
    if sid in s.occupancy && s.occupancy[sid].runId.Some? {
      var s1 := s.(occupancy := s.occupancy[sid := s.occupancy[sid].(earlySessionCancel := false)]);
      var u := TryDispatch(s1, [RunCancel(sid, s.occupancy[sid].runId.value)]);
      assert u.pendingPermissions == s.pendingPermissions && u.outbox == s.outbox;
      assert CascadeIds(u, sid) == CascadeIds(s, sid);
      CascadeSweeps(u, sid, order);
      hide SessionSwept, Cascade, TryDispatch;
      SweptElsewhere(s, u, Cascade(u, order), sid);
    }
  }

  /** So do the two steps that cancel a session. */
  lemma CancelStepSweeps(s: Host, step: Step)
    requires Coupled(s) && Allowed(s, step) && (step.SessionCancel? || step.CloseSession?)
    requires step.session in s.occupancy && s.occupancy[step.session].runId.Some?
    ensures SessionSwept(s, Next(s, step), step.session)
  {
    CancelSweepsIff(s, step.session, step.order);
    assert SlotLinked(step.session, s.occupancy[step.session], s.runSessions, s.pendingPrompts);
    hide SessionSwept, CancelSession;
  }

  /**
   * And so does Core's acceptance of a prompt whose session was cancelled meanwhile:
   * beside what the held events did, it sweeps what is then pending for the session.
   */
  lemma ReplayedCancelSweeps(s: Host, f: Flight, run: RunId, order: seq<JsonRpcId>)
    requires Awaited(s, f, run) && InOrder(s, []) && Allowed(s, Step.Reply(Accepted(run), order))
    requires f.session in s.occupancy && s.occupancy[f.session].earlySessionCancel && !EndedBeforeBinding(s, run)
    ensures SessionSwept(AfterFlush(s, f, run), Next(s, Step.Reply(Accepted(run), order)), f.session)
  {
    AfterBinding(s, f, run);
    SlotAfterFlush(s, f, run);
    var u := AfterFlush(s, f, run);
    ReplySplits(s, f, run, order);
    hide AfterFlush, SessionSwept, ReplayEarlyCancels, CoreReply, EndedBeforeBinding, InOrder;
    ReplaySweepsSession(u, f, order);
  }

  lemma ReplySplits(s: Host, f: Flight, run: RunId, order: seq<JsonRpcId>)
    requires s.inFlight == Some(f) && f.PromptFlight? && f.session in s.occupancy
    ensures CoreReply(s, Accepted(run), order) == ReplayEarlyCancels(AfterFlush(s, f, run), f, order)
  {
    hide ReplayEarlyCancels, FlushHeldEvents;
  }

  lemma ReplaySweepsSession(u: Host, f: Flight, order: seq<JsonRpcId>)
    requires f.PromptFlight? && f.session in u.occupancy && u.occupancy[f.session].runId.Some?
    requires u.occupancy[f.session].earlySessionCancel && Enumerates(order, CascadeIds(u, f.session))
    ensures SessionSwept(u, ReplayEarlyCancels(u, f, order), f.session)
  {
    var u1 := ClearEarlyCancels(u, f.session);
    assert CascadeIds(u1, f.session) == CascadeIds(u, f.session);
    CancelSweepsIff(u1, f.session, order);
    hide SessionSwept, CancelSession;
    SweptElsewhere(u, u1, CancelSession(u1, f.session, order), f.session);
  }

  // ------------------------------------------------------------- which decision Core is told

  /** The attempts that `t` made beyond `s`. */
  function NewAttempts(s: Log, t: Log): seq<Attempt>
    requires s.attempts <= t.attempts
  {
    t.attempts[|s.attempts|..]
  }

  predicate ClientAllows(step: Step, id: JsonRpcId) {
    step == Answer(id, SelectedAllowOnce)
  }

  /** The client's answer is a cancellation, or the request under that id is cancelled, now or by replay. */
  predicate ClientCancels(s: Host, step: Step, id: JsonRpcId) {
    || step == Answer(id, OutcomeCancelled) || step == Answer(id, ErrorRequestCancelled)
    || step == RequestCancel(id)
    || (step.Reply? && s.inFlight.Some? && s.inFlight.value.PromptFlight? && s.inFlight.value.requestId == id)
  }

  /** An approval is what the client allowed; a cancellation what it cancelled; all else is a denial. */
  predicate Fits(s: Host, step: Step, a: Attempt) {
    a.ToolApprove? ==>
      && (a.decision == ApproveOnce <==> ClientAllows(step, a.permission))
      && (a.decision == CancelTool <==> ClientCancels(s, step, a.permission))
      && (a.decision == Deny <==> !ClientAllows(step, a.permission) && !ClientCancels(s, step, a.permission))
  }

  ghost predicate StepFits(s: Host, step: Step, t: Host) {
    && s.log.attempts <= t.log.attempts
    && forall a | a in NewAttempts(s.log, t.log) :: Fits(s, step, a)
  }

  lemma NothingNewFits(s: Host, step: Step, t: Host)
    requires t.log.attempts == s.log.attempts
    ensures StepFits(s, step, t)
  {
  }

  lemma OneNewFits(s: Host, step: Step, t: Host, a: Attempt)
    requires t.log.attempts == s.log.attempts || t.log.attempts == s.log.attempts + [a]
    requires Fits(s, step, a)
    ensures StepFits(s, step, t)
  {
    assert (s.log.attempts + [a])[|s.log.attempts|..] == [a];
  }

  /** The client's answer is passed on, for the run and tool that asked: once, and as it was given. */
  lemma AnswerIsPassedOn(s: Host, id: JsonRpcId, answer: PermissionAnswer)
    requires Coupled(s) && Allowed(s, Answer(id, answer)) && id in s.pendingPermissions
    ensures var t := Next(s, Answer(id, answer)); var p := s.pendingPermissions[id];
      && t.pendingPermissions == s.pendingPermissions - {id}
      && t.log.attempts == s.log.attempts + [ToolApprove(id, p.session, p.run, p.tool,
           if answer == SelectedAllowOnce then ApproveOnce
           else if answer == OutcomeCancelled || answer == ErrorRequestCancelled then CancelTool
           else Deny)]
  {
  }

  lemma AnswerFits(s: Host, id: JsonRpcId, answer: PermissionAnswer)
    requires Coupled(s) && Allowed(s, Answer(id, answer))
    ensures StepFits(s, Answer(id, answer), Next(s, Answer(id, answer)))
  {
    var step := Answer(id, answer);
    if id in s.pendingPermissions {
      AnswerIsPassedOn(s, id, answer);
      var a := Next(s, step).log.attempts[|s.log.attempts|];
      OneNewFits(s, step, Next(s, step), a);
    } else {
      NothingNewFits(s, step, Next(s, step));
    }
  }

  lemma RequestCancelFits(s: Host, step: Step, id: JsonRpcId, t: Host)
    requires ClientCancels(s, step, id) && !ClientAllows(step, id)
    requires t.log.attempts == CancelRequest(s, id).log.attempts
    ensures StepFits(s, step, t)
  {
    CancelRequestCases(s, id);
    if id in s.pendingPrompts {
      OneNewFits(s, step, t, RunCancel(s.pendingPrompts[id].session, s.pendingPrompts[id].run));
    } else if id in s.pendingPermissions {
      var p := s.pendingPermissions[id];
      OneNewFits(s, step, t, ToolApprove(id, p.session, p.run, p.tool, CancelTool));
    } else {
      NothingNewFits(s, step, t);
    }
  }

  lemma CancelSessionAttempts(s: Host, sid: SessionId, order: seq<JsonRpcId>)
    ensures var t := CancelSession(s, sid, order);
      || t.log.attempts == s.log.attempts
      || (sid in s.occupancy && s.occupancy[sid].runId.Some?
          && t.log.attempts == s.log.attempts + [RunCancel(sid, s.occupancy[sid].runId.value)])
  {
    hide AsksOf, CancelNotices;
  }

  lemma SessionCancelFits(s: Host, step: Step, sid: SessionId, order: seq<JsonRpcId>, t: Host)
    requires t.log.attempts == CancelSession(s, sid, order).log.attempts
    ensures StepFits(s, step, t)
  {
    CancelSessionAttempts(s, sid, order);
    hide CancelSession;
    if t.log.attempts != s.log.attempts {
      OneNewFits(s, step, t, RunCancel(sid, s.occupancy[sid].runId.value));
    } else {
      NothingNewFits(s, step, t);
    }
  }

  lemma FailClosedFits(s: Host, orders: Orders)
    requires Coupled(s) && OrdersFor(orders, s)
    ensures StepFits(s, FailAll(orders), FailClosed(s, orders))
  {
    var step := FailAll(orders);
    var cancels, denials := RunCancels(s.runSessions, orders.runs), Denials(s.pendingPermissions, orders.permissions);
    FailClosedAttempts(s, orders);
    forall a | a in cancels + denials ensures Fits(s, step, a) {
      CancelsAndDenials(s, orders, a);
    }
    var t := FailClosed(s, orders);
    assert s.initialized ==> t.log.attempts[|s.log.attempts|..] == cancels + denials;
    hide FailClosed, RunCancels, Denials, Fits;
  }

  lemma CancelsAndDenials(s: Host, orders: Orders, a: Attempt)
    requires OrdersFor(orders, s)
    requires a in RunCancels(s.runSessions, orders.runs) + Denials(s.pendingPermissions, orders.permissions)
    ensures a.ToolApprove? ==> a.decision == Deny
  {
  }

  lemma FailClosedAttempts(s: Host, orders: Orders)
    requires OrdersFor(orders, s)
    ensures FailClosed(s, orders).log.attempts == s.log.attempts +
      (if s.initialized
       then RunCancels(s.runSessions, orders.runs) + Denials(s.pendingPermissions, orders.permissions) else [])
  {
    hide RunCancels, Denials, FailedDeliveries, BarrierDeliveries, SnapshotOf;
  }

  lemma ReplayFits(s: Host, step: Step, u: Host, f: Flight, order: seq<JsonRpcId>)
    requires s.inFlight == Some(f) && f.PromptFlight? && step.Reply? && u.log.attempts == s.log.attempts
    ensures StepFits(s, step, ReplayEarlyCancels(u, f, order))
  {
    var u1 := ClearEarlyCancels(u, f.session);
    var t := ReplayEarlyCancels(u, f, order);
    if f.session in u.occupancy && u.occupancy[f.session].earlySessionCancel {
      CancelSessionAttempts(u1, f.session, order);
      hide CancelSession, ReplayEarlyCancels;
      if t.log.attempts != s.log.attempts {
        OneNewFits(s, step, t, RunCancel(f.session, u1.occupancy[f.session].runId.value));
      } else {
        NothingNewFits(s, step, t);
      }
    } else {
      RequestReplayAttempts(u1, f.requestId);
      hide CancelRequest, FindSlot;
      if t.log.attempts != s.log.attempts {
        OneNewFits(s, step, t, t.log.attempts[|s.log.attempts|]);
      } else {
        NothingNewFits(s, step, t);
      }
    }
  }

  lemma RequestReplayAttempts(s: Host, id: JsonRpcId)
    ensures var t := CancelRequest(s, id);
      || t.log.attempts == s.log.attempts
      || (id in s.pendingPrompts
          && t.log.attempts == s.log.attempts + [RunCancel(s.pendingPrompts[id].session, s.pendingPrompts[id].run)])
      || (id in s.pendingPermissions
          && var p := s.pendingPermissions[id];
             t.log.attempts == s.log.attempts + [ToolApprove(id, p.session, p.run, p.tool, CancelTool)])
  {
    CancelRequestCases(s, id);
    hide CancelRequest, FindSlot;
  }

  lemma ReplyFits(s: Host, reply: Reply, order: seq<JsonRpcId>)
    requires Coupled(s) && Allowed(s, Step.Reply(reply, order))
    ensures StepFits(s, Step.Reply(reply, order), CoreReply(s, reply, order))
  {
    var f := s.inFlight.value;
    var step := Step.Reply(reply, order);
    if f.PromptFlight? && f.session in s.occupancy && reply.Accepted? {
      var s1 := Bind(NoteAccepted(s.(inFlight := None), reply.run), f, reply.run).(heldEvents := []);
      RouteAllKeepsFrame(s1, s.heldEvents);
      var u := AfterFlush(s, f, reply.run);
      assert u == RouteAll(s1, s.heldEvents);
      ReplySplits(s, f, reply.run, order);
      hide StepFits, ReplayEarlyCancels, AfterFlush, RouteAll, CoreReply;
      ReplayFits(s, step, u, f, order);
    } else {
      PlainReplyAttempts(s, reply, order);
      hide CoreReply;
      var t := CoreReply(s, reply, order);
      if t.log.attempts != s.log.attempts {
        OneNewFits(s, step, t, t.log.attempts[|s.log.attempts|]);
      } else {
        NothingNewFits(s, step, t);
      }
    }
  }

  lemma PlainReplyAttempts(s: Host, reply: Reply, order: seq<JsonRpcId>)
    requires s.inFlight.Some?
    requires var f := s.inFlight.value; !(f.PromptFlight? && f.session in s.occupancy && reply.Accepted?)
    ensures var t := CoreReply(s, reply, order);
      || t.log.attempts == s.log.attempts
      || (s.inFlight.value.PromptFlight? && reply.Accepted?
          && t.log.attempts == s.log.attempts + [RunCancel(s.inFlight.value.session, reply.run)])
  {
    hide SnapshotOf, FlushHeldEvents, ReplayEarlyCancels;
  }

  lemma QuietAttempts(s: Host, step: Step)
    requires Allowed(s, step)
    requires step.Initialize? || step.Prompt? || step.CreateSession? || step.Drain? || step.Consume?
      || step.ReleaseBatch? || step.LoseBatch? || step.Skip? || step.Pump?
    ensures Next(s, step).log.attempts == s.log.attempts
  {
    hide CancelSession, CancelRequest, FailClosed, CoreReply, PumpEvents, SnapshotOf, BarrierDeliveries, Completions;
    if step.Pump? { PumpKeepsFrame(s, step.events); }
    if step.Prompt? { BeginSameAsks(s, step.id, step.session, step.admission); }
    hide BeginPrompt;
  }

  /** In every step: a ToolApprove newly attempted says what the client said, and nothing it did not say. */
  lemma StepDecisionsFit(s: Host, step: Step)
    requires Coupled(s) && Allowed(s, step)
    ensures StepFits(s, step, Next(s, step))
  {
    hide StepFits, CancelSession, CancelRequest, FailClosed, CoreReply;
    hide Coupled, PumpEvents, BeginPrompt, HandleResponse;
    if step.Answer? {
      AnswerFits(s, step.id, step.answer);
    } else if step.RequestCancel? {
      if s.initialized { RequestCancelFits(s, step, step.id, Next(s, step)); } else { NothingNewFits(s, step, s); }
    } else if step.SessionCancel? || step.CloseSession? {
      if s.initialized { SessionCancelFits(s, step, step.session, step.order, Next(s, step)); }
      else { NothingNewFits(s, step, s); }
    } else if step.FailAll? {
      FailClosedFits(s, step.orders);
    } else if step.Reply? {
      ReplyFits(s, step.reply, step.order);
    } else {
      QuietAttempts(s, step);
      hide Next;
      NothingNewFits(s, step, Next(s, step));
    }
  }

  /** Over every run: no tool is approved that the client did not allow, and none cancelled that it did not cancel. */
  lemma {:induction false} OnlyAllowedIsApproved(s: Host, steps: seq<Step>, a: Attempt)
    requires Coupled(s) && AllowedRun(s, steps) && a.ToolApprove?
    requires a in Run(s, steps).log.attempts
    ensures a.decision == ApproveOnce ==> a in s.log.attempts || Answer(a.permission, SelectedAllowOnce) in steps
    ensures a.decision == CancelTool ==> a in s.log.attempts || CancelledAlong(s, steps, a.permission)
    decreases |steps|
  {
    if steps != [] {
      StepKeepsCoupled(s, steps[0]);
      StepDecisionsFit(s, steps[0]);
      var t := Next(s, steps[0]);
      assert t.log.attempts == s.log.attempts + NewAttempts(s.log, t.log);
      assert steps == [steps[0]] + steps[1..];
      hide Next, Coupled;
      OnlyAllowedIsApproved(t, steps[1..], a);
    }
  }

  ghost predicate CancelledAlong(s: Host, steps: seq<Step>, id: JsonRpcId)
    requires AllowedRun(s, steps)
    decreases |steps|
  {
    steps != [] && (ClientCancels(s, steps[0], id) || CancelledAlong(Next(s, steps[0]), steps[1..], id))
  }

  /** From the start: every approval that Core was asked for answers an "allow once" for that very request. */
  lemma NoApprovalWithoutAllow(steps: seq<Step>, a: Attempt)
    requires AllowedRun(INITIAL_HOST, steps) && a in Run(INITIAL_HOST, steps).log.attempts
    requires a.ToolApprove? && a.decision == ApproveOnce
    ensures Answer(a.permission, SelectedAllowOnce) in steps
  {
    InitiallyCoupled();
    OnlyAllowedIsApproved(INITIAL_HOST, steps, a);
  }

  // ------------------------------------------------------------- the number the client is shown

  /** The requests that the frames among `items` put to the client, under the ids they show. */
  function AskedIn(items: seq<OutboxItem>): seq<Ask> {
    if items == [] then []
    else
      var rest := AskedIn(items[..|items| - 1]);
      match items[|items| - 1]
      case Frame(PermissionFrame(id, sid, run, tool, _)) => rest + [Ask(id, PendingPermission(run, tool, sid))]
      case _ => rest
  }

  lemma {:induction false} AskedAppend(a: seq<OutboxItem>, b: seq<OutboxItem>)
    ensures AskedIn(a + b) == AskedIn(a) + AskedIn(b)
  {
    if b == [] {
      assert a + b == a;
    } else {
      assert (a + b)[..|a + b| - 1] == a + b[..|b| - 1];
      AskedAppend(a, b[..|b| - 1]);
    }
  }

  lemma AskedOne(x: OutboxItem)
    ensures AskedIn([x]) ==
      match x
      case Frame(PermissionFrame(id, sid, run, tool, _)) => [Ask(id, PendingPermission(run, tool, sid))]
      case _ => []
  {
    assert [x][..0] == [] && AskedIn([x][..0]) == [];
  }

  lemma {:induction false} NoticesAskNothing(ids: seq<JsonRpcId>)
    ensures AskedIn(CancelNotices(ids)) == []
  {
    if ids != [] {
      var n := |ids| - 1;
      NoticesAskNothing(ids[..n]);
      assert CancelNotices(ids)[..n] == CancelNotices(ids[..n]);
    }
  }

  /** The frames put out since the last fail-closed show exactly the latest requests issued, each under its own id. */
  ghost predicate ShowsIssued(s: Log) {
    var asked := AskedIn(s.emitted);
    |asked| <= |s.issued| && s.issued[|s.issued| - |asked|..] == asked
  }

  /** Between `s` and `t`, what was shown is what was issued. */
  ghost predicate ShowsNew(s: Log, t: Log) {
    && s.emitted <= t.emitted && s.issued <= t.issued
    && AskedIn(t.emitted[|s.emitted|..]) == t.issued[|s.issued|..]
  }

  lemma ShowsNewSuffices(s: Log, t: Log)
    requires ShowsIssued(s) && ShowsNew(s, t)
    ensures ShowsIssued(t)
  {
    var items := t.emitted[|s.emitted|..];
    assert t.emitted == s.emitted + items;
    AskedAppend(s.emitted, items);
    assert t.issued == s.issued + t.issued[|s.issued|..];
  }

  lemma ShowsNewTrans(s: Log, t: Log, u: Log)
    requires ShowsNew(s, t) && ShowsNew(t, u)
    ensures ShowsNew(s, u)
  {
    assert u.emitted[|s.emitted|..] == t.emitted[|s.emitted|..] + u.emitted[|t.emitted|..];
    AskedAppend(t.emitted[|s.emitted|..], u.emitted[|t.emitted|..]);
    assert u.issued[|s.issued|..] == t.issued[|s.issued|..] + u.issued[|t.issued|..];
  }

  /** Items that ask nothing, and nothing issued. */
  lemma ShowsNothing(s: Log, t: Log, items: seq<OutboxItem>)
    requires t.emitted == s.emitted + items && t.issued == s.issued && AskedIn(items) == []
    ensures ShowsNew(s, t)
  {
    assert t.emitted[|s.emitted|..] == items;
  }

  lemma PermissionShows(s: Host, sid: SessionId, run: RunId, tool: ToolCallId, reason: string)
    ensures ShowsNew(s.log, EmitPermissionRequest(s, sid, run, tool, reason).log)
  {
    var t := EmitPermissionRequest(s, sid, run, tool, reason);
    if s.initialized {
      var x := Frame(PermissionFrame(NumberId(s.nextRequestId), sid, run, tool, reason));
      assert t.log.emitted == s.log.emitted + [x];
      assert t.log.emitted[|s.log.emitted|..] == [x];
      AskedOne(x);
      assert t.log.issued[|s.log.issued|..] == [Ask(NumberId(s.nextRequestId), PendingPermission(run, tool, sid))];
    } else {
      ShowsNothing(s.log, t.log, []);
    }
  }

  lemma OtherItemShowsNothing(s: Log, t: Log, x: OutboxItem)
    requires x.FlushBarrier? || x.frame.UpdateFrame? || x.frame.CancelNotice?
    requires t.issued == s.issued && (t.emitted == s.emitted || t.emitted == s.emitted + [x])
    ensures ShowsNew(s, t)
  {
    AskedOne(x);
    ShowsNothing(s, t, if t.emitted == s.emitted then [] else [x]);
    assert s.emitted + [] == s.emitted;
  }

  lemma ResolveEmits(s: Host, run: RunId, state: RunState)
    ensures var t := ResolvePrompt(s, run, state);
      && t.log.issued == s.log.issued
      && (t.log.emitted == s.log.emitted
          || exists c, r :: t.log.emitted == s.log.emitted + [FlushBarrier(run, c, r)])
  {
    hide FindPrompt, ResolutionOf, SnapshotOf;
  }

  lemma UpdateEmits(s: Host, e: Envelope)
    ensures var t := EmitUpdate(s, e);
      && t.log.issued == s.log.issued
      && (t.log.emitted == s.log.emitted
          || exists sid, r, u :: t.log.emitted == s.log.emitted + [Frame(UpdateFrame(sid, r, u))])
  {
    hide ResolveClientSession;
    var sid := ResolveClientSession(s.published.runSessions, e);
    var update := TranslateSessionUpdate(e.payload);
    if s.initialized && sid.Some? && update.Some? {
      assert EmitUpdate(s, e).log.emitted
          == s.log.emitted + [Frame(UpdateFrame(sid.value, e.payload.run, update.value))];
    }
  }

  lemma RouteShows(s: Host, e: Envelope)
    ensures ShowsNew(s.log, RouteOrHold(s, e).log)
  {
    RouteCases(s, e);
    var t := RouteOrHold(s, e);
    hide RouteOrHold, ResolvePrompt, EmitUpdate, EmitPermissionRequest, ShowsNew, ResolveClientSession;
    if t.log == s.log {
      OtherItemShowsNothing(s.log, t.log, Frame(CancelNotice(NullId)));
    } else if e.payload.ToolApprovalRequired? {
      var sid := ResolveClientSession(s.runSessions, e).value;
      PermissionShows(s, sid, e.payload.run, e.payload.tool, e.payload.reason);
    } else if e.payload.RunChanged? && t == ResolvePrompt(s, e.payload.run, e.payload.state) {
      ResolveEmits(s, e.payload.run, e.payload.state);
      var c, r :| t.log.emitted == s.log.emitted
        || t.log.emitted == s.log.emitted + [FlushBarrier(e.payload.run, c, r)];
      OtherItemShowsNothing(s.log, t.log, FlushBarrier(e.payload.run, c, r));
    } else {
      UpdateEmits(s, e);
      var sid, r, u :| t.log.emitted == s.log.emitted
        || t.log.emitted == s.log.emitted + [Frame(UpdateFrame(sid, r, u))];
      OtherItemShowsNothing(s.log, t.log, Frame(UpdateFrame(sid, r, u)));
    }
  }

  lemma {:induction false} RouteAllShows(s: Host, events: seq<Envelope>)
    ensures ShowsNew(s.log, RouteAll(s, events).log)
    decreases |events|
  {
    if events == [] {
      OtherItemShowsNothing(s.log, s.log, Frame(CancelNotice(NullId)));
    } else {
      RouteShows(s, events[0]);
      RouteAllShows(RouteOrHold(s, events[0]), events[1..]);
      hide RouteOrHold, ShowsNew;
      ShowsNewTrans(s.log, RouteOrHold(s, events[0]).log, RouteAll(s, events).log);
    }
  }

  lemma {:induction false} PumpShows(s: Host, events: seq<Envelope>)
    requires ShowsIssued(s.log)
    ensures ShowsIssued(PumpEvents(s, events).log)
    decreases |events|
  {
    if events != [] {
      var s1 := s.(log := s.log.(arrived := s.log.arrived + [events[0]]));
      RouteShows(s1, events[0]);
      ShowsNewSuffices(s1.log, RouteOrHold(s1, events[0]).log);
      hide RouteOrHold, ShowsIssued;
      PumpShows(Receive(s, events[0]), events[1..]);
    }
  }

  lemma CancelSessionShows(s: Host, sid: SessionId, order: seq<JsonRpcId>)
    ensures ShowsNew(s.log, CancelSession(s, sid, order).log)
  {
    CancelSessionFrame(s, sid, order);
    NoticesAskNothing(order);
    CancelSessionIssuesNothing(s, sid, order);
    var t := CancelSession(s, sid, order);
    hide CancelSession, CancelFrame;
    ShowsNothing(s.log, t.log, if t.log.emitted == s.log.emitted then [] else CancelNotices(order));
    assert s.log.emitted + [] == s.log.emitted;
  }

  lemma CancelSessionIssuesNothing(s: Host, sid: SessionId, order: seq<JsonRpcId>)
    ensures CancelSession(s, sid, order).log.issued == s.log.issued
  {
    hide AsksOf, CancelNotices;
  }

  lemma RequestCancelShows(s: Host, id: JsonRpcId)
    ensures ShowsNew(s.log, CancelRequest(s, id).log)
  {
    CancelRequestFrame(s, id);
    CancelRequestCases(s, id);
    hide CancelRequest, FindSlot;
    OtherItemShowsNothing(s.log, CancelRequest(s, id).log, Frame(CancelNotice(NullId)));
  }

  lemma ReplyShows(s: Host, reply: Reply, order: seq<JsonRpcId>)
    requires Coupled(s) && Allowed(s, Step.Reply(reply, order)) && ShowsIssued(s.log)
    ensures ShowsIssued(CoreReply(s, reply, order).log)
  {
    var f := s.inFlight.value;
    if f.PromptFlight? && f.session in s.occupancy && reply.Accepted? {
      var s1 := Bind(NoteAccepted(s.(inFlight := None), reply.run), f, reply.run).(heldEvents := []);
      assert ShowsIssued(s1.log);
      RouteAllShows(s1, s.heldEvents);
      var u := AfterFlush(s, f, reply.run);
      assert u == RouteAll(s1, s.heldEvents);
      ReplySplits(s, f, reply.run, order);
      hide ShowsNew, ShowsIssued, AfterFlush, RouteAll, ReplayEarlyCancels, CoreReply;
      ShowsNewSuffices(s1.log, u.log);
      ReplayShows(u, f, order);
      ShowsNewSuffices(u.log, ReplayEarlyCancels(u, f, order).log);
    } else {
      PlainReplySilent(s, reply, order);
    }
  }

  lemma PlainReplySilent(s: Host, reply: Reply, order: seq<JsonRpcId>)
    requires s.inFlight.Some?
    requires var f := s.inFlight.value; !(f.PromptFlight? && f.session in s.occupancy && reply.Accepted?)
    ensures var t := CoreReply(s, reply, order); t.log.emitted == s.log.emitted && t.log.issued == s.log.issued
  {
    hide SnapshotOf, FlushHeldEvents, ReplayEarlyCancels;
  }

  lemma ReplayShows(u: Host, f: Flight, order: seq<JsonRpcId>)
    requires f.PromptFlight?
    ensures ShowsNew(u.log, ReplayEarlyCancels(u, f, order).log)
  {
    var u1 := ClearEarlyCancels(u, f.session);
    assert u1.log == u.log;
    CancelSessionShows(u1, f.session, order);
    RequestCancelShows(u1, f.requestId);
    OtherItemShowsNothing(u.log, u.log, Frame(CancelNotice(NullId)));
    hide ShowsNew, CancelSession, CancelRequest, ClearEarlyCancels;
  }

  lemma SilentStep(s: Host, step: Step)
    requires Allowed(s, step)
    requires step.Initialize? || step.Prompt? || step.CreateSession? || step.Drain? || step.Consume?
      || step.ReleaseBatch? || step.LoseBatch? || step.Skip? || step.Answer?
    ensures var t := Next(s, step); t.log.emitted == s.log.emitted && t.log.issued == s.log.issued
  {
    hide CancelSession, CancelRequest, FailClosed, CoreReply, PumpEvents, SnapshotOf, BarrierDeliveries, Completions;
    if step.Prompt? { BeginSilent(s, step.id, step.session, step.admission); }
    hide BeginPrompt;
  }

  lemma BeginSilent(s: Host, id: JsonRpcId, sid: SessionId, admission: Admission)
    ensures var t := BeginPrompt(s, id, sid, admission); t.log == s.log
  {
    hide SnapshotOf;
  }

  lemma FailClosedForgets(s: Host, orders: Orders)
    requires OrdersFor(orders, s)
    ensures ShowsIssued(FailClosed(s, orders).log)
  {
    hide RunCancels, Denials, FailedDeliveries, BarrierDeliveries, SnapshotOf;
  }

  /** So after every step, what the client has been shown since the last fail-closed is what the table was given. */
  lemma StepShowsIssued(s: Host, step: Step)
    requires Coupled(s) && Allowed(s, step) && ShowsIssued(s.log)
    ensures ShowsIssued(Next(s, step).log)
  {
    hide ShowsIssued, ShowsNew, CancelSession, CancelRequest, FailClosed, CoreReply, Coupled, PumpEvents, BeginPrompt;
    if step.Pump? {
      PumpShows(s, step.events);
    } else if step.Reply? {
      ReplyShows(s, step.reply, step.order);
    } else if step.FailAll? {
      FailClosedForgets(s, step.orders);
    } else if step.SessionCancel? || step.CloseSession? {
      CancelSessionShows(s, step.session, step.order);
      ShowsNewSuffices(s.log, CancelSession(s, step.session, step.order).log);
    } else if step.RequestCancel? {
      RequestCancelShows(s, step.id);
      ShowsNewSuffices(s.log, CancelRequest(s, step.id).log);
    } else {
      SilentStep(s, step);
      hide Next;
      SameLogShows(s.log, Next(s, step).log);
    }
  }

  lemma SameLogShows(s: Log, t: Log)
    requires ShowsIssued(s) && t.emitted == s.emitted && t.issued == s.issued
    ensures ShowsIssued(t)
  {
  }

  lemma {:induction false} AlwaysShowsIssued(s: Host, steps: seq<Step>)
    requires Coupled(s) && ShowsIssued(s.log) && AllowedRun(s, steps)
    ensures ShowsIssued(Run(s, steps).log)
    decreases |steps|
  {
    if steps != [] {
      StepKeepsCoupled(s, steps[0]);
      StepShowsIssued(s, steps[0]);
      hide ShowsIssued, Coupled, Next;
      AlwaysShowsIssued(Next(s, steps[0]), steps[1..]);
    }
  }

  /** From the start: each request the client sees bears the id under which it is pending. */
  lemma ClientSeesIssuedIds(steps: seq<Step>)
    requires AllowedRun(INITIAL_HOST, steps)
    ensures ShowsIssued(Run(INITIAL_HOST, steps).log)
  {
    InitiallyCoupled();
    AlwaysShowsIssued(INITIAL_HOST, steps);
  }
}
