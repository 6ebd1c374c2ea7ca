/**
 * The coupled maps: bound slots, the run table and the prompt table name the
 * same (session, run, request) triples, the published view is the actor's own,
 * and a slot without a run belongs to the one prompt whose dispatch is in flight.
 */
module AcpCoupling {
  import opened Common
  import opened AcpTypes
  import opened AcpHost

  ghost predicate LinkedMaps(
      occupancy: map<SessionId, Slot>, runs: map<RunId, SessionId>, pending: map<JsonRpcId, PendingPrompt>)
  {
    && (forall sid | sid in occupancy && occupancy[sid].runId.Some? ::
          SlotLinked(sid, occupancy[sid], runs, pending))
    && (forall r | r in runs :: runs[r] in occupancy && occupancy[runs[r]].runId == Some(r))
    && (forall id | id in pending :: PromptLinked(id, pending[id], occupancy))
  }

  ghost predicate SlotLinked(
      sid: SessionId, slot: Slot, runs: map<RunId, SessionId>, pending: map<JsonRpcId, PendingPrompt>)
    requires slot.runId.Some?
  {
    && slot.runId.value in runs && runs[slot.runId.value] == sid
    && slot.requestId in pending
    && pending[slot.requestId].session == sid && pending[slot.requestId].run == slot.runId.value
  }

  ghost predicate PromptLinked(id: JsonRpcId, p: PendingPrompt, occupancy: map<SessionId, Slot>) {
    && p.session in occupancy
    && occupancy[p.session].runId == Some(p.run)
    && occupancy[p.session].requestId == id
  }

  ghost predicate Linked(s: Host) {
    LinkedMaps(s.occupancy, s.runSessions, s.pendingPrompts)
  }

  /** Every unbound slot is `flight`'s, and `flight`'s slot, if it still has one, is unbound. */
  ghost predicate UnboundIs(
      occupancy: map<SessionId, Slot>, pending: map<JsonRpcId, PendingPrompt>, flight: Option<Flight>)
  {
    && (forall sid | sid in occupancy && occupancy[sid].runId.None? ::
          flight.Some? && flight.value.PromptFlight? && flight.value.session == sid)
    && (flight.Some? && flight.value.PromptFlight? ==>
          && flight.value.requestId !in pending
          && (flight.value.session in occupancy ==>
                && occupancy[flight.value.session].runId.None?
                && occupancy[flight.value.session].requestId == flight.value.requestId))
  }

  /** A cancel is only ever remembered on a slot that has no run yet. */
  ghost predicate EarlyFlagsAreEarly(s: Host) {
    forall sid | sid in s.occupancy && s.occupancy[sid].runId.Some? ::
      !s.occupancy[sid].earlySessionCancel && !s.occupancy[sid].earlyRequestCancel
  }

  ghost predicate PublishedAgrees(s: Host) {
    s.published == SnapshotOf(s)
  }

  ghost predicate Housekeeping(s: Host) {
    && s.runSessions.Keys <= s.log.accepted
    && s.log.bound.Keys <= s.log.accepted
    && (!s.initialized ==> s.occupancy == map[] && s.pendingPermissions == map[])
  }

  ghost predicate CoupledFor(s: Host, flight: Option<Flight>) {
    Linked(s) && UnboundIs(s.occupancy, s.pendingPrompts, flight) && PublishedAgrees(s) && Housekeeping(s)
  }

  /** The invariant of the actor between two steps. */
  ghost predicate Coupled(s: Host) {
    CoupledFor(s, s.inFlight) && EarlyFlagsAreEarly(s)
  }

  // ----------------------------------------------------------------- handlers

  lemma PromptOfRun(s: Host, run: RunId, id: JsonRpcId)
    requires Linked(s)
    requires id in s.pendingPrompts && s.pendingPrompts[id].run == run
    ensures FindPrompt(s.pendingPrompts, run) == Some(id)
  {
    var found := FindPrompt(s.pendingPrompts, run);
    assert found.Some?;
    assert s.pendingPrompts[found.value].session == s.runSessions[run] == s.pendingPrompts[id].session;
  }

  lemma RemovalKeepsLinked(
      occupancy: map<SessionId, Slot>, runs: map<RunId, SessionId>, pending: map<JsonRpcId, PendingPrompt>,
      id: JsonRpcId, flight: Option<Flight>)
    requires LinkedMaps(occupancy, runs, pending) && id in pending && UnboundIs(occupancy, pending, flight)
    ensures LinkedMaps(occupancy - {pending[id].session}, runs - {pending[id].run}, pending - {id})
    ensures UnboundIs(occupancy - {pending[id].session}, pending - {id}, flight)
  {
    var p := pending[id];
    assert PromptLinked(id, p, occupancy);
    assert SlotLinked(p.session, occupancy[p.session], runs, pending);
    forall other | other in pending - {id} ensures PromptLinked(other, pending[other], occupancy - {p.session}) {
      assert PromptLinked(other, pending[other], occupancy);
    }
    forall sid | sid in occupancy - {p.session} && occupancy[sid].runId.Some?
      ensures SlotLinked(sid, occupancy[sid], runs - {p.run}, pending - {id})
    {
      assert SlotLinked(sid, occupancy[sid], runs, pending);
    }
  }

  lemma ResolveKeepsCoupled(s: Host, run: RunId, state: RunState, flight: Option<Flight>)
    requires CoupledFor(s, flight)
    ensures CoupledFor(ResolvePrompt(s, run, state), flight)
    ensures EarlyFlagsAreEarly(s) ==> EarlyFlagsAreEarly(ResolvePrompt(s, run, state))
  {
    var id := FindPrompt(s.pendingPrompts, run);
    if id.Some? {
      RemovalKeepsLinked(s.occupancy, s.runSessions, s.pendingPrompts, id.value, flight);
    }
  }

  /** The steps that leave the coupled tables alone. */
  ghost predicate SameTables(s: Host, t: Host) {
    && t.initialized == s.initialized
    && t.occupancy == s.occupancy
    && t.runSessions == s.runSessions
    && t.pendingPrompts == s.pendingPrompts
    && t.published == s.published
    && t.log.accepted == s.log.accepted
    && t.log.bound == s.log.bound
    && (!s.initialized && s.pendingPermissions == map[] ==> t.pendingPermissions == map[])
  }

  lemma SameTablesKeepCoupled(s: Host, t: Host, flight: Option<Flight>)
    requires CoupledFor(s, flight) && SameTables(s, t)
    ensures CoupledFor(t, flight)
    ensures EarlyFlagsAreEarly(s) ==> EarlyFlagsAreEarly(t)
  {
  }

  /** Routing an event either resolves one prompt or leaves the tables alone. */
  lemma RouteShape(s: Host, e: Envelope)
    ensures
      || (e.payload.RunChanged? && RouteOrHold(s, e) == ResolvePrompt(s, e.payload.run, e.payload.state))
      || SameTables(s, RouteOrHold(s, e))
  {
    RouteCases(s, e);
    hide RouteOrHold, ResolvePrompt, ResolveClientSession, TranslateSessionUpdate, SaturatingAdd;
  }

  lemma RouteKeepsCoupled(s: Host, e: Envelope, flight: Option<Flight>)
    requires CoupledFor(s, flight)
    ensures CoupledFor(RouteOrHold(s, e), flight)
    ensures EarlyFlagsAreEarly(s) ==> EarlyFlagsAreEarly(RouteOrHold(s, e))
  {
    RouteShape(s, e);
    if SameTables(s, RouteOrHold(s, e)) {
      SameTablesKeepCoupled(s, RouteOrHold(s, e), flight);
    } else {
      ResolveKeepsCoupled(s, e.payload.run, e.payload.state, flight);
    }
  }

  lemma {:induction false} RouteAllKeepsCoupled(s: Host, events: seq<Envelope>, flight: Option<Flight>)
    requires CoupledFor(s, flight)
    ensures CoupledFor(RouteAll(s, events), flight)
    decreases |events|
  {
    if events != [] {
      RouteKeepsCoupled(s, events[0], flight);
      RouteAllKeepsCoupled(RouteOrHold(s, events[0]), events[1..], flight);
    }
  }

  lemma {:induction false} PumpKeepsCoupled(s: Host, events: seq<Envelope>, flight: Option<Flight>)
    requires CoupledFor(s, flight) && EarlyFlagsAreEarly(s)
    ensures CoupledFor(PumpEvents(s, events), flight) && EarlyFlagsAreEarly(PumpEvents(s, events))
    decreases |events|
  {
    if events != [] {
      var s1 := s.(log := s.log.(arrived := s.log.arrived + [events[0]]));
      SameTablesKeepCoupled(s, s1, flight);
      RouteKeepsCoupled(s1, events[0], flight);
      PumpKeepsCoupled(Receive(s, events[0]), events[1..], flight);
    }
  }

  lemma FlagKeepsLinked(
      occupancy: map<SessionId, Slot>, runs: map<RunId, SessionId>, pending: map<JsonRpcId, PendingPrompt>,
      sid: SessionId, slot: Slot)
    requires LinkedMaps(occupancy, runs, pending)
    requires sid in occupancy && slot.runId == occupancy[sid].runId && slot.requestId == occupancy[sid].requestId
    ensures LinkedMaps(occupancy[sid := slot], runs, pending)
    ensures RunOfSlots(occupancy[sid := slot]) == RunOfSlots(occupancy)
  {
  }

  lemma FlagKeepsUnbound(
      occupancy: map<SessionId, Slot>, pending: map<JsonRpcId, PendingPrompt>, flight: Option<Flight>,
      sid: SessionId, slot: Slot)
    requires UnboundIs(occupancy, pending, flight)
    requires sid in occupancy && slot.runId == occupancy[sid].runId && slot.requestId == occupancy[sid].requestId
    ensures UnboundIs(occupancy[sid := slot], pending, flight)
  {
  }

  lemma FlagKeepsCoupled(s: Host, sid: SessionId, slot: Slot, flight: Option<Flight>)
    requires CoupledFor(s, flight)
    requires sid in s.occupancy && slot.runId == s.occupancy[sid].runId && slot.requestId == s.occupancy[sid].requestId
    ensures CoupledFor(s.(occupancy := s.occupancy[sid := slot]), flight)
  {
    FlagKeepsLinked(s.occupancy, s.runSessions, s.pendingPrompts, sid, slot);
    FlagKeepsUnbound(s.occupancy, s.pendingPrompts, flight, sid, slot);
  }

  lemma CancelSessionKeepsCoupled(s: Host, sid: SessionId, order: seq<JsonRpcId>, flight: Option<Flight>)
    requires CoupledFor(s, flight) && EarlyFlagsAreEarly(s)
    ensures CoupledFor(CancelSession(s, sid, order), flight) && EarlyFlagsAreEarly(CancelSession(s, sid, order))
  {
    if sid in s.occupancy {
      var slot := s.occupancy[sid];
      if slot.runId.None? {
        FlagKeepsCoupled(s, sid, slot.(earlySessionCancel := true), flight);
      } else {
        var s1 := s.(occupancy := s.occupancy[sid := slot.(earlySessionCancel := false)]);
        FlagKeepsCoupled(s, sid, slot.(earlySessionCancel := false), flight);
        hide CoupledFor, EarlyFlagsAreEarly, CancelNotices, AsksOf;
        SameTablesKeepCoupled(s1, CancelSession(s, sid, order), flight);
      }
    }
  }

  lemma CancelRequestKeepsCoupled(s: Host, id: JsonRpcId, flight: Option<Flight>)
    requires CoupledFor(s, flight) && EarlyFlagsAreEarly(s)
    ensures CoupledFor(CancelRequest(s, id), flight) && EarlyFlagsAreEarly(CancelRequest(s, id))
  {
    if id in s.pendingPrompts || id in s.pendingPermissions {
      SameTablesKeepCoupled(s, CancelRequest(s, id), flight);
    } else {
      var sid := FindSlot(s.occupancy, id);
      if sid.Some? {
        FlagKeepsCoupled(s, sid.value, s.occupancy[sid.value].(earlyRequestCancel := true), flight);
      }
    }
  }

  /**
   * Binding keeps the three tables coupled exactly when neither the request id
   * nor the run is already in use.
   */
  lemma BindKeepsLinkedIff(
      occupancy: map<SessionId, Slot>, runs: map<RunId, SessionId>, pending: map<JsonRpcId, PendingPrompt>,
      sid: SessionId, id: JsonRpcId, run: RunId, completion: Channel)
    requires LinkedMaps(occupancy, runs, pending)
    requires sid in occupancy && occupancy[sid].runId.None? && occupancy[sid].requestId == id
    ensures
      LinkedMaps(occupancy[sid := occupancy[sid].(runId := Some(run))], runs[run := sid],
        pending[id := PendingPrompt(sid, run, completion)])
      <==> id !in pending && run !in runs
  {
    var occupancy' := occupancy[sid := occupancy[sid].(runId := Some(run))];
    if id in pending {
      var other := pending[id].session;
      assert PromptLinked(id, pending[id], occupancy);
      assert other != sid && occupancy'[other] == occupancy[other];
      assert !SlotLinked(other, occupancy'[other], runs[run := sid],
          pending[id := PendingPrompt(sid, run, completion)]);
    } else if run in runs {
      var other := runs[run];
      assert other != sid && occupancy'[other] == occupancy[other];
      assert !SlotLinked(other, occupancy'[other], runs[run := sid],
          pending[id := PendingPrompt(sid, run, completion)]);
    }
  }

  lemma BindKeepsCoupled(s: Host, f: Flight, run: RunId)
    requires f.PromptFlight? && CoupledFor(s, Some(f)) && EarlyFlagsAreEarly(s)
    requires f.session in s.occupancy && run !in s.log.accepted
    ensures CoupledFor(Bind(NoteAccepted(s, run), f, run), None)
  {
    BindKeepsLinkedIff(s.occupancy, s.runSessions, s.pendingPrompts, f.session, f.requestId, run, f.completion);
  }

  lemma ClearKeepsCoupled(s: Host, sid: SessionId, flight: Option<Flight>)
    requires CoupledFor(s, flight)
    requires forall other | other in s.occupancy && other != sid && s.occupancy[other].runId.Some? ::
               !s.occupancy[other].earlySessionCancel && !s.occupancy[other].earlyRequestCancel
    ensures CoupledFor(ClearEarlyCancels(s, sid), flight) && EarlyFlagsAreEarly(ClearEarlyCancels(s, sid))
  {
    if sid in s.occupancy {
      FlagKeepsCoupled(s, sid, s.occupancy[sid].(earlySessionCancel := false, earlyRequestCancel := false), flight);
    }
  }

  /** Until its flags are taken, only the prompt being bound can carry any. */
  ghost predicate OnlyFlagged(occupancy: map<SessionId, Slot>, sid: SessionId) {
    forall other | other in occupancy && other != sid && occupancy[other].runId.Some? ::
      !occupancy[other].earlySessionCancel && !occupancy[other].earlyRequestCancel
  }

  lemma {:induction false} RouteAllKeepsFlags(s: Host, events: seq<Envelope>, sid: SessionId)
    requires OnlyFlagged(s.occupancy, sid)
    ensures OnlyFlagged(RouteAll(s, events).occupancy, sid)
    decreases |events|
  {
    if events != [] {
      RouteShape(s, events[0]);
      RouteAllKeepsFlags(RouteOrHold(s, events[0]), events[1..], sid);
    }
  }

  lemma FinishPromptKeepsCoupled(s: Host, f: Flight, reply: Reply, order: seq<JsonRpcId>)
    requires f.PromptFlight? && CoupledFor(s, Some(f)) && EarlyFlagsAreEarly(s)
    requires reply.Accepted? ==> reply.run !in s.log.accepted
    ensures CoupledFor(FinishPrompt(s, f, reply, order), None) && EarlyFlagsAreEarly(FinishPrompt(s, f, reply, order))
  {
    hide RouteAll, CancelSession, CancelRequest, ClearEarlyCancels, ReleaseOccupancy, LinkedMaps, UnboundIs;
    if f.session in s.occupancy && reply.Accepted? {
      var s1 := Bind(NoteAccepted(s, reply.run), f, reply.run);
      BindKeepsCoupled(s, f, reply.run);
      assert OnlyFlagged(s1.occupancy, f.session);
      SameTablesKeepCoupled(s1, s1.(heldEvents := []), None);
      RouteAllKeepsCoupled(s1.(heldEvents := []), s1.heldEvents, None);
      RouteAllKeepsFlags(s1.(heldEvents := []), s1.heldEvents, f.session);
      var s2 := FlushHeldEvents(s1);
      ClearKeepsCoupled(s2, f.session, None);
      var s3 := ClearEarlyCancels(s2, f.session);
      CancelSessionKeepsCoupled(s3, f.session, order, None);
      CancelRequestKeepsCoupled(s3, f.requestId, None);
    } else {
      UnplacedKeepsCoupled(s, f, reply, order);
    }
  }

  lemma UnboundSlotIsFree(
      occupancy: map<SessionId, Slot>, runs: map<RunId, SessionId>, pending: map<JsonRpcId, PendingPrompt>,
      sid: SessionId)
    requires LinkedMaps(occupancy, runs, pending)
    requires sid in occupancy ==> occupancy[sid].runId.None?
    ensures LinkedMaps(occupancy - {sid}, runs, pending)
  {
    forall id | id in pending ensures PromptLinked(id, pending[id], occupancy - {sid}) {
      assert PromptLinked(id, pending[id], occupancy);
    }
  }

  lemma NewSlotIsFree(
      occupancy: map<SessionId, Slot>, runs: map<RunId, SessionId>, pending: map<JsonRpcId, PendingPrompt>,
      sid: SessionId, id: JsonRpcId)
    requires LinkedMaps(occupancy, runs, pending) && sid !in occupancy
    ensures LinkedMaps(occupancy[sid := Slot(id, None, false, false)], runs, pending)
  {
    forall other | other in pending
      ensures PromptLinked(other, pending[other], occupancy[sid := Slot(id, None, false, false)])
    {
      assert PromptLinked(other, pending[other], occupancy);
    }
  }

  lemma ReleaseKeepsCoupled(s: Host, f: Flight)
    requires f.PromptFlight? && CoupledFor(s, Some(f)) && EarlyFlagsAreEarly(s)
    ensures CoupledFor(ReleaseOccupancy(s, f.session, None), None)
    ensures EarlyFlagsAreEarly(ReleaseOccupancy(s, f.session, None))
  {
    UnboundSlotIsFree(s.occupancy, s.runSessions, s.pendingPrompts, f.session);
    assert UnboundIs(s.occupancy - {f.session}, s.pendingPrompts, None);
  }

  lemma ReserveKeepsCoupled(s: Host, f: Flight)
    requires f.PromptFlight? && CoupledFor(s, None) && EarlyFlagsAreEarly(s)
    requires s.initialized && f.session !in s.occupancy && f.requestId !in s.pendingPrompts
    ensures CoupledFor(ReservePrompt(s, f.requestId, f.session), Some(f))
    ensures EarlyFlagsAreEarly(ReservePrompt(s, f.requestId, f.session))
  {
    NewSlotIsFree(s.occupancy, s.runSessions, s.pendingPrompts, f.session, f.requestId);
    assert UnboundIs(s.occupancy[f.session := Slot(f.requestId, None, false, false)], s.pendingPrompts, Some(f));
  }

  /** The replies after which no run is bound. */
  lemma UnplacedKeepsCoupled(s: Host, f: Flight, reply: Reply, order: seq<JsonRpcId>)
    requires f.PromptFlight? && CoupledFor(s, Some(f)) && EarlyFlagsAreEarly(s)
    requires f.session !in s.occupancy || !reply.Accepted?
    ensures CoupledFor(FinishPrompt(s, f, reply, order), None) && EarlyFlagsAreEarly(FinishPrompt(s, f, reply, order))
  {
    if reply.Unavailable? || f.session in s.occupancy {
      ReleaseKeepsCoupled(s, f);
    } else {
      assert UnboundIs(s.occupancy, s.pendingPrompts, None);
      assert CoupledFor(s, None);
      if reply.Accepted? {
        AbandonedKeepsCoupled(s, f.session, reply.run);
      }
    }
  }

  lemma AbandonedKeepsCoupled(s: Host, sid: SessionId, run: RunId)
    requires CoupledFor(s, None) && EarlyFlagsAreEarly(s)
    ensures CoupledFor(TryDispatch(NoteAccepted(s, run), [RunCancel(sid, run)]), None)
    ensures EarlyFlagsAreEarly(TryDispatch(NoteAccepted(s, run), [RunCancel(sid, run)]))
  {
  }

  lemma BeginPromptKeepsCoupled(s: Host, id: JsonRpcId, sid: SessionId, admission: Admission)
    requires Coupled(s) && s.inFlight.None? && id !in s.pendingPrompts
    ensures Coupled(BeginPrompt(s, id, sid, admission))
  {
    if s.initialized && !admission.MissingSessionId? && sid !in s.occupancy {
      var f := PromptFlight(sid, id, s.nextChannel);
      ReserveKeepsCoupled(s, f);
      ReleaseKeepsCoupled(ReservePrompt(s, id, sid), f);
      assert CoupledFor(ReservePrompt(s, id, sid).(inFlight := Some(f), nextChannel := s.nextChannel + 1), Some(f));
    }
  }

  lemma FailClosedIsCoupled(s: Host, orders: Orders)
    requires Coupled(s) && OrdersFor(orders, s)
    ensures Coupled(FailClosed(s, orders))
  {
    var t := FailClosed(s, orders);
    assert t.published == SnapshotOf(t);
    assert t.occupancy == map[] && t.pendingPrompts == map[];
  }

  lemma CoreReplyKeepsCoupled(s: Host, reply: Reply, order: seq<JsonRpcId>)
    requires Coupled(s) && Allowed(s, Step.Reply(reply, order))
    ensures Coupled(CoreReply(s, reply, order))
  {
    var f := s.inFlight.value;
    var s1 := s.(inFlight := None);
    SameTablesKeepCoupled(s, s1, s.inFlight);
    if f.PromptFlight? {
      FinishPromptKeepsCoupled(s1, f, reply, order);
      FinishKeepsFlight(s1, f, reply, order);
    } else {
      assert UnboundIs(s.occupancy, s.pendingPrompts, None);
    }
  }

  lemma CancelsKeepFlight(s: Host, sid: SessionId, order: seq<JsonRpcId>, id: JsonRpcId)
    ensures CancelSession(s, sid, order).inFlight == s.inFlight
    ensures CancelRequest(s, id).inFlight == s.inFlight
  {
  }

  /** Every step the outside world allows keeps the maps coupled and the published view current. */
  lemma StepKeepsCoupled(s: Host, step: Step)
    requires Coupled(s) && Allowed(s, step)
    ensures Coupled(Next(s, step))
  {
    hide BeginPrompt, CoreReply, CancelSession, CancelRequest, PumpEvents, FailClosed, AfterFlush;
    hide DrainOutbox, ConsumeOne, ReleaseHanded, LoseHanded, HandleResponse, CoupledFor, EarlyFlagsAreEarly;
    match step
    case Prompt(id, sid, admission) => BeginPromptKeepsCoupled(s, id, sid, admission);
    case Reply(reply, order) => CoreReplyKeepsCoupled(s, reply, order);
    case SessionCancel(sid, order) =>
      CancelSessionKeepsCoupled(s, sid, order, s.inFlight);
      CancelsKeepFlight(s, sid, order, NullId);
    case CloseSession(sid, order) =>
      CancelSessionKeepsCoupled(s, sid, order, s.inFlight);
      CancelsKeepFlight(s, sid, order, NullId);
    case RequestCancel(id) =>
      CancelRequestKeepsCoupled(s, id, s.inFlight);
      CancelsKeepFlight(s, SessionId(""), [], id);
    case Pump(events) =>
      PumpKeepsCoupled(s, events, s.inFlight);
      PumpKeepsFrame(s, events);
    case FailAll(orders) => FailClosedIsCoupled(s, orders);
    case _ => QuietStepKeepsCoupled(s, step);
  }

  lemma StartKeepsCoupled(s: Host)
    requires Coupled(s)
    ensures !s.initialized ==> Coupled(Publish(s.(initialized := true)))
    ensures s.inFlight.None? ==> Coupled(s.(inFlight := Some(CreateFlight)))
  {
    hide LinkedMaps;
    if s.inFlight.None? {
      assert UnboundIs(s.occupancy, s.pendingPrompts, Some(CreateFlight));
    }
  }

  lemma QuietStepSameTables(s: Host, step: Step)
    requires Allowed(s, step)
    requires step.Drain? || step.Answer? || step.Consume? || step.ReleaseBatch? || step.LoseBatch? || step.Skip?
    ensures SameTables(s, Next(s, step)) && Next(s, step).inFlight == s.inFlight
  {
    if step.Answer? { AnswerSameTables(s, step.id, step.answer); }
    hide HandleResponse, DrainOutbox, ConsumeOne, ReleaseHanded, LoseHanded, SameTables, World;
    hide FailClosed, CancelSession, CancelRequest, CoreReply, PumpEvents, BeginPrompt, Publish;
    OutboxSameTables(s);
    SelfSameTables(s);
    hide SnapshotOf, RunOfSlots, Scheduled;
  }

  lemma SelfSameTables(s: Host)
    ensures SameTables(s, s)
  {
  }

  /** Draining and consuming touch the outbox, the batch handed out and the histories. */
  lemma OutboxSameTables(s: Host)
    ensures SameTables(s, DrainOutbox(s)) && DrainOutbox(s).inFlight == s.inFlight
    ensures SameTables(s, ConsumeOne(s)) && ConsumeOne(s).inFlight == s.inFlight
    ensures SameTables(s, ReleaseHanded(s)) && ReleaseHanded(s).inFlight == s.inFlight
    ensures SameTables(s, LoseHanded(s)) && LoseHanded(s).inFlight == s.inFlight
  {
    hide BarrierDeliveries, Completions;
  }

  lemma AnswerSameTables(s: Host, id: JsonRpcId, answer: PermissionAnswer)
    ensures SameTables(s, HandleResponse(s, id, answer)) && HandleResponse(s, id, answer).inFlight == s.inFlight
  {
    hide DecisionFor;
  }

  lemma QuietStepKeepsCoupled(s: Host, step: Step)
    requires Coupled(s) && Allowed(s, step)
    requires step.Initialize? || step.CreateSession? || step.Drain? || step.Answer? || step.Consume?
             || step.ReleaseBatch? || step.LoseBatch? || step.Skip?
    ensures Coupled(Next(s, step))
  {
    hide CoupledFor, EarlyFlagsAreEarly, BarrierDeliveries, Completions, SnapshotOf;
    if step.CreateSession? || step.Initialize? {
      StartKeepsCoupled(s);
    } else {
      QuietStepSameTables(s, step);
      hide SameTables, Coupled, Next;
      SameTablesKeepCoupled(s, Next(s, step), s.inFlight);
    }
  }

  /** Coupling in every reachable state. */
  lemma {:induction false} AlwaysCoupled(s: Host, steps: seq<Step>)
    requires Coupled(s) && AllowedRun(s, steps)
    ensures Coupled(Run(s, steps))
    decreases |steps|
  {
    if steps != [] {
      StepKeepsCoupled(s, steps[0]);
      AlwaysCoupled(Next(s, steps[0]), steps[1..]);
    }
  }

  lemma InitiallyCoupled()
    ensures Coupled(INITIAL_HOST)
  {
    assert RunOfSlots(map[]) == map[];
  }
}
