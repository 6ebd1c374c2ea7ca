/**
 * The actor as the source writes it: one object whose fields the handlers change
 * in place. Every handler is shown to do to `View()` what AcpHost says it does.
 */
module AcpActor {
  import opened Common
  import opened AcpTypes
  import opened AcpHost
  import opened AcpCoupling
  import opened AcpMail

  /** What reaches the actor while it waits for Core. */
  datatype Arrival = UrgentArrival(urgent: Urgent) | MailArrival(mail: Mail)

  function Letters(arrivals: seq<Arrival>): seq<Mail> {
    if arrivals == [] then []
    else
      var last := arrivals[|arrivals| - 1];
      Letters(arrivals[..|arrivals| - 1]) + (if last.MailArrival? then [last.mail] else [])
  }

  /** What an arrival leaves for later while Core is asked. */
  function Deferring(arrival: Arrival): seq<Mail> {
    if arrival.MailArrival? && !arrival.mail.DrainOutboxMail? then [arrival.mail] else []
  }

  /** Within a table whose entries are linked, a lookup by run has at most one answer. */
  ghost predicate OneIdPerRun(pending: map<JsonRpcId, PendingPrompt>) {
    forall a, b | a in pending && b in pending && pending[a].run == pending[b].run :: a == b
  }

  class AcpActor {
    var initialized: bool
    var occupancy: map<SessionId, Slot>
    var runSessions: map<RunId, SessionId>
    var pendingPrompts: map<JsonRpcId, PendingPrompt>
    var pendingPermissions: map<JsonRpcId, PendingPermission>
    var outbox: seq<OutboxItem>
    var heldEvents: seq<Envelope>
    var nextRequestId: nat
    var published: Snapshot
    var deferredMail: seq<Mail>
    ghost var inFlight: Option<Flight>
    var nextChannel: Channel
    ghost var handed: seq<OutboxItem>
    ghost var log: Log

    ghost function View(): Host
      reads this
    {
      Host(initialized, occupancy, runSessions, pendingPrompts, pendingPermissions, outbox, heldEvents,
        nextRequestId, published, inFlight, nextChannel, handed, log)
    }

    ghost predicate Valid()
      reads this
    {
      Coupled(View())
    }

    constructor ()
      ensures View() == INITIAL_HOST && deferredMail == [] && Valid()
    {
      initialized := false;
      occupancy, runSessions, pendingPrompts, pendingPermissions := map[], map[], map[], map[];
      outbox, heldEvents, deferredMail := [], [], [];
      nextRequestId := 1;
      published := Snapshot(map[], map[], false);
      inFlight, nextChannel, handed, log := None, 0, [], EMPTY_LOG;
      new;
      InitiallyCoupled();
    }

    // ---------------------------------------------------------------- primitives

    method PublishSnapshot()
      modifies this
      ensures View() == Publish(old(View())) && deferredMail == old(deferredMail)
    {
      published := Snapshot(map sid | sid in occupancy :: occupancy[sid].runId, runSessions, initialized);
    }

    method PushItem(item: OutboxItem)
      modifies this
      ensures View() == PushOutbox(old(View()), [item]) && deferredMail == old(deferredMail)
    {
      outbox := outbox + [item];
      log := log.(emitted := log.emitted + [item]);
    }

    /** The command leaves for Core; nothing here depends on how Core takes it. */
    method DispatchAttached(attempt: Attempt)
      modifies this
      ensures View() == TryDispatch(old(View()), [attempt]) && deferredMail == old(deferredMail)
    {
      if initialized {
        log := log.(attempts := log.attempts + [attempt]);
      }
    }

    method Release(sid: SessionId, run: Option<RunId>)
      modifies this
      ensures View() == ReleaseOccupancy(old(View()), sid, run) && deferredMail == old(deferredMail)
    {
      occupancy := occupancy - {sid};
      if run.Some? {
        runSessions := runSessions - {run.value};
      }
      PublishSnapshot();
    }

    // -------------------------------------------------------------------- events

    method Resolve(run: RunId, state: RunState)
      requires OneIdPerRun(pendingPrompts)
      modifies this
      ensures View() == ResolvePrompt(old(View()), run, state) && deferredMail == old(deferredMail)
      ensures OneIdPerRun(pendingPrompts)
    {
      var resolution := ResolutionOf(state);
      if resolution.None? {
        return;
      }
      if id :| id in pendingPrompts && pendingPrompts[id].run == run {
        assert FindPrompt(pendingPrompts, run) == Some(id);
        var prompt := pendingPrompts[id];
        pendingPrompts := pendingPrompts - {id};
        Release(prompt.session, Some(run));
        PushItem(FlushBarrier(run, prompt.completion, resolution.value));
      }
    }

    method EmitPermission(sid: SessionId, run: RunId, tool: ToolCallId, reason: string)
      modifies this
      ensures View() == EmitPermissionRequest(old(View()), sid, run, tool, reason)
      ensures deferredMail == old(deferredMail) && pendingPrompts == old(pendingPrompts)
    {
      if !initialized {
        return;
      }
      var id := NumberId(nextRequestId);
      nextRequestId := if nextRequestId + 1 > MAX_U64 then MAX_U64 else nextRequestId + 1;
      var permission := PendingPermission(run, tool, sid);
      pendingPermissions := pendingPermissions[id := permission];
      log := log.(issued := log.issued + [Ask(id, permission)]);
      PushItem(Frame(PermissionFrame(id, sid, run, tool, reason)));
    }

    method Update(e: Envelope)
      modifies this
      ensures View() == EmitUpdate(old(View()), e)
      ensures deferredMail == old(deferredMail) && pendingPrompts == old(pendingPrompts)
    {
      var sid := ResolveClientSession(published.runSessions, e);
      var update := TranslateSessionUpdate(e.payload);
      if initialized && sid.Some? && update.Some? {
        PushItem(Frame(UpdateFrame(sid.value, e.payload.run, update.value)));
      }
    }

    method Deliver(e: Envelope)
      requires OneIdPerRun(pendingPrompts)
      modifies this
      ensures View() == DeliverEvent(old(View()), e) && deferredMail == old(deferredMail)
      ensures OneIdPerRun(pendingPrompts)
    {
      var sid := ResolveClientSession(runSessions, e);
      if sid.None? {
        return;
      }
      if e.payload.RunChanged? {
        if TerminalState(e.payload.state) {
          Resolve(e.payload.run, e.payload.state);
        }
      } else if e.payload.ToolApprovalRequired? {
        EmitPermission(sid.value, e.payload.run, e.payload.tool, e.payload.reason);
      } else if !e.payload.Diagnostic? {
        Update(e);
      }
    }

    method Route(e: Envelope)
      requires OneIdPerRun(pendingPrompts)
      modifies this
      ensures View() == RouteOrHold(old(View()), e) && deferredMail == old(deferredMail)
      ensures OneIdPerRun(pendingPrompts)
    {
      var sid := ResolveClientSession(runSessions, e);
      if sid.Some? {
        Deliver(e);
      } else if RunIdOf(e.payload).Some? {
        heldEvents := heldEvents + [e];
      }
    }

    method Flush()
      requires OneIdPerRun(pendingPrompts)
      modifies this
      ensures View() == FlushHeldEvents(old(View())) && deferredMail == old(deferredMail)
      ensures OneIdPerRun(pendingPrompts)
    {
      var held := heldEvents;
      heldEvents := [];
      ghost var start := View();
      var i := 0;
      while i < |held|
        invariant 0 <= i <= |held| && OneIdPerRun(pendingPrompts) && deferredMail == old(deferredMail)
        invariant RouteAll(View(), held[i..]) == RouteAll(start, held)
      {
        assert held[i..][0] == held[i] && held[i..][1..] == held[i + 1..];
        Route(held[i]);
        i := i + 1;
      }
    }

    method PumpAll(events: seq<Envelope>)
      requires OneIdPerRun(pendingPrompts)
      modifies this
      ensures View() == PumpEvents(old(View()), events) && deferredMail == old(deferredMail)
    {
      var i := 0;
      while i < |events|
        invariant 0 <= i <= |events| && OneIdPerRun(pendingPrompts) && deferredMail == old(deferredMail)
        invariant PumpEvents(View(), events[i..]) == PumpEvents(old(View()), events)
      {
        assert events[i..][0] == events[i] && events[i..][1..] == events[i + 1..];
        log := log.(arrived := log.arrived + [events[i]]);
        Route(events[i]);
        i := i + 1;
      }
    }

    // -------------------------------------------------------------- cancellation

    /** The permissions of one session, dropped in whatever order the table yields them. */
    method SweepOne(id: JsonRpcId, ghost permission: PendingPermission)
      modifies this
      ensures var s := old(View());
        View() == PushOutbox(s.(
          pendingPermissions := s.pendingPermissions - {id},
          log := s.log.(cascaded := s.log.cascaded + [Ask(id, permission)])), [Frame(CancelNotice(id))])
      ensures deferredMail == old(deferredMail)
    {
      pendingPermissions := pendingPermissions - {id};
      log := log.(cascaded := log.cascaded + [Ask(id, permission)]);
      PushItem(Frame(CancelNotice(id)));
    }

    method CascadePermissions(sid: SessionId) returns (ghost order: seq<JsonRpcId>)
      modifies this
      ensures Enumerates(order, CascadeIds(old(View()), sid))
      ensures View() == Cascade(old(View()), order) && deferredMail == old(deferredMail)
    {
      ghost var start := View();
      var ids := set id | id in pendingPermissions && pendingPermissions[id].session == sid;
      var left := ids;
      order := [];
      CascadeNone(start);
      assert Enumerates(order, ids - left);
      hide Cascade;
      while left != {}
        invariant left <= ids && Enumerates(order, ids - left)
        invariant View() == Cascade(start, order) && deferredMail == old(deferredMail)
        decreases left
      {
        var id :| id in left;
        CascadeOne(start, order, id);
        EnumeratesSnoc(order, ids - left, id);
        assert ids - left + {id} == ids - (left - {id});
        left := left - {id};
        SweepOne(id, start.pendingPermissions[id]);
        order := order + [id];
      }
      assert ids - left == CascadeIds(start, sid);
    }

    method CancelBySession(sid: SessionId) returns (ghost order: seq<JsonRpcId>)
      modifies this
      ensures Enumerates(order, CascadeIds(old(View()), sid))
      ensures View() == CancelSession(old(View()), sid, order) && deferredMail == old(deferredMail)
    {
      ghost var start := View();
      if sid !in occupancy {
        order := AnyOrder(CascadeIds(start, sid));
        return;
      }
      var slot := occupancy[sid];
      if slot.runId.None? {
        occupancy := occupancy[sid := slot.(earlySessionCancel := true)];
        order := AnyOrder(CascadeIds(start, sid));
        return;
      }
      occupancy := occupancy[sid := slot.(earlySessionCancel := false)];
      DispatchAttached(RunCancel(sid, slot.runId.value));
      assert CascadeIds(View(), sid) == CascadeIds(start, sid);
      order := CascadePermissions(sid);
    }

    method CancelByRequest(id: JsonRpcId)
      requires id !in pendingPrompts ==>
        forall a, b | a in occupancy && b in occupancy
          && occupancy[a].requestId == id == occupancy[b].requestId :: a == b
      modifies this
      ensures View() == CancelRequest(old(View()), id) && deferredMail == old(deferredMail)
    {
      if id in pendingPrompts {
        DispatchAttached(RunCancel(pendingPrompts[id].session, pendingPrompts[id].run));
        return;
      }
      if id in pendingPermissions {
        var permission := pendingPermissions[id];
        pendingPermissions := pendingPermissions - {id};
        DispatchAttached(ApproveAttempt(id, permission, CancelTool));
        return;
      }
      if sid :| sid in occupancy && occupancy[sid].requestId == id {
        assert FindSlot(occupancy, id) == Some(sid);
        occupancy := occupancy[sid := occupancy[sid].(earlyRequestCancel := true)];
      }
    }

    method Respond(id: JsonRpcId, answer: PermissionAnswer)
      modifies this
      ensures View() == HandleResponse(old(View()), id, answer) && deferredMail == old(deferredMail)
    {
      if id !in pendingPermissions {
        return;
      }
      var permission := pendingPermissions[id];
      pendingPermissions := pendingPermissions - {id};
      DispatchAttached(ApproveAttempt(id, permission, DecisionFor(answer)));
    }

    // --------------------------------------------------------------- fail-closed

    /** `try_send` on a completion channel. */
    method Send(completion: Channel, resolution: Resolution)
      modifies this
      ensures View() == old(View()).(log :=
        old(log).(delivered := old(log).delivered + [Delivery(completion, resolution)]))
      ensures deferredMail == old(deferredMail)
    {
      log := log.(delivered := log.delivered + [Delivery(completion, resolution)]);
    }

    method FailPrompts(prompts: map<JsonRpcId, PendingPrompt>) returns (ghost order: seq<JsonRpcId>)
      modifies this
      ensures Enumerates(order, prompts.Keys)
      ensures View() == old(View()).(log :=
        old(log).(delivered := old(log).delivered + FailedDeliveries(prompts, order)))
      ensures deferredMail == old(deferredMail)
    {
      var left := prompts.Keys;
      order := [];
      while left != {}
        invariant left <= prompts.Keys && Enumerates(order, prompts.Keys - left)
        invariant View() == old(View()).(log :=
          old(log).(delivered := old(log).delivered + FailedDeliveries(prompts, order)))
        invariant deferredMail == old(deferredMail)
        decreases left
      {
        var id :| id in left;
        EnumeratesSnoc(order, prompts.Keys - left, id);
        assert prompts.Keys - left + {id} == prompts.Keys - (left - {id});
        left := left - {id};
        Send(prompts[id].completion, TurnFailed);
        assert FailedDeliveries(prompts, order + [id])
            == FailedDeliveries(prompts, order) + [Delivery(prompts[id].completion, TurnFailed)];
        order := order + [id];
      }
      assert prompts.Keys - left == prompts.Keys;
    }

    method ReleaseBarriers(items: seq<OutboxItem>)
      modifies this
      ensures View() == old(View()).(log := old(log).(delivered := old(log).delivered + BarrierDeliveries(items)))
      ensures deferredMail == old(deferredMail)
    {
      var i := 0;
      while i < |items|
        invariant 0 <= i <= |items| && deferredMail == old(deferredMail)
        invariant View()
          == old(View()).(log := old(log).(delivered := old(log).delivered + BarrierDeliveries(items[..i])))
      {
        assert items[..i + 1][..i] == items[..i] && items[..i + 1][i] == items[i];
        if items[i].FlushBarrier? {
          Send(items[i].completion, items[i].resolution);
        }
        i := i + 1;
      }
      assert items[..i] == items;
    }

    method CancelRuns(runs: map<RunId, SessionId>) returns (ghost order: seq<RunId>)
      modifies this
      ensures Enumerates(order, runs.Keys)
      ensures View() == TryDispatch(old(View()), RunCancels(runs, order)) && deferredMail == old(deferredMail)
    {
      var left := runs.Keys;
      order := [];
      assert RunCancels(runs, order) == [];
      while left != {}
        invariant left <= runs.Keys && Enumerates(order, runs.Keys - left)
        invariant View() == TryDispatch(old(View()), RunCancels(runs, order)) && deferredMail == old(deferredMail)
        decreases left
      {
        var run :| run in left;
        EnumeratesSnoc(order, runs.Keys - left, run);
        assert runs.Keys - left + {run} == runs.Keys - (left - {run});
        left := left - {run};
        DispatchAttached(RunCancel(runs[run], run));
        assert RunCancels(runs, order + [run]) == RunCancels(runs, order) + [RunCancel(runs[run], run)];
        order := order + [run];
      }
      assert runs.Keys - left == runs.Keys;
    }

    method DenyPermissions(permissions: map<JsonRpcId, PendingPermission>) returns (ghost order: seq<JsonRpcId>)
      modifies this
      ensures Enumerates(order, permissions.Keys)
      ensures View() == TryDispatch(old(View()), Denials(permissions, order)) && deferredMail == old(deferredMail)
    {
      var left := permissions.Keys;
      order := [];
      assert Denials(permissions, order) == [];
      while left != {}
        invariant left <= permissions.Keys && Enumerates(order, permissions.Keys - left)
        invariant View() == TryDispatch(old(View()), Denials(permissions, order)) && deferredMail == old(deferredMail)
        decreases left
      {
        var id :| id in left;
        EnumeratesSnoc(order, permissions.Keys - left, id);
        assert permissions.Keys - left + {id} == permissions.Keys - (left - {id});
        left := left - {id};
        DispatchAttached(ApproveAttempt(id, permissions[id], Deny));
        assert Denials(permissions, order + [id])
            == Denials(permissions, order) + [ApproveAttempt(id, permissions[id], Deny)];
        order := order + [id];
      }
      assert permissions.Keys - left == permissions.Keys;
    }

    /** First note whom Core has to be told about, then empty the ledgers, then tell Core. */
    method FailClosedAll() returns (ghost orders: Orders)
      modifies this
      ensures OrdersFor(orders, old(View()))
      ensures View() == FailClosed(old(View()), orders) && deferredMail == old(deferredMail)
    {
      var runs := runSessions;
      var permissions := pendingPermissions;
      ghost var prompts := ClearLedgers();
      ghost var runOrder := CancelRuns(runs);
      ghost var permissionOrder := DenyPermissions(permissions);
      PublishSnapshot();
      orders := Orders(runOrder, prompts, permissionOrder);
    }

    method ClearLedgers() returns (ghost promptOrder: seq<JsonRpcId>)
      modifies this
      ensures Enumerates(promptOrder, old(pendingPrompts).Keys)
      ensures View() == Cleared(old(View()), promptOrder) && deferredMail == old(deferredMail)
    {
      hide FailedDeliveries, BarrierDeliveries;
      var prompts, items := pendingPrompts, outbox;
      EmptyTables();
      promptOrder := FailPrompts(prompts);
      ReleaseBarriers(items);
    }

    method EmptyTables()
      modifies this
      ensures View() == Emptied(old(View())) && deferredMail == old(deferredMail)
    {
      EmptyFields();
    }

    method EmptyFields()
      modifies this`occupancy, this`pendingPrompts, this`pendingPermissions, this`runSessions
      modifies this`heldEvents, this`outbox, this`log
      ensures occupancy == map[] && pendingPrompts == map[] && pendingPermissions == map[] && runSessions == map[]
      ensures heldEvents == [] && outbox == []
      ensures log == old(log).(arrived := [], emitted := [], taken := [], bound := map[])
    {
      hide *;
      occupancy, pendingPrompts, pendingPermissions, runSessions := map[], map[], map[], map[];
      heldEvents, outbox := [], [];
      log := log.(arrived := [], emitted := [], taken := [], bound := map[]);
    }

    // ------------------------------------------------------------------- the loop

    method TakeOutbox() returns (items: seq<OutboxItem>)
      modifies this
      ensures items == old(outbox)
      ensures View() == DrainOutbox(old(View())) && deferredMail == old(deferredMail)
    {
      items := outbox;
      outbox := [];
      handed := handed + items;
      log := log.(taken := log.taken + items);
    }

    method HandleUrgent(urgent: Urgent) returns (ghost answers: Answers)
      requires Valid()
      modifies this
      ensures Allowed(old(View()), StepForUrgent(urgent, answers))
      ensures View() == Next(old(View()), StepForUrgent(urgent, answers)) && deferredMail == old(deferredMail)
    {
      hide CancelSession, CancelRequest, FailClosed, Next, Allowed;
      ghost var start := View();
      ghost var orders := AnyOrders(View());
      ghost var order: seq<JsonRpcId> := [];
      match urgent {
        case SessionCancelMail(sid) =>
          if initialized {
            order := CancelBySession(sid);
          } else {
            order := AnyOrder(CascadeIds(View(), sid));
          }
          SessionCancelIsAStep(start, sid, order);
        case RequestCancelMail(id) =>
          if initialized {
            OneSlotPerRequest(View(), id, inFlight);
            CancelByRequest(id);
          }
          RequestCancelIsAStep(start, id);
        case FailClosedMail =>
          orders := FailClosedAll();
          FailClosedIsAStep(start, orders);
      }
      answers := Answers(MissingSessionId, false, None, order, orders);
    }

    /** While Core is asked: urgent mail and drains at once, other mail later. */
    method ServeArrival(arrival: Arrival) returns (ghost step: Step)
      requires Valid()
      modifies this
      ensures Allowed(old(View()), step) && View() == Next(old(View()), step)
      ensures Interrupting(step)
      ensures deferredMail == old(deferredMail) + Deferring(arrival)
    {
      hide Coupled, Next, Allowed, NonDrain;
      match arrival {
        case UrgentArrival(urgent) =>
          ghost var answers := HandleUrgent(urgent);
          step := StepForUrgent(urgent, answers);
        case MailArrival(mail) =>
          if mail.DrainOutboxMail? {
            step := Drain;
            DrainIsAStep(View());
            var items := TakeOutbox();
          } else {
            step := Skip;
            deferredMail := deferredMail + [mail];
            SkipIsAStep(View());
          }
      }
    }

    /**
     * While Core is asked: urgent mail and drains are served, other mail is set
     * aside. `arrivals` is what reaches the two mailboxes before Core's reply.
     */
    method InterruptibleCoreCall(arrivals: seq<Arrival>) returns (ghost steps: seq<Step>)
      requires Valid() && inFlight.Some?
      modifies this
      ensures Valid() && AllowedRun(old(View()), steps) && View() == Run(old(View()), steps)
      ensures forall i | 0 <= i < |steps| :: Interrupting(steps[i])
      ensures deferredMail == old(deferredMail) + NonDrain(Letters(arrivals))
    {
      hide Coupled, Next, Allowed, AllowedRun, Run, NonDrain, Letters, Interrupting, Deferring;
      NothingArrived(arrivals, View());
      ghost var start := View();
      steps := [];
      var i := 0;
      while i < |arrivals|
        invariant 0 <= i <= |arrivals|
        invariant Valid() && AllowedRun(start, steps) && View() == Run(start, steps)
        invariant forall i | 0 <= i < |steps| :: Interrupting(steps[i])
        invariant deferredMail == old(deferredMail) + NonDrain(Letters(arrivals[..i]))
      {
        ghost var before := View();
        LettersSnoc(arrivals, i);
        ghost var step := ServeArrival(arrivals[i]);
        RunSnoc(start, steps, step);
        StepKeepsCoupled(before, step);
        steps := steps + [step];
        i := i + 1;
      }
      assert arrivals[..i] == arrivals;
    }

    // -------------------------------------------------------------------- prompts

    /** After Core's reply: give up, compensate, or bind, flush and replay early cancels. */
    method FinishSessionPrompt(sid: SessionId, id: JsonRpcId, completion: Channel, reply: Reply)
      returns (ghost order: seq<JsonRpcId>)
      requires CoupledFor(View(), Some(PromptFlight(sid, id, completion))) && EarlyFlagsAreEarly(View())
      requires reply.Accepted? ==> reply.run !in log.accepted
      modifies this
      ensures var f := PromptFlight(sid, id, completion);
        && View() == FinishPrompt(old(View()), f, reply, order)
        && (reply.Accepted? && sid in old(occupancy) ==>
              Enumerates(order,
                CascadeIds(FlushHeldEvents(Bind(NoteAccepted(old(View()), reply.run), f, reply.run)), sid)))
      ensures deferredMail == old(deferredMail)
    {
      order := [];
      if reply.Unavailable? {
        Release(sid, None);
        return;
      }
      if sid !in occupancy {
        if reply.Accepted? {
          NoteRun(reply.run);
          DispatchAttached(RunCancel(sid, reply.run));
        }
        return;
      }
      if !reply.Accepted? {
        Release(sid, None);
        return;
      }
      order := BindAndReplay(sid, id, completion, reply.run);
    }

    method NoteRun(run: RunId)
      modifies this
      ensures View() == NoteAccepted(old(View()), run) && deferredMail == old(deferredMail)
    {
      log := log.(accepted := log.accepted + {run});
    }

    method BindRun(sid: SessionId, id: JsonRpcId, completion: Channel, run: RunId)
      requires sid in occupancy
      modifies this
      ensures View() == Bind(old(View()), PromptFlight(sid, id, completion), run)
      ensures deferredMail == old(deferredMail)
    {
      hide SnapshotOf;
      occupancy := occupancy[sid := occupancy[sid].(runId := Some(run))];
      runSessions := runSessions[run := sid];
      pendingPrompts := pendingPrompts[id := PendingPrompt(sid, run, completion)];
      log := log.(
        bound := log.bound[run := BoundPrompt(sid, id, completion)],
        completions := log.completions + {completion});
      PublishSnapshot();
    }

    method TakeEarlyCancels(sid: SessionId) returns (session: bool, request: bool)
      modifies this
      ensures View() == ClearEarlyCancels(old(View()), sid) && deferredMail == old(deferredMail)
      ensures session == (sid in old(occupancy) && old(occupancy)[sid].earlySessionCancel)
      ensures request == (sid in old(occupancy) && old(occupancy)[sid].earlyRequestCancel)
    {
      session, request := false, false;
      if sid in occupancy {
        var slot := occupancy[sid];
        session, request := slot.earlySessionCancel, slot.earlyRequestCancel;
        occupancy := occupancy[sid := slot.(earlySessionCancel := false, earlyRequestCancel := false)];
      }
      PublishSnapshot();
    }

    method BindAndReplay(sid: SessionId, id: JsonRpcId, completion: Channel, run: RunId)
      returns (ghost order: seq<JsonRpcId>)
      requires CoupledFor(View(), Some(PromptFlight(sid, id, completion))) && EarlyFlagsAreEarly(View())
      requires sid in occupancy && run !in log.accepted
      modifies this
      ensures var f := PromptFlight(sid, id, completion);
        var flushed := FlushHeldEvents(Bind(NoteAccepted(old(View()), run), f, run));
        View() == ReplayEarlyCancels(flushed, f, order) && Enumerates(order, CascadeIds(flushed, sid))
      ensures deferredMail == old(deferredMail)
    {
      hide CancelSession, CancelRequest, RouteAll, CoupledFor, EarlyFlagsAreEarly;
      ghost var f := PromptFlight(sid, id, completion);
      ghost var start := View();
      NoteRun(run);
      BindRun(sid, id, completion, run);
      ghost var bound := View();
      BindKeepsCoupled(start, f, run);
      CoupledHasOneId(bound, None);
      Flush();
      ghost var flushed := View();
      FlushKeepsCoupled(bound, None);
      var session, request := TakeEarlyCancels(sid);
      SameCascade(flushed, sid);
      if session {
        order := CancelBySession(sid);
      } else {
        order := AnyOrder(CascadeIds(flushed, sid));
        if request {
          FlagsAreBystanders(flushed, sid, id);
          CancelByRequest(id);
        }
      }
    }

    /**
     * One `session/prompt`, from reservation to reply, with whatever arrives while
     * Core is asked: it is the run of steps that the state machine would take.
     */
    method SessionPrompt(
        id: JsonRpcId, sid: SessionId, admission: Admission, arrivals: seq<Arrival>, reply: Reply)
      returns (ghost steps: seq<Step>)
      requires Valid() && inFlight.None? && id !in pendingPrompts
      requires reply.Accepted? ==> reply.run !in log.accepted
      modifies this
      ensures Valid() && AllowedRun(old(View()), steps) && View() == Run(old(View()), steps)
      ensures steps != [] && steps[0] == Prompt(id, sid, admission)
      ensures if old(initialized) && admission.Dispatched? && sid !in old(occupancy) then
          && |steps| >= 2 && steps[|steps| - 1].Reply? && steps[|steps| - 1].reply == reply
          && (forall i | 1 <= i < |steps| - 1 :: Interrupting(steps[i]))
          && deferredMail == old(deferredMail) + NonDrain(Letters(arrivals))
        else
          |steps| == 1 && deferredMail == old(deferredMail)
    {
      hide Next, Coupled, FinishPrompt, BeginPrompt, RouteAll;
      ghost var start := View();
      PromptIsAStep(start, id, sid, admission);
      StepKeepsCoupled(start, Prompt(id, sid, admission));
      BeginShape(start, id, sid, admission);
      steps := [Prompt(id, sid, admission)];
      RunOne(start, steps[0]);
      var dispatched := BeginSessionPrompt(id, sid, admission);
      if !dispatched {
        return;
      }
      var completion := nextChannel - 1;
      ghost var asked := View();
      ghost var mid := InterruptibleCoreCall(arrivals);
      RunJoin(start, steps, mid);
      InterruptedStaysPut(asked, mid);
      steps := steps + mid;
      ghost var waiting := View();
      ghost var order := EndDispatch(sid, id, completion, reply);
      StepKeepsCoupled(waiting, Step.Reply(reply, order));
      RunSnoc(start, steps, Step.Reply(reply, order));
      steps := steps + [Step.Reply(reply, order)];
    }

    method BeginSessionPrompt(id: JsonRpcId, sid: SessionId, admission: Admission) returns (dispatched: bool)
      modifies this
      ensures View() == BeginPrompt(old(View()), id, sid, admission) && deferredMail == old(deferredMail)
      ensures dispatched == (old(initialized) && admission.Dispatched? && sid !in old(occupancy))
    {
      hide SnapshotOf;
      dispatched := false;
      if !initialized || admission.MissingSessionId? || sid in occupancy {
        return;
      }
      occupancy := occupancy[sid := Slot(id, None, false, false)];
      PublishSnapshot();
      if !admission.Dispatched? {
        Release(sid, None);
        return;
      }
      dispatched := true;
      AllocateChannel(sid, id);
    }

    method EndDispatch(sid: SessionId, id: JsonRpcId, completion: Channel, reply: Reply)
      returns (ghost order: seq<JsonRpcId>)
      requires Valid() && inFlight == Some(PromptFlight(sid, id, completion))
      requires reply.Accepted? ==> reply.run !in log.accepted
      modifies this
      ensures Allowed(old(View()), Step.Reply(reply, order))
      ensures View() == Next(old(View()), Step.Reply(reply, order)) && deferredMail == old(deferredMail)
    {
      hide Next, Coupled, FinishPrompt, RouteAll, Allowed;
      ghost var waiting := View();
      FlightIsCoupled(waiting, PromptFlight(sid, id, completion));
      inFlight := None;
      order := FinishSessionPrompt(sid, id, completion, reply);
      ReplyIsAStep(waiting, reply, order);
    }

    /** A fresh capacity-1 channel, and the dispatch that will be outstanding. */
    method AllocateChannel(sid: SessionId, id: JsonRpcId)
      modifies this
      ensures View() == old(View()).(
        inFlight := Some(PromptFlight(sid, id, old(nextChannel))), nextChannel := old(nextChannel) + 1)
      ensures deferredMail == old(deferredMail)
    {
      inFlight := Some(PromptFlight(sid, id, nextChannel));
      nextChannel := nextChannel + 1;
    }
  }

  // ------------------------------------------------------------------ steps and runs

  lemma BeginShape(s: Host, id: JsonRpcId, sid: SessionId, admission: Admission)
    ensures var t := BeginPrompt(s, id, sid, admission);
      && t.log.accepted == s.log.accepted
      && (s.initialized && admission.Dispatched? && sid !in s.occupancy ==>
            t.nextChannel > 0 && t.inFlight == Some(PromptFlight(sid, id, t.nextChannel - 1)))
  {
  }

  lemma CoupledHasOneId(s: Host, flight: Option<Flight>)
    requires CoupledFor(s, flight)
    ensures OneIdPerRun(s.pendingPrompts)
  {
    forall a, b | a in s.pendingPrompts && b in s.pendingPrompts && s.pendingPrompts[a].run == s.pendingPrompts[b].run
      ensures a == b
    {
      PromptOfRun(s, s.pendingPrompts[a].run, a);
      PromptOfRun(s, s.pendingPrompts[b].run, b);
    }
  }

  lemma FlushKeepsCoupled(s: Host, flight: Option<Flight>)
    requires CoupledFor(s, flight)
    ensures CoupledFor(FlushHeldEvents(s), flight)
  {
    hide RouteAll;
    SameTablesKeepCoupled(s, s.(heldEvents := []), flight);
    RouteAllKeepsCoupled(s.(heldEvents := []), s.heldEvents, flight);
  }

  lemma SameCascade(s: Host, sid: SessionId)
    ensures CascadeIds(ClearEarlyCancels(s, sid), sid) == CascadeIds(s, sid)
  {
  }

  /** Clearing flags changes neither prompts nor the request ids on slots. */
  lemma FlagsAreBystanders(s: Host, sid: SessionId, id: JsonRpcId)
    requires CoupledFor(s, None)
    ensures var t := ClearEarlyCancels(s, sid);
      id !in t.pendingPrompts ==>
      forall a, b | a in t.occupancy && b in t.occupancy
          && t.occupancy[a].requestId == id == t.occupancy[b].requestId :: a == b
  {
    OneSlotPerRequest(s, id, None);
  }

  lemma PromptIsAStep(s: Host, id: JsonRpcId, sid: SessionId, admission: Admission)
    requires s.inFlight.None? && id !in s.pendingPrompts
    ensures Allowed(s, Prompt(id, sid, admission))
    ensures Next(s, Prompt(id, sid, admission)) == BeginPrompt(s, id, sid, admission)
  {
  }

  lemma ReplyIsAStep(s: Host, reply: Reply, order: seq<JsonRpcId>)
    requires s.inFlight.Some? && s.inFlight.value.PromptFlight?
    requires reply.Accepted? ==> reply.run !in s.log.accepted
    requires reply.Accepted? && s.inFlight.value.session in s.occupancy ==>
      Enumerates(order, CascadeIds(AfterFlush(s, s.inFlight.value, reply.run), s.inFlight.value.session))
    ensures Allowed(s, Step.Reply(reply, order))
    ensures Next(s, Step.Reply(reply, order)) == FinishPrompt(s.(inFlight := None), s.inFlight.value, reply, order)
  {
  }

  lemma FlightIsCoupled(s: Host, f: Flight)
    requires Coupled(s) && s.inFlight == Some(f)
    ensures CoupledFor(s.(inFlight := None), Some(f)) && EarlyFlagsAreEarly(s.(inFlight := None))
  {
  }

  /** Interruptions leave the outstanding dispatch and the accepted runs alone. */
  lemma {:induction false} InterruptedStaysPut(s: Host, steps: seq<Step>)
    requires AllowedRun(s, steps) && forall i | 0 <= i < |steps| :: Interrupting(steps[i])
    ensures Run(s, steps).inFlight == s.inFlight && Run(s, steps).log.accepted == s.log.accepted
    decreases |steps|
  {
    if steps != [] {
      InterruptionStaysPut(s, steps[0]);
      InterruptedStaysPut(Next(s, steps[0]), steps[1..]);
    }
  }

  lemma InterruptionStaysPut(s: Host, step: Step)
    requires Allowed(s, step) && Interrupting(step)
    ensures Next(s, step).inFlight == s.inFlight && Next(s, step).log.accepted == s.log.accepted
  {
    hide CancelSession, CancelRequest, FailedDeliveries, BarrierDeliveries, RunCancels, Denials, SnapshotOf;
    if step.SessionCancel? {
      CancelSessionFrame(s, step.session, step.order);
    } else if step.RequestCancel? {
      CancelRequestFrame(s, step.id);
    }
  }

  lemma RunOne(s: Host, step: Step)
    requires Allowed(s, step)
    ensures AllowedRun(s, [step]) && Run(s, [step]) == Next(s, step)
  {
    hide Next, Allowed;
    assert [step][1..] == [];
  }

  lemma {:induction false} RunJoin(s: Host, a: seq<Step>, b: seq<Step>)
    requires AllowedRun(s, a) && AllowedRun(Run(s, a), b)
    ensures AllowedRun(s, a + b) && Run(s, a + b) == Run(Run(s, a), b)
    decreases |a|
  {
    hide Next, Allowed;
    if a == [] {
      assert a + b == b;
    } else {
      assert (a + b)[0] == a[0] && (a + b)[1..] == a[1..] + b;
      RunJoin(Next(s, a[0]), a[1..], b);
    }
  }

  ghost predicate Interrupting(step: Step) {
    step.SessionCancel? || step.RequestCancel? || step.FailAll? || step.Drain? || step.Skip?
  }

  lemma DrainIsAStep(s: Host)
    ensures Allowed(s, Drain) && Next(s, Drain) == DrainOutbox(s)
  {
  }

  lemma SessionCancelIsAStep(s: Host, sid: SessionId, order: seq<JsonRpcId>)
    requires Enumerates(order, CascadeIds(s, sid))
    ensures Allowed(s, SessionCancel(sid, order))
    ensures Next(s, SessionCancel(sid, order)) == if s.initialized then CancelSession(s, sid, order) else s
  {
  }

  lemma RequestCancelIsAStep(s: Host, id: JsonRpcId)
    ensures Allowed(s, RequestCancel(id))
    ensures Next(s, RequestCancel(id)) == if s.initialized then CancelRequest(s, id) else s
  {
  }

  lemma FailClosedIsAStep(s: Host, orders: Orders)
    requires OrdersFor(orders, s)
    ensures Allowed(s, FailAll(orders)) && Next(s, FailAll(orders)) == FailClosed(s, orders)
  {
  }

  lemma SkipIsAStep(s: Host)
    ensures Allowed(s, Skip) && Next(s, Skip) == s
  {
  }

  lemma NothingArrived(arrivals: seq<Arrival>, s: Host)
    ensures NonDrain(Letters(arrivals[..0])) == [] && AllowedRun(s, []) && Run(s, []) == s
  {
  }

  lemma LettersSnoc(arrivals: seq<Arrival>, i: nat)
    requires i < |arrivals|
    ensures NonDrain(Letters(arrivals[..i + 1])) == NonDrain(Letters(arrivals[..i]))
      + Deferring(arrivals[i])
  {
    assert arrivals[..i + 1][..i] == arrivals[..i];
    if arrivals[i].MailArrival? {
      NonDrainAppend(Letters(arrivals[..i]), [arrivals[i].mail]);
      NonDrainOne(arrivals[i].mail);
    } else {
      assert Letters(arrivals[..i]) + [] == Letters(arrivals[..i]);
    }
  }

  lemma {:induction false} RunSnoc(s: Host, steps: seq<Step>, last: Step)
    requires AllowedRun(s, steps) && Allowed(Run(s, steps), last)
    ensures AllowedRun(s, steps + [last]) && Run(s, steps + [last]) == Next(Run(s, steps), last)
    decreases |steps|
  {
    hide Next, Allowed;
    if steps == [] {
      assert [last][1..] == [];
    } else {
      assert (steps + [last])[0] == steps[0] && (steps + [last])[1..] == steps[1..] + [last];
      RunSnoc(Next(s, steps[0]), steps[1..], last);
    }
  }

  /** In a coupled state a request id that no running prompt has names at most one slot. */
  lemma OneSlotPerRequest(s: Host, id: JsonRpcId, flight: Option<Flight>)
    requires CoupledFor(s, flight)
    ensures id !in s.pendingPrompts ==>
      forall a, b | a in s.occupancy && b in s.occupancy
          && s.occupancy[a].requestId == id == s.occupancy[b].requestId :: a == b
  {
    if id !in s.pendingPrompts {
      forall a | a in s.occupancy && s.occupancy[a].requestId == id ensures s.occupancy[a].runId.None? {
        BoundHasPrompt(s, a);
      }
    }
  }

  lemma BoundHasPrompt(s: Host, sid: SessionId)
    requires Linked(s) && sid in s.occupancy
    ensures s.occupancy[sid].runId.Some? ==> s.occupancy[sid].requestId in s.pendingPrompts
  {
    if s.occupancy[sid].runId.Some? {
      assert SlotLinked(sid, s.occupancy[sid], s.runSessions, s.pendingPrompts);
    }
  }

  ghost function AnyOrders(s: Host): (orders: Orders)
    ensures OrdersFor(orders, s)
  {
    Orders(AnyOrder(s.runSessions.Keys), AnyOrder(s.pendingPrompts.Keys), AnyOrder(s.pendingPermissions.Keys))
  }

  /** Some walking order of a set. */
  ghost function AnyOrder<T>(s: set<T>): (q: seq<T>)
    ensures Enumerates(q, s)
    decreases |s|
  {
    if s == {} then []
    else
      var x :| x in s;
      var rest := AnyOrder(s - {x});
      assert forall y | y in s :: y == x || y in rest;
      [x] + rest
  }

  lemma EnumeratesSnoc<T>(q: seq<T>, s: set<T>, x: T)
    requires Enumerates(q, s) && x !in s
    ensures Enumerates(q + [x], s + {x})
  {
  }

  lemma CascadeNone(s: Host)
    ensures Cascade(s, []) == s
  {
    assert s.pendingPermissions - (set id: JsonRpcId | id in []) == s.pendingPermissions;
    assert CancelNotices([]) == [];
  }

  /** One more permission swept: the spec's sweep of a longer order. */
  lemma CascadeOne(s: Host, order: seq<JsonRpcId>, id: JsonRpcId)
    requires id in s.pendingPermissions
    ensures Cascade(s, order + [id]) ==
      PushOutbox(Cascade(s, order).(
        pendingPermissions := Cascade(s, order).pendingPermissions - {id},
        log := Cascade(s, order).log.(cascaded :=
          Cascade(s, order).log.cascaded + [Ask(id, s.pendingPermissions[id])])),
        [Frame(CancelNotice(id))])
  {
    AsksAndNoticesSnoc(s.pendingPermissions, order, id);
    hide AsksOf, CancelNotices;
    var frames, asks := s.log.emitted, s.log.cascaded;
    assert frames + (CancelNotices(order) + [Frame(CancelNotice(id))])
        == frames + CancelNotices(order) + [Frame(CancelNotice(id))];
    assert s.outbox + (CancelNotices(order) + [Frame(CancelNotice(id))])
        == s.outbox + CancelNotices(order) + [Frame(CancelNotice(id))];
    assert asks + (AsksOf(s.pendingPermissions, order) + [Ask(id, s.pendingPermissions[id])])
        == asks + AsksOf(s.pendingPermissions, order) + [Ask(id, s.pendingPermissions[id])];
  }

  lemma AsksAndNoticesSnoc(pending: map<JsonRpcId, PendingPermission>, order: seq<JsonRpcId>, id: JsonRpcId)
    requires id in pending
    ensures AsksOf(pending, order + [id]) == AsksOf(pending, order) + [Ask(id, pending[id])]
    ensures CancelNotices(order + [id]) == CancelNotices(order) + [Frame(CancelNotice(id))]
    ensures pending - (set x | x in order + [id]) == pending - (set x | x in order) - {id}
  {
    assert (order + [id])[..|order|] == order;
    assert (set x | x in order + [id]) == (set x | x in order) + {id};
  }
}
