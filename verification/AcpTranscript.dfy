/**
 * What the client can tell from what it is given: from a run's frames it can read
 * back the run's own events, and each prompt's answer says how its run ended.
 */
module AcpTranscript {
  import opened Common
  import opened AcpTypes
  import opened AcpHost
  import opened AcpCoupling
  import opened AcpOrder
  import opened AcpPrompts

  // ------------------------------------------------------------------- reading back

  /** The event of which a frame tells; `run` is the run the frame belongs to. */
  function EventBehind(frame: WireFrame): Option<AppEvent> {
    match frame
    case PermissionFrame(_, _, run, tool, reason) => Some(ToolApprovalRequired(run, tool, reason))
    case CancelNotice(_) => None
    case UpdateFrame(_, run, update) =>
      Some(
        match update
        case AgentMessageChunk(message, text) => AssistantDelta(run, message, text)
        case AgentThoughtChunk(message, text) => ThinkingDelta(run, message, text)
        case ToolCallPending(tool, title) => ToolStarted(run, tool, title)
        case ToolCallInProgress(tool, text) => ToolOutput(run, tool, text)
        case ToolCallDone(tool, success) => ToolCompleted(run, tool, success))
  }

  function ReadBack(items: seq<OutboxItem>): seq<AppEvent> {
    if items == [] then []
    else
      var rest := ReadBack(items[..|items| - 1]);
      var last := items[|items| - 1];
      if last.Frame? && EventBehind(last.frame).Some? then rest + [EventBehind(last.frame).value] else rest
  }

  /** The kinds of event that have a form for the client. */
  predicate Tellable(e: AppEvent) {
    || e.AssistantDelta? || e.ThinkingDelta? || e.ToolStarted? || e.ToolOutput? || e.ToolCompleted?
    || e.ToolApprovalRequired?
  }

  predicate Ends(e: AppEvent) {
    e.RunChanged? && (e.state == Completed || e.state == Cancelled || e.state == Failed || e.state == Interrupted)
  }

  /** The events of one run among those that arrived: all that carry its id. */
  function Story(arrived: seq<Envelope>, run: RunId): seq<AppEvent> {
    if arrived == [] then []
    else
      var rest := Story(arrived[..|arrived| - 1], run);
      var e := arrived[|arrived| - 1].payload;
      if !e.Diagnostic? && !e.Unrelated? && e.run == run then rest + [e] else rest
  }

  function TellableOf(events: seq<AppEvent>): seq<AppEvent> {
    if events == [] then []
    else
      var last := events[|events| - 1];
      TellableOf(events[..|events| - 1]) + (if Tellable(last) then [last] else [])
  }

  /** The run's events while it was going: those before the first that ends it. */
  predicate Before(events: seq<AppEvent>, k: nat) {
    k <= |events| && (forall i | 0 <= i < k :: !Ends(events[i])) && (k < |events| ==> Ends(events[k]))
  }

  lemma {:induction false} StoryIsEvents(arrived: seq<Envelope>, run: RunId)
    ensures Story(arrived, run) == EventsOf(arrived, run)
  {
    if arrived != [] {
      StoryIsEvents(arrived[..|arrived| - 1], run);
      var rest := Story(arrived[..|arrived| - 1], run);
      assert rest + [] == rest;
    }
  }

  lemma {:induction false} ReadBackAppend(a: seq<OutboxItem>, b: seq<OutboxItem>)
    ensures ReadBack(a + b) == ReadBack(a) + ReadBack(b)
  {
    if b == [] {
      assert a + b == a;
    } else {
      assert (a + b)[..|a + b| - 1] == a + b[..|b| - 1];
      ReadBackAppend(a, b[..|b| - 1]);
    }
  }

  lemma ReadBackOne(x: OutboxItem)
    ensures ReadBack([x]) == if x.Frame? && EventBehind(x.frame).Some? then [EventBehind(x.frame).value] else []
  {
    assert [x][..0] == [] && ReadBack([x][..0]) == [];
  }

  /** What is shown for an event reads back as that event. */
  lemma ShownReadsBack(b: BoundPrompt, e: AppEvent)
    ensures ReadBack(Shown(b, e)) == if Tellable(e) then [e] else []
  {
    if Tellable(e) {
      assert |Shown(b, e)| == 1;
      ReadBackOne(Shown(b, e)[0]);
    } else {
      assert Shown(b, e) == [];
    }
  }

  lemma {:induction false} ShownAllReadsBack(b: BoundPrompt, events: seq<AppEvent>)
    ensures ReadBack(ShownAll(b, events)) == TellableOf(events)
  {
    if events != [] {
      var n := |events| - 1;
      ShownAllReadsBack(b, events[..n]);
      ShownReadsBack(b, events[n]);
      hide Shown;
      ReadBackAppend(ShownAll(b, events[..n]), Shown(b, events[n]));
    }
  }

  lemma EndsIsTerminal(e: AppEvent)
    ensures Ends(e) == IsTerminal(e)
  {
  }

  lemma BeforeIsFirstTerminal(events: seq<AppEvent>, k: nat)
    requires Before(events, k)
    ensures FirstTerminal(events) == k
  {
    forall i | 0 <= i < |events| ensures Ends(events[i]) == IsTerminal(events[i]) { EndsIsTerminal(events[i]); }
    FirstTerminalIs(events, k);
  }

  /**
   * Whatever was held back and whatever came in between: from the frames of a bound
   * run the client reads back exactly the run's events before its end, in order,
   * deltas, names, reasons and all.
   */
  lemma ClientReadsRunBack(steps: seq<Step>, r: RunId, k: nat)
    requires AllowedRun(INITIAL_HOST, steps) && forall i | 0 <= i < |steps| :: StreamsAgree(steps[i])
    requires r in Run(INITIAL_HOST, steps).log.bound
    requires Before(Story(Run(INITIAL_HOST, steps).log.arrived, r), k)
    ensures var s := Run(INITIAL_HOST, steps);
      ReadBack(ItemsOf(s.log.taken + s.outbox, r)) == TellableOf(Story(s.log.arrived, r)[..k])
  {
    var s := Run(INITIAL_HOST, steps);
    ClientSeesRunInOrder(steps, r);
    StoryIsEvents(s.log.arrived, r);
    var events := EventsOf(s.log.arrived, r);
    BeforeIsFirstTerminal(events, k);
    ExpectedReadsBack(s.log.bound[r], events);
  }

  lemma ExpectedReadsBack(b: BoundPrompt, events: seq<AppEvent>)
    ensures ReadBack(Expected(b, events)) == TellableOf(events[..FirstTerminal(events)])
  {
    var k := FirstTerminal(events);
    ShownAllReadsBack(b, events[..k]);
    if k < |events| {
      var barrier := FlushBarrier(events[k].run, b.completion, ResolutionOf(events[k].state).value);
      ReadBackAppend(ShownAll(b, events[..k]), [barrier]);
      ReadBackOne(barrier);
    } else {
      assert ShownAll(b, events[..k]) + [] == ShownAll(b, events[..k]);
    }
  }

  /** An event on a run's stream belongs to that run: delivered if the run is bound, else held if it names a run at all. */
  lemma StreamDecides(s: Host, e: Envelope)
    requires e.stream.RunStream?
    ensures RouteOrHold(s, e).heldEvents ==
      if e.stream.run !in s.runSessions && !e.payload.Diagnostic? && !e.payload.Unrelated? then s.heldEvents + [e]
      else s.heldEvents
  {
    hide TranslateSessionUpdate, SnapshotOf, FindPrompt, ResolutionOf;
  }

  // ---------------------------------------------------------------- how a prompt is answered

  /** What the client is told of a run that ended in `state`. */
  predicate Tells(state: RunState, resolution: Resolution) {
    && (resolution == Stopped(EndTurn) <==> state == Completed)
    && (resolution == Stopped(StopCancelled) <==> state == Cancelled || state == Interrupted)
    && (resolution == TurnFailed <==> state == Failed)
  }

  lemma TellsIffResolution(state: RunState, resolution: Resolution)
    requires Ends(RunChanged(RunId(""), state))
    ensures Tells(state, resolution) <==> ResolutionOf(state) == Some(resolution)
  {
  }

  /** In `s` the prompt on channel `c` is that of a bound run whose first end says `resolution`. */
  ghost predicate EndSays(s: Host, c: Channel, resolution: Resolution) {
    exists r: RunId, k: nat :: EndOf(s, r, k, c, resolution)
  }

  ghost predicate EndOf(s: Host, r: RunId, k: nat, c: Channel, resolution: Resolution) {
    && r in s.log.bound && s.log.bound[r].completion == c
    && var events := Story(s.log.arrived, r);
       k < |events| && Before(events, k) && Tells(events[k].state, resolution)
  }

  lemma ShownAllHasNoBarrier(b: BoundPrompt, events: seq<AppEvent>, x: OutboxItem)
    requires x in ShownAll(b, events)
    ensures x.Frame?
  {
  }

  lemma {:induction false} ItemsOfHas(q: seq<OutboxItem>, x: OutboxItem, r: RunId)
    requires x in q && CauseOf(x) == Some(r)
    ensures Erase(x) in ItemsOf(q, r)
  {
    var n := |q| - 1;
    if x != q[n] {
      assert q == q[..n] + [q[n]];
      ItemsOfHas(q[..n], x, r);
    }
  }

  /** A barrier belongs to a bound run that has ended, and says how. */
  lemma BarrierEnds(s: Host, x: OutboxItem)
    requires InOrder(s, []) && x in s.log.emitted && x.FlushBarrier?
    ensures exists k: nat :: EndOf(s, x.run, k, x.completion, x.resolution)
  {
    var r := x.run;
    ItemsOfHas(s.log.emitted, x, r);
    var events := EventsOf(s.log.arrived, r);
    assert RunInOrder(s, [], r);
    assert r in s.log.bound;
    var b := s.log.bound[r];
    assert events[..|events|] == events;
    assert ItemsOf(s.log.emitted, r) == Expected(b, events);
    var k := FirstTerminal(events);
    if x in ShownAll(b, events[..k]) { ShownAllHasNoBarrier(b, events[..k], x); }
    assert k < |events|;
    StoryIsEvents(s.log.arrived, r);
    forall i | 0 <= i < |events| ensures Ends(events[i]) == IsTerminal(events[i]) { EndsIsTerminal(events[i]); }
    TellsIffResolution(events[k].state, x.resolution);
    assert EndOf(s, r, k, x.completion, x.resolution);
  }

  lemma BarrierSaysEnd(s: Host, x: OutboxItem)
    requires InOrder(s, []) && x in s.log.emitted && x.FlushBarrier?
    ensures EndSays(s, x.completion, x.resolution)
  {
    BarrierEnds(s, x);
  }

  /** The step is a fail-closed that meets the prompt on channel `c` still pending. */
  ghost predicate FailsPending(s: Host, step: Step, d: Delivery) {
    && step.FailAll? && d.resolution == TurnFailed
    && exists id :: id in s.pendingPrompts && s.pendingPrompts[id].completion == d.completion
  }

  /** Somewhere along the run, `d` is what the end of the prompt's run says, or what fail-closed answers. */
  ghost predicate Justified(s: Host, steps: seq<Step>, d: Delivery)
    requires AllowedRun(s, steps)
    decreases |steps|
  {
    || EndSays(s, d.completion, d.resolution)
    || (steps != [] && (FailsPending(s, steps[0], d) || Justified(Next(s, steps[0]), steps[1..], d)))
  }

  /** Answers on their way to a prompt, and those it has had. */
  ghost predicate Answered(s: Host, d: Delivery) {
    d in BarrierDeliveries(s.handed) || d in s.log.delivered
  }

  lemma {:induction false} DeliveryHasBarrier(items: seq<OutboxItem>, d: Delivery)
    requires d in BarrierDeliveries(items)
    ensures exists x :: x in items && x.FlushBarrier? && x.completion == d.completion && x.resolution == d.resolution
  {
    var n := |items| - 1;
    var last := items[n];
    assert items == items[..n] + [last];
    if d in BarrierDeliveries(items[..n]) {
      DeliveryHasBarrier(items[..n], d);
      var x :| x in items[..n] && x.FlushBarrier? && x.completion == d.completion && x.resolution == d.resolution;
      assert x in items;
    } else {
      assert last in items;
    }
  }

  lemma QueuedIsSaid(s: Host, d: Delivery)
    requires InOrder(s, []) && TakenInOrder(s) && d in BarrierDeliveries(s.outbox)
    ensures EndSays(s, d.completion, d.resolution)
  {
    DeliveryHasBarrier(s.outbox, d);
    var x :| x in s.outbox && x.FlushBarrier? && x.completion == d.completion && x.resolution == d.resolution;
    assert x in s.log.emitted;
    BarrierSaysEnd(s, x);
  }

  lemma {:induction false} ItemsOfFrom(q: seq<OutboxItem>, x: OutboxItem, r: RunId)
    requires x in ItemsOf(q, r) && x.FlushBarrier?
    ensures x in q
  {
    var n := |q| - 1;
    if x in ItemsOf(q[..n], r) {
      ItemsOfFrom(q[..n], x, r);
      assert q == q[..n] + [q[n]];
    } else {
      assert q[n] in q;
    }
  }

  /**
   * Over every run: exactly the bound runs that have ended have a barrier, and it
   * says how they first ended.
   */
  lemma BarrierTellsEnd(steps: seq<Step>, r: RunId, c: Channel, resolution: Resolution)
    requires AllowedRun(INITIAL_HOST, steps) && forall i | 0 <= i < |steps| :: StreamsAgree(steps[i])
    ensures var s := Run(INITIAL_HOST, steps);
      FlushBarrier(r, c, resolution) in s.log.taken + s.outbox <==> exists k: nat :: EndOf(s, r, k, c, resolution)
  {
    var s := Run(INITIAL_HOST, steps);
    var x := FlushBarrier(r, c, resolution);
    InitiallyCoupled();
    InitiallyInOrder();
    AlwaysInOrder(INITIAL_HOST, steps);
    if x in s.log.emitted { BarrierEnds(s, x); }
    if k: nat :| EndOf(s, r, k, c, resolution) {
      EndHasBarrier(s, r, k, c, resolution);
    }
    hide InOrder, EndOf;
  }

  lemma EndHasBarrier(s: Host, r: RunId, k: nat, c: Channel, resolution: Resolution)
    requires InOrder(s, []) && EndOf(s, r, k, c, resolution)
    ensures FlushBarrier(r, c, resolution) in s.log.emitted
  {
    var events := EventsOf(s.log.arrived, r);
    StoryIsEvents(s.log.arrived, r);
    BeforeIsFirstTerminal(events, k);
    assert RunInOrder(s, [], r);
    assert events[..|events|] == events;
    EventsAreOfRun(s.log.arrived, r);
    TellsIffResolution(events[k].state, resolution);
    var x := FlushBarrier(r, c, resolution);
    var shown := ShownAll(s.log.bound[r], events[..k]);
    assert ItemsOf(s.log.emitted, r) == shown + [x];
    assert (shown + [x])[|shown|] == x;
    ItemsOfFrom(s.log.emitted, x, r);
  }

  lemma {:induction false} EventsAreOfRun(arrived: seq<Envelope>, r: RunId)
    ensures forall i | 0 <= i < |EventsOf(arrived, r)| :: RunIdOf(EventsOf(arrived, r)[i]) == Some(r)
  {
    if arrived != [] { EventsAreOfRun(arrived[..|arrived| - 1], r); }
  }

  lemma {:induction false} DeliveriesAppend(a: seq<OutboxItem>, b: seq<OutboxItem>)
    ensures BarrierDeliveries(a + b) == BarrierDeliveries(a) + BarrierDeliveries(b)
  {
    BarrierDeliveriesAppend(a, b);
  }

  /** A new answer comes out of the outbox, or from a fail-closed. */
  lemma StepAnswers(s: Host, step: Step, d: Delivery)
    requires Coupled(s) && Allowed(s, step) && Answered(Next(s, step), d)
    ensures Answered(s, d) || d in BarrierDeliveries(s.outbox) || FailsPending(s, step, d)
  {
    if step.Drain? {
      DeliveriesAppend(s.handed, s.outbox);
    } else if step.Consume? {
      ConsumeAnswers(s, d);
    } else if step.ReleaseBatch? || step.LoseBatch? {
    } else if step.FailAll? {
      FailAnswers(s, step.orders, d);
    } else {
      OthersAnswerNobody(s, step);
    }
    hide Next, FailsPending, BarrierDeliveries;
  }

  lemma ConsumeAnswers(s: Host, d: Delivery)
    requires Answered(ConsumeOne(s), d)
    ensures Answered(s, d)
  {
    if s.handed != [] {
      assert s.handed == s.handed[..1] + s.handed[1..];
      DeliveriesAppend(s.handed[..1], s.handed[1..]);
    }
  }

  lemma FailAnswers(s: Host, orders: Orders, d: Delivery)
    requires OrdersFor(orders, s) && Answered(FailClosed(s, orders), d)
    ensures Answered(s, d) || d in BarrierDeliveries(s.outbox) || FailsPending(s, FailAll(orders), d)
  {
    var failed := FailedDeliveries(s.pendingPrompts, orders.prompts);
    FailDelivered(s, orders);
    if d in failed {
      var i :| 0 <= i < |failed| && failed[i] == d;
      assert orders.prompts[i] in s.pendingPrompts;
    }
    hide FailClosed;
  }

  lemma FailDelivered(s: Host, orders: Orders)
    requires OrdersFor(orders, s)
    ensures FailClosed(s, orders).log.delivered
      == s.log.delivered + FailedDeliveries(s.pendingPrompts, orders.prompts) + BarrierDeliveries(s.outbox)
    ensures FailClosed(s, orders).handed == s.handed
  {
    hide RunCancels, Denials, FailedDeliveries, BarrierDeliveries, SnapshotOf;
  }

  lemma OthersAnswerNobody(s: Host, step: Step)
    requires Allowed(s, step)
    requires !step.Drain? && !step.Consume? && !step.ReleaseBatch? && !step.LoseBatch? && !step.FailAll?
    ensures var t := Next(s, step); t.handed == s.handed && t.log.delivered == s.log.delivered
  {
    hide CancelSession, CancelRequest, FailClosed, CoreReply, PumpEvents, BeginPrompt, HandleResponse, SnapshotOf;
    if step.Pump? { PumpKeepsFrame(s, step.events); }
    if step.Reply? { ReplyAnswersNobody(s, step.reply, step.order); }
    if step.Prompt? { BeginAnswersNobody(s, step.id, step.session, step.admission); }
    if step.SessionCancel? || step.CloseSession? { CancelAnswersNobody(s, step.session, step.order); }
    if step.RequestCancel? { RequestCancelAnswersNobody(s, step.id); }
    if step.Answer? { ResponseAnswersNobody(s, step.id, step.answer); }
  }

  lemma BeginAnswersNobody(s: Host, id: JsonRpcId, sid: SessionId, admission: Admission)
    ensures var t := BeginPrompt(s, id, sid, admission); t.handed == s.handed && t.log.delivered == s.log.delivered
  {
    hide SnapshotOf;
  }

  lemma ResponseAnswersNobody(s: Host, id: JsonRpcId, answer: PermissionAnswer)
    ensures var t := HandleResponse(s, id, answer); t.handed == s.handed && t.log.delivered == s.log.delivered
  {
    hide DecisionFor;
  }

  lemma CancelAnswersNobody(s: Host, sid: SessionId, order: seq<JsonRpcId>)
    ensures var t := CancelSession(s, sid, order); t.handed == s.handed && t.log.delivered == s.log.delivered
  {
    hide AsksOf, CancelNotices;
  }

  lemma RequestCancelAnswersNobody(s: Host, id: JsonRpcId)
    ensures var t := CancelRequest(s, id); t.handed == s.handed && t.log.delivered == s.log.delivered
  {
    CancelRequestCases(s, id);
    hide CancelRequest, FindSlot;
  }

  lemma ReplyAnswersNobody(s: Host, reply: Reply, order: seq<JsonRpcId>)
    ensures var t := CoreReply(s, reply, order); t.handed == s.handed && t.log.delivered == s.log.delivered
  {
    if s.inFlight.Some? && s.inFlight.value.PromptFlight? && reply.Accepted?
      && s.inFlight.value.session in s.occupancy
    {
      var f := s.inFlight.value;
      var s1 := Bind(NoteAccepted(s.(inFlight := None), reply.run), f, reply.run).(heldEvents := []);
      RouteAllKeepsFrame(s1, s.heldEvents);
      ReplayAnswersNobody(RouteAll(s1, s.heldEvents), f, order);
    }
    hide RouteAll, ReplayEarlyCancels, SnapshotOf;
  }

  lemma ReplayAnswersNobody(u: Host, f: Flight, order: seq<JsonRpcId>)
    requires f.PromptFlight?
    ensures var t := ReplayEarlyCancels(u, f, order); t.handed == u.handed && t.log.delivered == u.log.delivered
  {
    var u1 := ClearEarlyCancels(u, f.session);
    CancelAnswersNobody(u1, f.session, order);
    RequestCancelAnswersNobody(u1, f.requestId);
    hide CancelSession, CancelRequest, SnapshotOf;
  }

  lemma {:induction false} AlwaysJustified(s: Host, steps: seq<Step>, d: Delivery)
    requires Coupled(s) && InOrder(s, []) && TakenInOrder(s) && AllowedRun(s, steps)
    requires forall i | 0 <= i < |steps| :: StreamsAgree(steps[i])
    requires Answered(Run(s, steps), d)
    ensures Answered(s, d) || Justified(s, steps, d)
    decreases |steps|
  {
    if steps != [] {
      var t := Next(s, steps[0]);
      StepKeepsCoupled(s, steps[0]);
      StepKeepsInOrder(s, steps[0]);
      StepKeepsTaken(s, steps[0]);
      hide Coupled, InOrder, TakenInOrder, Next, Answered, EndSays, FailsPending;
      AlwaysJustified(t, steps[1..], d);
      if Answered(t, d) {
        StepAnswers(s, steps[0], d);
        if d in BarrierDeliveries(s.outbox) { QueuedIsSaid(s, d); }
      }
    }
  }

  /**
   * Over every run, the answer a prompt is given says how its run first ended, or is
   * "failed", from a fail-closed that met the prompt still pending.
   */
  lemma PromptAnswersAreTrue(steps: seq<Step>, d: Delivery)
    requires AllowedRun(INITIAL_HOST, steps) && forall i | 0 <= i < |steps| :: StreamsAgree(steps[i])
    requires d in Run(INITIAL_HOST, steps).log.delivered
    ensures Justified(INITIAL_HOST, steps, d)
  {
    InitiallyCoupled();
    InitiallyInOrder();
    AlwaysJustified(INITIAL_HOST, steps, d);
  }

  lemma InitiallyInOrder()
    ensures InOrder(INITIAL_HOST, []) && TakenInOrder(INITIAL_HOST)
  {
  }
}
