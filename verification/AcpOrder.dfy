/**
 * Per-run order: whatever happened to an event - delivered at once, or held
 * until its run was bound - the client sees, for each bound run, the translation
 * of that run's events before its first terminal one, in arrival order, then one
 * flush barrier, then nothing. Counted since the last fail-closed.
 */
module AcpOrder {
  import opened Common
  import opened AcpTypes
  import opened AcpHost
  import opened AcpCoupling

  // ------------------------------------------------------------ the declarative form

  /** The events of one run, in order. */
  function EventsOf(q: seq<Envelope>, run: RunId): seq<AppEvent> {
    if q == [] then []
    else
      var last := q[|q| - 1].payload;
      EventsOf(q[..|q| - 1], run) + (if RunIdOf(last) == Some(run) then [last] else [])
  }

  function CauseOf(item: OutboxItem): Option<RunId> {
    match item
    case FlushBarrier(run, _, _) => Some(run)
    case Frame(UpdateFrame(_, run, _)) => Some(run)
    case Frame(PermissionFrame(_, _, run, _, _)) => Some(run)
    case Frame(CancelNotice(_)) => None
  }

  /** The item without the number the host gave it. */
  function Erase(item: OutboxItem): OutboxItem {
    match item
    case Frame(PermissionFrame(_, session, run, tool, reason)) =>
      Frame(PermissionFrame(NullId, session, run, tool, reason))
    case _ => item
  }

  /** The outbox items that one run caused, in order. */
  function ItemsOf(q: seq<OutboxItem>, run: RunId): seq<OutboxItem> {
    if q == [] then []
    else
      var last := q[|q| - 1];
      ItemsOf(q[..|q| - 1], run) + (if CauseOf(last) == Some(run) then [Erase(last)] else [])
  }

  predicate IsTerminal(e: AppEvent) {
    e.RunChanged? && TerminalState(e.state)
  }

  /** What the client is shown for an event of a run that is still going. */
  function Shown(b: BoundPrompt, e: AppEvent): seq<OutboxItem> {
    if e.ToolApprovalRequired? then [Frame(PermissionFrame(NullId, b.session, e.run, e.tool, e.reason))]
    else
      var update := TranslateSessionUpdate(e);
      if update.Some? then [Frame(UpdateFrame(b.session, e.run, update.value))] else []
  }

  function ShownAll(b: BoundPrompt, events: seq<AppEvent>): seq<OutboxItem> {
    if events == [] then []
    else ShownAll(b, events[..|events| - 1]) + Shown(b, events[|events| - 1])
  }

  /** The position of the first terminal event, or the length if there is none. */
  function FirstTerminal(events: seq<AppEvent>): (k: nat)
    ensures k <= |events|
    ensures forall i | 0 <= i < k :: !IsTerminal(events[i])
    ensures k < |events| ==> IsTerminal(events[k])
  {
    if events == [] then 0
    else
      var k := FirstTerminal(events[..|events| - 1]);
      if k < |events| - 1 || IsTerminal(events[|events| - 1]) then k else |events|
  }

  function Expected(b: BoundPrompt, events: seq<AppEvent>): seq<OutboxItem> {
    var k := FirstTerminal(events);
    ShownAll(b, events[..k])
    + (if k < |events|
       then [FlushBarrier(events[k].run, b.completion, ResolutionOf(events[k].state).value)]
       else [])
  }

  // ------------------------------------------------------------------ small facts

  lemma {:induction false} EventsOfAppend(a: seq<Envelope>, b: seq<Envelope>, run: RunId)
    ensures EventsOf(a + b, run) == EventsOf(a, run) + EventsOf(b, run)
  {
    if b == [] {
      assert a + b == a;
    } else {
      assert (a + b)[..|a + b| - 1] == a + b[..|b| - 1];
      EventsOfAppend(a, b[..|b| - 1], run);
    }
  }

  lemma EventsOfOne(e: Envelope, run: RunId)
    ensures EventsOf([e], run) == if RunIdOf(e.payload) == Some(run) then [e.payload] else []
  {
    assert [e][..0] == [] && EventsOf([e][..0], run) == [];
  }

  lemma {:induction false} ItemsOfAppend(a: seq<OutboxItem>, b: seq<OutboxItem>, run: RunId)
    ensures ItemsOf(a + b, run) == ItemsOf(a, run) + ItemsOf(b, run)
  {
    if b == [] {
      assert a + b == a;
    } else {
      assert (a + b)[..|a + b| - 1] == a + b[..|b| - 1];
      ItemsOfAppend(a, b[..|b| - 1], run);
    }
  }

  lemma ItemsOfSnoc(a: seq<OutboxItem>, x: OutboxItem, run: RunId)
    ensures ItemsOf(a + [x], run) == if CauseOf(x) == Some(run) then ItemsOf(a, run) + [Erase(x)] else ItemsOf(a, run)
  {
    assert (a + [x])[..|a|] == a;
  }

  lemma {:induction false} NoticesCauseNothing(ids: seq<JsonRpcId>, run: RunId)
    ensures ItemsOf(CancelNotices(ids), run) == []
  {
    if ids != [] {
      var n := |ids| - 1;
      NoticesCauseNothing(ids[..n], run);
      assert CancelNotices(ids)[..n] == CancelNotices(ids[..n]);
    }
  }

  lemma FirstTerminalIs(events: seq<AppEvent>, k: nat)
    requires k <= |events| && (forall i | 0 <= i < k :: !IsTerminal(events[i]))
    requires k < |events| ==> IsTerminal(events[k])
    ensures FirstTerminal(events) == k
  {
  }

  /** The run is still going: one more event adds its own items, and a terminal one the barrier. */
  lemma ExpectedGoing(b: BoundPrompt, done: seq<AppEvent>, e: AppEvent, rest: seq<AppEvent>)
    requires FirstTerminal(done) == |done|
    ensures !IsTerminal(e) ==>
      FirstTerminal(done + [e]) == |done + [e]| && Expected(b, done + [e]) == Expected(b, done) + Shown(b, e)
    ensures IsTerminal(e) ==>
      && FirstTerminal(done + [e] + rest) == |done|
      && Expected(b, done + [e] + rest)
         == Expected(b, done) + [FlushBarrier(e.run, b.completion, ResolutionOf(e.state).value)]
  {
    if IsTerminal(e) {
      var all := done + [e] + rest;
      FirstTerminalIs(all, |done|);
      assert all[..|done|] == done && done[..|done|] == done;
    } else {
      FirstTerminalIs(done + [e], |done| + 1);
      assert (done + [e])[..|done| + 1] == done + [e] && (done + [e])[..|done|] == done && done[..|done|] == done;
    }
  }

  /** The run is over: later events change nothing. */
  lemma ExpectedOver(b: BoundPrompt, events: seq<AppEvent>, more: seq<AppEvent>)
    requires FirstTerminal(events) < |events|
    ensures FirstTerminal(events + more) == FirstTerminal(events)
    ensures Expected(b, events + more) == Expected(b, events)
  {
    var k := FirstTerminal(events);
    FirstTerminalIs(events + more, k);
    assert (events + more)[..k] == events[..k];
  }

  // ------------------------------------------------------------------- invariant

  /** A `Run` stream and the payload it carries name the same run. */
  predicate StreamAgrees(e: Envelope) {
    e.stream.RunStream? && RunIdOf(e.payload).Some? ==> e.stream.run == RunIdOf(e.payload).value
  }

  /** `bound` records the session, request and channel that each bound run still has. */
  ghost predicate BoundMatches(s: Host) {
    && (forall r | r in s.runSessions :: r in s.log.bound && s.log.bound[r].session == s.runSessions[r])
    && (forall id | id in s.pendingPrompts ::
          var p := s.pendingPrompts[id];
          p.run in s.log.bound && s.log.bound[p.run] == BoundPrompt(p.session, id, p.completion))
  }

  /**
   * One run's order: `all` its events so far, of which `held` wait for the run to
   * be bound and `left` are still to be routed, and `items` what it caused so far.
   */
  ghost predicate OrderOf(
      b: Option<BoundPrompt>, live: bool, all: seq<AppEvent>, held: seq<AppEvent>, left: seq<AppEvent>,
      items: seq<OutboxItem>)
  {
    if b.None? then all == held + left && items == []
    else if live then
      && held == []
      && |left| <= |all|
      && all == all[..|all| - |left|] + left
      && FirstTerminal(all[..|all| - |left|]) == |all| - |left|
      && items == Expected(b.value, all[..|all| - |left|])
    else FirstTerminal(all) < |all| && items == Expected(b.value, all)
  }

  function BoundOf(bound: map<RunId, BoundPrompt>, r: RunId): Option<BoundPrompt> {
    if r in bound then Some(bound[r]) else None
  }

  ghost predicate RunInOrder(s: Host, rest: seq<Envelope>, r: RunId) {
    OrderOf(BoundOf(s.log.bound, r), r in s.runSessions, EventsOf(s.log.arrived, r),
      EventsOf(s.heldEvents, r), EventsOf(rest, r), ItemsOf(s.log.emitted, r))
  }

  ghost predicate InOrder(s: Host, rest: seq<Envelope>) {
    && BoundMatches(s)
    && (forall i | 0 <= i < |s.heldEvents| :: StreamAgrees(s.heldEvents[i]))
    && (forall r: RunId :: RunInOrder(s, rest, r))
  }

  // ------------------------------------------------------- one event, one run

  lemma OrderHold(
      b: Option<BoundPrompt>, all: seq<AppEvent>, held: seq<AppEvent>, p: AppEvent, left: seq<AppEvent>,
      items: seq<OutboxItem>)
    requires OrderOf(b, false, all, held, [p] + left, items)
    ensures OrderOf(b, false, all, held + [p], left, items)
  {
    assert held + ([p] + left) == held + [p] + left;
  }

  lemma OrderShow(
      b: BoundPrompt, all: seq<AppEvent>, held: seq<AppEvent>, p: AppEvent, left: seq<AppEvent>,
      items: seq<OutboxItem>)
    requires OrderOf(Some(b), true, all, held, [p] + left, items)
    ensures !IsTerminal(p) ==> OrderOf(Some(b), true, all, held, left, items + Shown(b, p))
    ensures IsTerminal(p) ==>
      OrderOf(Some(b), false, all, held, left,
        items + [FlushBarrier(p.run, b.completion, ResolutionOf(p.state).value)])
  {
    var done := all[..|all| - |left| - 1];
    assert all == done + [p] + left;
    assert all[..|all| - |left|] == done + [p];
    ExpectedGoing(b, done, p, left);
  }

  lemma OrderArrive(
      b: Option<BoundPrompt>, live: bool, all: seq<AppEvent>, held: seq<AppEvent>, p: AppEvent,
      items: seq<OutboxItem>)
    requires OrderOf(b, live, all, held, [], items)
    ensures OrderOf(b, live, all + [p], held, [p], items)
  {
    assert all[..|all|] == all && (all + [p])[..|all|] == all;
    if b.Some? && !live { ExpectedOver(b.value, all, [p]); }
  }

  // ------------------------------------------------------------------- routing

  /** An event of another run, or of no run, leaves `r` where it was. */
  ghost predicate Bystander(s: Host, t: Host, r: RunId) {
    && t.log.bound == s.log.bound
    && t.log.arrived == s.log.arrived
    && (r in t.runSessions <==> r in s.runSessions)
    && EventsOf(t.heldEvents, r) == EventsOf(s.heldEvents, r)
    && ItemsOf(t.log.emitted, r) == ItemsOf(s.log.emitted, r)
  }

  lemma ResolveBystander(s: Host, run: RunId, state: RunState, r: RunId)
    requires r != run
    ensures Bystander(s, ResolvePrompt(s, run, state), r)
  {
    var id := FindPrompt(s.pendingPrompts, run);
    var resolution := ResolutionOf(state);
    if id.Some? && resolution.Some? {
      ItemsOfSnoc(s.log.emitted, FlushBarrier(run, s.pendingPrompts[id.value].completion, resolution.value), r);
    }
  }

  lemma PushBystander(s: Host, x: OutboxItem, r: RunId)
    requires CauseOf(x) != Some(r)
    ensures Bystander(s, PushOutbox(s, [x]), r)
  {
    ItemsOfSnoc(s.log.emitted, x, r);
  }

  lemma UpdateBystander(s: Host, e: Envelope, r: RunId)
    requires RunIdOf(e.payload) != Some(r)
    ensures Bystander(s, EmitUpdate(s, e), r)
  {
    var sid := ResolveClientSession(s.published.runSessions, e);
    var update := TranslateSessionUpdate(e.payload);
    if sid.Some? && update.Some? {
      PushBystander(s, Frame(UpdateFrame(sid.value, e.payload.run, update.value)), r);
    }
  }

  lemma PermissionBystander(s: Host, sid: SessionId, run: RunId, tool: ToolCallId, reason: string, r: RunId)
    requires r != run
    ensures Bystander(s, EmitPermissionRequest(s, sid, run, tool, reason), r)
  {
    ItemsOfSnoc(s.log.emitted, Frame(PermissionFrame(NumberId(s.nextRequestId), sid, run, tool, reason)), r);
  }

  lemma DeliverBystander(s: Host, e: Envelope, r: RunId)
    requires RunIdOf(e.payload) != Some(r)
    ensures Bystander(s, DeliverEvent(s, e), r)
  {
    var sid := ResolveClientSession(s.runSessions, e);
    if sid.Some? {
      if e.payload.RunChanged? {
        ResolveBystander(s, e.payload.run, e.payload.state, r);
      } else if e.payload.ToolApprovalRequired? {
        PermissionBystander(s, sid.value, e.payload.run, e.payload.tool, e.payload.reason, r);
      } else {
        UpdateBystander(s, e, r);
      }
    }
  }

  lemma RouteBystander(s: Host, e: Envelope, r: RunId)
    requires RunIdOf(e.payload) != Some(r)
    ensures Bystander(s, RouteOrHold(s, e), r)
  {
    EventsOfAppend(s.heldEvents, [e], r);
    EventsOfOne(e, r);
    DeliverBystander(s, e, r);
  }

  /** `t` is `s` with `items` added to what `r` caused. */
  ghost predicate Caused(s: Host, t: Host, r: RunId, items: seq<OutboxItem>) {
    && t.log.bound == s.log.bound && t.log.arrived == s.log.arrived && t.heldEvents == s.heldEvents
    && ItemsOf(t.log.emitted, r) == ItemsOf(s.log.emitted, r) + items
  }

  lemma PushCaused(s: Host, x: OutboxItem, r: RunId)
    requires CauseOf(x) == Some(r)
    ensures Caused(s, PushOutbox(s, [x]), r, [Erase(x)])
  {
    ItemsOfSnoc(s.log.emitted, x, r);
  }

  lemma UpdateShown(s: Host, e: Envelope, r: RunId, b: BoundPrompt)
    requires s.initialized && RunIdOf(e.payload) == Some(r) && !e.payload.ToolApprovalRequired?
    requires ResolveClientSession(s.published.runSessions, e) == Some(b.session)
    ensures Caused(s, EmitUpdate(s, e), r, Shown(b, e.payload))
  {
    var update := TranslateSessionUpdate(e.payload);
    if update.Some? {
      PushCaused(s, Frame(UpdateFrame(b.session, r, update.value)), r);
    }
  }

  lemma PermissionShown(s: Host, e: Envelope, r: RunId, b: BoundPrompt)
    requires s.initialized && RunIdOf(e.payload) == Some(r) && e.payload.ToolApprovalRequired?
    ensures Caused(s, EmitPermissionRequest(s, b.session, r, e.payload.tool, e.payload.reason), r, Shown(b, e.payload))
  {
    ItemsOfSnoc(s.log.emitted,
      Frame(PermissionFrame(NumberId(s.nextRequestId), b.session, r, e.payload.tool, e.payload.reason)), r);
  }

  /** The published view names the run's session, so the adapter shows what the actor means. */
  lemma BoundRunResolves(s: Host, e: Envelope, r: RunId)
    requires CoupledFor(s, s.inFlight) && BoundMatches(s) && StreamAgrees(e)
    requires RunIdOf(e.payload) == Some(r) && r in s.runSessions
    ensures s.initialized && r in s.log.bound
    ensures ResolveClientSession(s.runSessions, e) == Some(s.log.bound[r].session)
    ensures ResolveClientSession(s.published.runSessions, e) == Some(s.log.bound[r].session)
  {
    assert s.runSessions[r] in s.occupancy;
  }

  lemma DeliverShown(s: Host, e: Envelope, r: RunId)
    requires CoupledFor(s, s.inFlight) && BoundMatches(s) && StreamAgrees(e)
    requires RunIdOf(e.payload) == Some(r) && r in s.runSessions && !IsTerminal(e.payload)
    ensures Caused(s, DeliverEvent(s, e), r, Shown(s.log.bound[r], e.payload))
    ensures DeliverEvent(s, e).runSessions == s.runSessions
  {
    BoundRunResolves(s, e, r);
    if e.payload.ToolApprovalRequired? {
      PermissionShown(s, e, r, s.log.bound[r]);
    } else if !e.payload.RunChanged? {
      UpdateShown(s, e, r, s.log.bound[r]);
    }
    hide Caused, ResolvePrompt, EmitPermissionRequest, EmitUpdate, CoupledFor, BoundMatches, TerminalState;
  }

  lemma ResolveCaused(s: Host, r: RunId, state: RunState, id: JsonRpcId)
    requires FindPrompt(s.pendingPrompts, r) == Some(id) && TerminalState(state)
    ensures r !in ResolvePrompt(s, r, state).runSessions
    ensures Caused(s, ResolvePrompt(s, r, state), r,
              [FlushBarrier(r, s.pendingPrompts[id].completion, ResolutionOf(state).value)])
  {
    ItemsOfSnoc(s.log.emitted, FlushBarrier(r, s.pendingPrompts[id].completion, ResolutionOf(state).value), r);
  }

  lemma DeliverFinished(s: Host, e: Envelope, r: RunId)
    requires CoupledFor(s, s.inFlight) && BoundMatches(s) && StreamAgrees(e)
    requires RunIdOf(e.payload) == Some(r) && r in s.runSessions && IsTerminal(e.payload)
    ensures r !in DeliverEvent(s, e).runSessions
    ensures Caused(s, DeliverEvent(s, e), r,
              [FlushBarrier(r, s.log.bound[r].completion, ResolutionOf(e.payload.state).value)])
  {
    BoundRunResolves(s, e, r);
    var sid := s.runSessions[r];
    assert SlotLinked(sid, s.occupancy[sid], s.runSessions, s.pendingPrompts);
    var id := s.occupancy[sid].requestId;
    PromptOfRun(s, r, id);
    ResolveCaused(s, r, e.payload.state, id);
  }

  lemma DeliverKeepsRunInOrder(s: Host, e: Envelope, rest: seq<Envelope>, r: RunId)
    requires CoupledFor(s, s.inFlight) && BoundMatches(s) && StreamAgrees(e) && RunInOrder(s, [e] + rest, r)
    requires RunIdOf(e.payload) == Some(r) && r in s.runSessions
    ensures RunInOrder(DeliverEvent(s, e), rest, r)
  {
    EventsOfAppend([e], rest, r);
    EventsOfOne(e, r);
    OrderShow(s.log.bound[r], EventsOf(s.log.arrived, r), EventsOf(s.heldEvents, r), e.payload, EventsOf(rest, r),
      ItemsOf(s.log.emitted, r));
    if IsTerminal(e.payload) { DeliverFinished(s, e, r); } else { DeliverShown(s, e, r); }
  }

  lemma HoldKeepsRunInOrder(s: Host, e: Envelope, rest: seq<Envelope>, r: RunId)
    requires RunInOrder(s, [e] + rest, r) && RunIdOf(e.payload) == Some(r) && r !in s.runSessions
    ensures RunInOrder(s.(heldEvents := s.heldEvents + [e]), rest, r)
  {
    EventsOfAppend([e], rest, r);
    EventsOfOne(e, r);
    EventsOfAppend(s.heldEvents, [e], r);
    OrderHold(BoundOf(s.log.bound, r), EventsOf(s.log.arrived, r), EventsOf(s.heldEvents, r), e.payload,
      EventsOf(rest, r), ItemsOf(s.log.emitted, r));
  }

  lemma RouteKeepsRunInOrder(s: Host, e: Envelope, rest: seq<Envelope>, r: RunId)
    requires CoupledFor(s, s.inFlight) && BoundMatches(s) && StreamAgrees(e) && RunInOrder(s, [e] + rest, r)
    ensures RunInOrder(RouteOrHold(s, e), rest, r)
  {
    hide DeliverEvent, OrderOf, CoupledFor, BoundMatches;
    if RunIdOf(e.payload) != Some(r) {
      EventsOfAppend([e], rest, r);
      EventsOfOne(e, r);
      assert [] + EventsOf(rest, r) == EventsOf(rest, r);
      RouteBystander(s, e, r);
    } else if r in s.runSessions {
      BoundRunResolves(s, e, r);
      DeliverKeepsRunInOrder(s, e, rest, r);
    } else {
      HoldKeepsRunInOrder(s, e, rest, r);
    }
  }

  lemma RouteKeepsBoundMatches(s: Host, e: Envelope)
    requires BoundMatches(s)
    ensures BoundMatches(RouteOrHold(s, e))
  {
    RouteShape(s, e);
    if !SameTables(s, RouteOrHold(s, e)) {
      var t := ResolvePrompt(s, e.payload.run, e.payload.state);
      assert t.log.bound == s.log.bound;
    }
  }

  lemma RouteHeld(s: Host, e: Envelope)
    ensures RouteOrHold(s, e).heldEvents == s.heldEvents || RouteOrHold(s, e).heldEvents == s.heldEvents + [e]
  {
    RouteShape(s, e);
  }

  lemma RouteKeepsInOrder(s: Host, e: Envelope, rest: seq<Envelope>)
    requires CoupledFor(s, s.inFlight) && StreamAgrees(e) && InOrder(s, [e] + rest)
    ensures InOrder(RouteOrHold(s, e), rest)
  {
    var t := RouteOrHold(s, e);
    RouteKeepsBoundMatches(s, e);
    RouteHeld(s, e);
    forall r: RunId ensures RunInOrder(t, rest, r) {
      assert RunInOrder(s, [e] + rest, r);
      RouteKeepsRunInOrder(s, e, rest, r);
    }
  }

  lemma {:induction false} RouteAllKeepsInOrder(s: Host, events: seq<Envelope>)
    requires CoupledFor(s, s.inFlight) && InOrder(s, events)
    requires forall i | 0 <= i < |events| :: StreamAgrees(events[i])
    ensures InOrder(RouteAll(s, events), [])
    decreases |events|
  {
    if events != [] {
      assert events == [events[0]] + events[1..];
      RouteKeepsInOrder(s, events[0], events[1..]);
      RouteKeepsCoupled(s, events[0], s.inFlight);
      RouteKeepsFrame(s, events[0]);
      RouteAllKeepsInOrder(RouteOrHold(s, events[0]), events[1..]);
    }
  }

  lemma ReceiveKeepsInOrder(s: Host, e: Envelope)
    requires CoupledFor(s, s.inFlight) && EarlyFlagsAreEarly(s) && StreamAgrees(e) && InOrder(s, [])
    ensures InOrder(Receive(s, e), [])
  {
    var s1 := s.(log := s.log.(arrived := s.log.arrived + [e]));
    SameTablesKeepCoupled(s, s1, s.inFlight);
    assert [e] + [] == [e];
    forall r: RunId ensures RunInOrder(s1, [e], r) {
      assert RunInOrder(s, [], r);
      EventsOfAppend(s.log.arrived, [e], r);
      EventsOfOne(e, r);
      if RunIdOf(e.payload) == Some(r) {
        OrderArrive(BoundOf(s.log.bound, r), r in s.runSessions, EventsOf(s.log.arrived, r),
          EventsOf(s.heldEvents, r), e.payload, ItemsOf(s.log.emitted, r));
      } else {
        assert EventsOf(s.log.arrived, r) + [] == EventsOf(s.log.arrived, r);
      }
    }
    RouteKeepsInOrder(s1, e, []);
  }

  lemma {:induction false} PumpKeepsInOrder(s: Host, events: seq<Envelope>)
    requires CoupledFor(s, s.inFlight) && EarlyFlagsAreEarly(s) && InOrder(s, [])
    requires forall i | 0 <= i < |events| :: StreamAgrees(events[i])
    ensures InOrder(PumpEvents(s, events), [])
    decreases |events|
  {
    if events != [] {
      ReceiveKeepsInOrder(s, events[0]);
      PumpKeepsCoupled(s, [events[0]], s.inFlight);
      assert PumpEvents(s, [events[0]]) == Receive(s, events[0]) by {
        assert [events[0]][1..] == [];
      }
      PumpKeepsFrame(s, [events[0]]);
      PumpKeepsInOrder(Receive(s, events[0]), events[1..]);
    }
  }

  // ---------------------------------------------------------------------- binding

  /** What was held for the run being bound is what there is to route. */
  lemma BindKeepsRunInOrder(s: Host, f: Flight, run: RunId, r: RunId)
    requires f.PromptFlight? && f.session in s.occupancy && run !in s.log.bound
    requires s.runSessions.Keys <= s.log.bound.Keys && RunInOrder(s, [], r)
    ensures RunInOrder(Bind(s, f, run).(heldEvents := []), s.heldEvents, r)
  {
    var all := EventsOf(s.log.arrived, r);
    assert EventsOf(s.heldEvents, r) + [] == EventsOf(s.heldEvents, r);
    assert all[..|all|] == all;
    if r == run {
      assert all[..0] == [] && FirstTerminal([]) == 0;
      assert Expected(BoundPrompt(f.session, f.requestId, f.completion), []) == [];
    } else if r in s.runSessions {
      assert EventsOf(s.heldEvents, r) == [];
    }
  }

  lemma BindKeepsBoundMatches(s: Host, f: Flight, run: RunId)
    requires f.PromptFlight? && f.session in s.occupancy && run !in s.log.bound
    requires BoundMatches(s) && f.requestId !in s.pendingPrompts
    ensures BoundMatches(Bind(s, f, run))
  {
  }

  lemma BindAndFlushKeepsInOrder(s: Host, f: Flight, run: RunId)
    requires f.PromptFlight? && f.session in s.occupancy && run !in s.log.accepted && s.inFlight.None?
    requires CoupledFor(s, Some(f)) && EarlyFlagsAreEarly(s) && InOrder(s, [])
    ensures InOrder(FlushHeldEvents(Bind(NoteAccepted(s, run), f, run)), [])
  {
    var s0 := NoteAccepted(s, run);
    var s1 := Bind(s0, f, run);
    var s2 := s1.(heldEvents := []);
    BindKeepsBoundMatches(s0, f, run);
    forall r: RunId ensures RunInOrder(s2, s.heldEvents, r) {
      assert RunInOrder(s, [], r);
      assert RunInOrder(s0, [], r);
      BindKeepsRunInOrder(s0, f, run, r);
    }
    BindKeepsCoupled(s, f, run);
    SameTablesKeepCoupled(s1, s2, None);
    RouteAllKeepsInOrder(s2, s.heldEvents);
  }

  // ------------------------------------------------------------------------ steps

  /** Only frames that no run caused were added. */
  ghost predicate SameOrder(s: Host, t: Host) {
    && t.runSessions == s.runSessions
    && (forall id | id in t.pendingPrompts :: id in s.pendingPrompts && t.pendingPrompts[id] == s.pendingPrompts[id])
    && t.heldEvents == s.heldEvents
    && t.log.bound == s.log.bound
    && t.log.arrived == s.log.arrived
    && (forall r: RunId :: ItemsOf(t.log.emitted, r) == ItemsOf(s.log.emitted, r))
  }

  lemma SameOrderSuffices(s: Host, t: Host)
    requires InOrder(s, []) && SameOrder(s, t)
    ensures InOrder(t, [])
  {
    assert BoundMatches(t);
    forall r: RunId ensures RunInOrder(t, [], r) {
      assert RunInOrder(s, [], r);
      assert ItemsOf(t.log.emitted, r) == ItemsOf(s.log.emitted, r);
    }
  }

  lemma CancelSessionSameOrder(s: Host, sid: SessionId, order: seq<JsonRpcId>)
    ensures SameOrder(s, CancelSession(s, sid, order))
  {
    CancelSessionFrame(s, sid, order);
    hide ItemsOf, AsksOf, CancelSession;
    var t := CancelSession(s, sid, order);
    forall r: RunId ensures ItemsOf(t.log.emitted, r) == ItemsOf(s.log.emitted, r) {
      ItemsOfAppend(s.log.emitted, CancelNotices(order), r);
      NoticesCauseNothing(order, r);
    }
  }

  lemma ClearSameOrder(s: Host, sid: SessionId)
    ensures SameOrder(s, ClearEarlyCancels(s, sid))
  {
  }

  lemma CancelRequestSameOrder(s: Host, id: JsonRpcId)
    ensures SameOrder(s, CancelRequest(s, id))
  {
    CancelRequestFrame(s, id);
    hide CancelRequest, ItemsOf;
  }

  lemma ReplayKeepsInOrder(s: Host, f: Flight, order: seq<JsonRpcId>)
    requires f.PromptFlight? && InOrder(s, [])
    ensures InOrder(ReplayEarlyCancels(s, f, order), [])
  {
    var s1 := ClearEarlyCancels(s, f.session);
    ClearSameOrder(s, f.session);
    SameOrderSuffices(s, s1);
    CancelSessionSameOrder(s1, f.session, order);
    SameOrderSuffices(s1, CancelSession(s1, f.session, order));
    CancelRequestSameOrder(s1, f.requestId);
    SameOrderSuffices(s1, CancelRequest(s1, f.requestId));
  }

  lemma LandedSameOrder(s: Host)
    ensures SameOrder(s, s.(inFlight := None))
  {
  }

  lemma ReplyKeepsInOrder(s: Host, reply: Reply, order: seq<JsonRpcId>)
    requires Coupled(s) && Allowed(s, Step.Reply(reply, order)) && InOrder(s, [])
    ensures InOrder(CoreReply(s, reply, order), [])
  {
    hide InOrder, SameOrder, ReplayEarlyCancels, FlushHeldEvents;
    var f := s.inFlight.value;
    var s1 := s.(inFlight := None);
    LandedSameOrder(s);
    SameOrderSuffices(s, s1);
    if f.PromptFlight? && f.session in s.occupancy && reply.Accepted? {
      BindAndFlushKeepsInOrder(s1, f, reply.run);
      var s2 := FlushHeldEvents(Bind(NoteAccepted(s1, reply.run), f, reply.run));
      ReplayKeepsInOrder(s2, f, order);
    } else {
      PlainReplySameOrder(s, reply, order);
      SameOrderSuffices(s, CoreReply(s, reply, order));
    }
  }

  lemma PlainReplySameOrder(s: Host, reply: Reply, order: seq<JsonRpcId>)
    requires Coupled(s) && s.inFlight.Some?
    requires var f := s.inFlight.value; !(f.PromptFlight? && f.session in s.occupancy && reply.Accepted?)
    ensures SameOrder(s, CoreReply(s, reply, order))
  {
    hide ItemsOf, SnapshotOf, FlushHeldEvents, ReplayEarlyCancels;
  }

  lemma FailClosedStartsOver(s: Host, orders: Orders)
    requires OrdersFor(orders, s)
    ensures InOrder(FailClosed(s, orders), [])
  {
  }

  /** Every pumped event's stream agrees with its payload. */
  predicate StreamsAgree(step: Step) {
    step.Pump? ==> forall i | 0 <= i < |step.events| :: StreamAgrees(step.events[i])
  }

  lemma CoupledParts(s: Host)
    requires Coupled(s)
    ensures CoupledFor(s, s.inFlight) && EarlyFlagsAreEarly(s)
  {
  }

  lemma StepKeepsInOrder(s: Host, step: Step)
    requires Coupled(s) && Allowed(s, step) && StreamsAgree(step) && InOrder(s, [])
    ensures InOrder(Next(s, step), [])
  {
    hide InOrder, CoreReply, CancelSession, CancelRequest, PumpEvents, FailClosed, AfterFlush, BeginPrompt, Coupled;
    if step.Pump? {
      CoupledParts(s);
      PumpKeepsInOrder(s, step.events);
    } else if step.Reply? {
      ReplyKeepsInOrder(s, step.reply, step.order);
    } else if step.FailAll? {
      FailClosedStartsOver(s, step.orders);
    } else if step.SessionCancel? || step.CloseSession? {
      CancelSessionSameOrder(s, step.session, step.order);
      SameOrderSuffices(s, Next(s, step));
    } else if step.Prompt? {
      BeginSameOrder(s, step.id, step.session, step.admission);
      SameOrderSuffices(s, Next(s, step));
    } else if step.RequestCancel? {
      CancelRequestSameOrder(s, step.id);
      SameOrderSuffices(s, Next(s, step));
    } else {
      QuietSameOrder(s, step);
      SameOrderSuffices(s, Next(s, step));
    }
  }

  lemma QuietSameOrder(s: Host, step: Step)
    requires Allowed(s, step)
    requires step.Initialize? || step.CreateSession? || step.Drain? || step.Answer? || step.Consume?
             || step.ReleaseBatch? || step.LoseBatch? || step.Skip?
    ensures SameOrder(s, Next(s, step))
  {
    hide ItemsOf, BarrierDeliveries, Completions, SnapshotOf;
  }

  lemma BeginSameOrder(s: Host, id: JsonRpcId, sid: SessionId, admission: Admission)
    ensures SameOrder(s, BeginPrompt(s, id, sid, admission))
  {
  }

  /** What was pushed is what was taken, and then what is still queued. */
  ghost predicate TakenInOrder(s: Host) {
    s.log.emitted == s.log.taken + s.outbox
  }

  lemma EmitKeepsTaken(
      s: Host, e: Envelope, sid: SessionId, run: RunId, tool: ToolCallId, reason: string, state: RunState)
    requires TakenInOrder(s)
    ensures TakenInOrder(EmitUpdate(s, e))
    ensures TakenInOrder(EmitPermissionRequest(s, sid, run, tool, reason))
    ensures TakenInOrder(ResolvePrompt(s, run, state))
  {
    hide SnapshotOf, ResolveClientSession, FindPrompt, TranslateSessionUpdate, ResolutionOf;
  }

  lemma RouteKeepsTaken(s: Host, e: Envelope)
    requires TakenInOrder(s)
    ensures TakenInOrder(RouteOrHold(s, e))
  {
    hide SnapshotOf, ResolveClientSession, EmitUpdate, EmitPermissionRequest, ResolvePrompt;
    var sid := ResolveClientSession(s.runSessions, e);
    var to := if sid.Some? then sid.value else SessionId("");
    if e.payload.ToolApprovalRequired? {
      EmitKeepsTaken(s, e, to, e.payload.run, e.payload.tool, e.payload.reason, Created);
    } else if e.payload.RunChanged? {
      EmitKeepsTaken(s, e, to, e.payload.run, ToolCallId(""), "", e.payload.state);
    } else {
      EmitKeepsTaken(s, e, to, RunId(""), ToolCallId(""), "", Created);
    }
  }

  lemma {:induction false} RouteAllKeepsTaken(s: Host, events: seq<Envelope>)
    requires TakenInOrder(s)
    ensures TakenInOrder(RouteAll(s, events))
    decreases |events|
  {
    if events != [] {
      RouteKeepsTaken(s, events[0]);
      RouteAllKeepsTaken(RouteOrHold(s, events[0]), events[1..]);
    }
  }

  lemma {:induction false} PumpKeepsTaken(s: Host, events: seq<Envelope>)
    requires TakenInOrder(s)
    ensures TakenInOrder(PumpEvents(s, events))
    decreases |events|
  {
    if events != [] {
      RouteKeepsTaken(s.(log := s.log.(arrived := s.log.arrived + [events[0]])), events[0]);
      PumpKeepsTaken(Receive(s, events[0]), events[1..]);
    }
  }

  lemma StepKeepsTaken(s: Host, step: Step)
    requires Allowed(s, step) && TakenInOrder(s)
    ensures TakenInOrder(Next(s, step))
  {
    hide CoreReply, PumpEvents, AfterFlush, CancelSession, CancelRequest;
    if step.Pump? {
      PumpKeepsTaken(s, step.events);
    } else if step.Reply? {
      ReplyKeepsTaken(s, step.reply, step.order);
    } else if step.SessionCancel? || step.CloseSession? {
      CancelsKeepTaken(s, step.session, step.order, NullId);
    } else if step.RequestCancel? {
      CancelsKeepTaken(s, SessionId(""), [], step.id);
    }
  }

  lemma ReplyKeepsTaken(s: Host, reply: Reply, order: seq<JsonRpcId>)
    requires s.inFlight.Some? && TakenInOrder(s)
    ensures TakenInOrder(CoreReply(s, reply, order))
  {
    hide RouteAll, ReplayEarlyCancels;
    var f := s.inFlight.value;
    if f.PromptFlight? && f.session in s.occupancy && reply.Accepted? {
      var s1 := Bind(NoteAccepted(s.(inFlight := None), reply.run), f, reply.run);
      RouteAllKeepsTaken(s1.(heldEvents := []), s1.heldEvents);
      ReplayKeepsTaken(FlushHeldEvents(s1), f, order);
    }
  }

  lemma CancelsKeepTaken(s: Host, sid: SessionId, order: seq<JsonRpcId>, id: JsonRpcId)
    requires TakenInOrder(s)
    ensures TakenInOrder(CancelSession(s, sid, order)) && TakenInOrder(CancelRequest(s, id))
  {
  }

  lemma ReplayKeepsTaken(s: Host, f: Flight, order: seq<JsonRpcId>)
    requires f.PromptFlight? && TakenInOrder(s)
    ensures TakenInOrder(ReplayEarlyCancels(s, f, order))
  {
    CancelsKeepTaken(ClearEarlyCancels(s, f.session), f.session, order, f.requestId);
  }

  // ------------------------------------------------------------------------- runs

  lemma {:induction false} AlwaysInOrder(s: Host, steps: seq<Step>)
    requires Coupled(s) && InOrder(s, []) && TakenInOrder(s) && AllowedRun(s, steps)
    requires forall i | 0 <= i < |steps| :: StreamsAgree(steps[i])
    ensures InOrder(Run(s, steps), []) && TakenInOrder(Run(s, steps)) && Coupled(Run(s, steps))
    decreases |steps|
  {
    if steps != [] {
      StepKeepsCoupled(s, steps[0]);
      StepKeepsInOrder(s, steps[0]);
      StepKeepsTaken(s, steps[0]);
      AlwaysInOrder(Next(s, steps[0]), steps[1..]);
    }
  }

  /**
   * The outbox's promise. Over every run, for every run id bound since the last
   * fail-closed: what was drained and what is queued show the client exactly that
   * run's events before its first terminal event, in arrival order, then one
   * barrier, and nothing more.
   */
  lemma ClientSeesRunInOrder(steps: seq<Step>, r: RunId)
    requires AllowedRun(INITIAL_HOST, steps)
    requires forall i | 0 <= i < |steps| :: StreamsAgree(steps[i])
    ensures var s := Run(INITIAL_HOST, steps);
      && (r in s.log.bound ==>
            ItemsOf(s.log.taken + s.outbox, r) == Expected(s.log.bound[r], EventsOf(s.log.arrived, r)))
      && (r !in s.log.bound ==> ItemsOf(s.log.taken + s.outbox, r) == [])
  {
    InitiallyCoupled();
    AlwaysInOrder(INITIAL_HOST, steps);
    var s := Run(INITIAL_HOST, steps);
    assert RunInOrder(s, [], r);
    var all := EventsOf(s.log.arrived, r);
    assert all[..|all|] == all;
  }
}
