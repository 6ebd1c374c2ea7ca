/**
 * Prompt conservation: the completion channel of every bound prompt has one
 * holder at a time - the prompt table, a barrier in the outbox, a barrier handed
 * to the transport, a resolution already sent, or a batch that was dropped.
 */
module AcpPrompts {
  import opened Common
  import opened AcpTypes
  import opened AcpHost
  import opened AcpCoupling

  ghost function PendingChannels(pending: map<JsonRpcId, PendingPrompt>): set<Channel> {
    set id | id in pending :: pending[id].completion
  }

  ghost predicate OwnChannels(pending: map<JsonRpcId, PendingPrompt>) {
    forall a, b | a in pending && b in pending && a != b :: pending[a].completion != pending[b].completion
  }

  ghost function Barriers(items: seq<OutboxItem>): multiset<Channel> {
    Completions(BarrierDeliveries(items))
  }

  /** Every channel with the number of places that hold it. */
  ghost function Holders(s: Host): multiset<Channel> {
    multiset(PendingChannels(s.pendingPrompts)) + Barriers(s.outbox) + Barriers(s.handed)
    + Completions(s.log.delivered) + s.log.lost
  }

  ghost predicate ChannelsAreNew(s: Host, flight: Option<Flight>) {
    && (forall c | c in s.log.completions :: c < s.nextChannel)
    && (flight.Some? && flight.value.PromptFlight? ==>
          flight.value.completion < s.nextChannel && flight.value.completion !in s.log.completions)
  }

  ghost predicate Conserved(s: Host) {
    OwnChannels(s.pendingPrompts) && Holders(s) == multiset(s.log.completions)
  }

  // ------------------------------------------------------------ counting lemmas

  lemma {:induction false} CompletionsAppend(a: seq<Delivery>, b: seq<Delivery>)
    ensures Completions(a + b) == Completions(a) + Completions(b)
  {
    if b == [] {
      assert a + b == a;
    } else {
      assert (a + b)[..|a + b| - 1] == a + b[..|b| - 1];
      CompletionsAppend(a, b[..|b| - 1]);
    }
  }

  lemma {:induction false} BarrierDeliveriesAppend(a: seq<OutboxItem>, b: seq<OutboxItem>)
    ensures BarrierDeliveries(a + b) == BarrierDeliveries(a) + BarrierDeliveries(b)
  {
    if b == [] {
      assert a + b == a;
    } else {
      assert (a + b)[..|a + b| - 1] == a + b[..|b| - 1];
      BarrierDeliveriesAppend(a, b[..|b| - 1]);
    }
  }

  lemma BarriersAppend(a: seq<OutboxItem>, b: seq<OutboxItem>)
    ensures Barriers(a + b) == Barriers(a) + Barriers(b)
  {
    BarrierDeliveriesAppend(a, b);
    CompletionsAppend(BarrierDeliveries(a), BarrierDeliveries(b));
  }

  lemma {:induction false} FramesHoldNothing(items: seq<OutboxItem>)
    requires forall i | 0 <= i < |items| :: items[i].Frame?
    ensures BarrierDeliveries(items) == []
  {
    if items != [] {
      FramesHoldNothing(items[..|items| - 1]);
    }
  }

  lemma OneBarrier(run: RunId, c: Channel, resolution: Resolution)
    ensures Barriers([FlushBarrier(run, c, resolution)]) == multiset{c}
  {
    var items := [FlushBarrier(run, c, resolution)];
    assert items[..0] == [] && BarrierDeliveries(items[..0]) == [];
    var ds := BarrierDeliveries(items);
    assert ds == [Delivery(c, resolution)];
    assert ds[..0] == [] && Completions(ds[..0]) == multiset{};
  }

  lemma RemovedChannel(pending: map<JsonRpcId, PendingPrompt>, id: JsonRpcId)
    requires id in pending && OwnChannels(pending)
    ensures OwnChannels(pending - {id})
    ensures multiset(PendingChannels(pending))
      == multiset(PendingChannels(pending - {id})) + multiset{pending[id].completion}
  {
    var c := pending[id].completion;
    assert c !in PendingChannels(pending - {id});
    forall x | x in PendingChannels(pending) ensures x in PendingChannels(pending - {id}) + {c} {
      var other :| other in pending && pending[other].completion == x;
      assert other != id ==> other in pending - {id};
    }
    assert PendingChannels(pending) == PendingChannels(pending - {id}) + {c};
  }

  lemma AddedChannel(pending: map<JsonRpcId, PendingPrompt>, id: JsonRpcId, p: PendingPrompt)
    requires id !in pending && OwnChannels(pending) && p.completion !in PendingChannels(pending)
    ensures OwnChannels(pending[id := p])
    ensures multiset(PendingChannels(pending[id := p])) == multiset(PendingChannels(pending)) + multiset{p.completion}
  {
    var pending' := pending[id := p];
    assert OwnChannels(pending') by {
      forall a, b | a in pending' && b in pending' && a != b ensures pending'[a].completion != pending'[b].completion {
        assert a != id ==> pending[a].completion in PendingChannels(pending);
        assert b != id ==> pending[b].completion in PendingChannels(pending);
      }
    }
    RemovedChannel(pending', id);
    assert pending' - {id} == pending;
  }

  lemma EnumeratesInit<T>(q: seq<T>, s: set<T>)
    requires Enumerates(q, s) && q != []
    ensures Enumerates(q[..|q| - 1], s - {q[|q| - 1]})
  {
    var n := |q| - 1;
    assert q[n] in q;
    forall x | x in s - {q[n]} ensures x in q[..n] { assert x in q; }
  }

  lemma {:induction false} FailedChannels(pending: map<JsonRpcId, PendingPrompt>, order: seq<JsonRpcId>)
    requires Enumerates(order, pending.Keys) && OwnChannels(pending)
    ensures Completions(FailedDeliveries(pending, order)) == multiset(PendingChannels(pending))
    decreases |order|
  {
    if order == [] {
      assert PendingChannels(pending) == {};
    } else {
      var n := |order| - 1;
      var id := order[n];
      var rest := pending - {id};
      assert id in order;
      EnumeratesInit(order, pending.Keys);
      RemovedChannel(pending, id);
      assert FailedDeliveries(pending, order)[..n] == FailedDeliveries(rest, order[..n]);
      assert Completions(FailedDeliveries(pending, order))
          == Completions(FailedDeliveries(rest, order[..n])) + multiset{pending[id].completion};
      assert pending.Keys - {id} == rest.Keys;
      hide *;
      FailedChannels(rest, order[..n]);
    }
  }

  // ------------------------------------------------------------------- handlers

  /** Nothing that holds a channel differs. */
  ghost predicate SameHolders(s: Host, t: Host) {
    && t.pendingPrompts == s.pendingPrompts
    && t.handed == s.handed
    && t.log.completions == s.log.completions
    && t.log.delivered == s.log.delivered
    && t.log.lost == s.log.lost
    && Barriers(t.outbox) == Barriers(s.outbox)
  }

  lemma FramesKeepBarriers(outbox: seq<OutboxItem>, frames: seq<OutboxItem>)
    requires forall i | 0 <= i < |frames| :: frames[i].Frame?
    ensures Barriers(outbox + frames) == Barriers(outbox)
  {
    BarriersAppend(outbox, frames);
    FramesHoldNothing(frames);
  }

  lemma RouteHolders(s: Host, e: Envelope)
    ensures
      || (e.payload.RunChanged? && RouteOrHold(s, e) == ResolvePrompt(s, e.payload.run, e.payload.state))
      || SameHolders(s, RouteOrHold(s, e))
  {
    if ResolveClientSession(s.runSessions, e).Some? && !e.payload.RunChanged? {
      DeliverHolders(s, e);
    }
  }

  lemma PushedFramesHoldNothing(s: Host, frames: seq<OutboxItem>)
    requires forall i | 0 <= i < |frames| :: frames[i].Frame?
    ensures SameHolders(s, PushOutbox(s, frames))
  {
    FramesKeepBarriers(s.outbox, frames);
  }

  lemma DeliverHolders(s: Host, e: Envelope)
    requires !e.payload.RunChanged?
    ensures SameHolders(s, DeliverEvent(s, e))
  {
    if e.payload.ToolApprovalRequired? {
      var sid := ResolveClientSession(s.runSessions, e);
      if sid.Some? {
        FramesKeepBarriers(s.outbox,
          [Frame(PermissionFrame(
            NumberId(s.nextRequestId), sid.value, e.payload.run, e.payload.tool, e.payload.reason))]);
      }
    } else {
      UpdateHolders(s, e);
    }
  }

  lemma UpdateHolders(s: Host, e: Envelope)
    ensures SameHolders(s, EmitUpdate(s, e))
  {
    var sid := ResolveClientSession(s.published.runSessions, e);
    var update := TranslateSessionUpdate(e.payload);
    if sid.Some? && update.Some? {
      PushedFramesHoldNothing(s, [Frame(UpdateFrame(sid.value, e.payload.run, update.value))]);
    }
  }

  /** Resolving moves one channel from the prompt table to the outbox. */
  lemma ResolveKeepsConserved(s: Host, run: RunId, state: RunState)
    requires Conserved(s)
    ensures Conserved(ResolvePrompt(s, run, state))
  {
    var id := FindPrompt(s.pendingPrompts, run);
    var resolution := ResolutionOf(state);
    ResolveMoves(s, run, state);
    hide ResolvePrompt, ResolutionOf, FindPrompt, PendingChannels, OwnChannels, Barriers, Completions;
    if id.Some? && resolution.Some? {
      var c := s.pendingPrompts[id.value].completion;
      RemovedChannel(s.pendingPrompts, id.value);
      BarriersAppend(s.outbox, [FlushBarrier(run, c, resolution.value)]);
      OneBarrier(run, c, resolution.value);
    }
  }

  lemma ResolveMoves(s: Host, run: RunId, state: RunState)
    ensures var t := ResolvePrompt(s, run, state);
      var id := FindPrompt(s.pendingPrompts, run);
      var resolution := ResolutionOf(state);
      && t.handed == s.handed && t.log.delivered == s.log.delivered && t.log.lost == s.log.lost
      && t.log.completions == s.log.completions
      && if id.None? || resolution.None? then t.pendingPrompts == s.pendingPrompts && t.outbox == s.outbox
         else
           && t.pendingPrompts == s.pendingPrompts - {id.value}
           && t.outbox == s.outbox + [FlushBarrier(run, s.pendingPrompts[id.value].completion, resolution.value)]
  {
    hide SnapshotOf, ResolutionOf, FindPrompt;
  }

  lemma RouteKeepsConserved(s: Host, e: Envelope)
    requires Conserved(s)
    ensures Conserved(RouteOrHold(s, e))
  {
    RouteHolders(s, e);
    if SameHolders(s, RouteOrHold(s, e)) {
      assert Holders(RouteOrHold(s, e)) == Holders(s);
    } else {
      ResolveKeepsConserved(s, e.payload.run, e.payload.state);
    }
  }

  lemma {:induction false} RouteAllKeepsConserved(s: Host, events: seq<Envelope>)
    requires Conserved(s)
    ensures Conserved(RouteAll(s, events))
    decreases |events|
  {
    if events != [] {
      RouteKeepsConserved(s, events[0]);
      RouteAllKeepsConserved(RouteOrHold(s, events[0]), events[1..]);
    }
  }

  lemma {:induction false} PumpKeepsConserved(s: Host, events: seq<Envelope>)
    requires Conserved(s)
    ensures Conserved(PumpEvents(s, events))
    decreases |events|
  {
    if events != [] {
      var s1 := s.(log := s.log.(arrived := s.log.arrived + [events[0]]));
      assert Conserved(s1);
      RouteKeepsConserved(s1, events[0]);
      PumpKeepsConserved(Receive(s, events[0]), events[1..]);
    }
  }

  lemma CascadeHolders(s: Host, order: seq<JsonRpcId>)
    ensures SameHolders(s, Cascade(s, order))
  {
    FramesKeepBarriers(s.outbox, CancelNotices(order));
  }

  lemma CancelSessionHolders(s: Host, sid: SessionId, order: seq<JsonRpcId>)
    ensures SameHolders(s, CancelSession(s, sid, order))
    ensures CancelSession(s, sid, order).nextChannel == s.nextChannel
    ensures CancelSession(s, sid, order).inFlight == s.inFlight
  {
    if sid in s.occupancy && s.occupancy[sid].runId.Some? {
      var s1 := s.(occupancy := s.occupancy[sid := s.occupancy[sid].(earlySessionCancel := false)]);
      CascadeHolders(TryDispatch(s1, [RunCancel(sid, s.occupancy[sid].runId.value)]), order);
    }
  }

  lemma CancelRequestHolders(s: Host, id: JsonRpcId)
    ensures SameHolders(s, CancelRequest(s, id))
    ensures CancelRequest(s, id).nextChannel == s.nextChannel && CancelRequest(s, id).inFlight == s.inFlight
  {
  }

  lemma ReplayHolders(s: Host, f: Flight, order: seq<JsonRpcId>)
    requires f.PromptFlight?
    ensures SameHolders(s, ReplayEarlyCancels(s, f, order))
    ensures ReplayEarlyCancels(s, f, order).nextChannel == s.nextChannel
  {
    var s1 := ClearEarlyCancels(s, f.session);
    CancelSessionHolders(s1, f.session, order);
    CancelRequestHolders(s1, f.requestId);
  }

  lemma BindKeepsConserved(s: Host, f: Flight, run: RunId)
    requires f.PromptFlight? && f.session in s.occupancy && f.requestId !in s.pendingPrompts
    requires Conserved(s) && f.completion !in s.log.completions
    ensures Conserved(Bind(s, f, run))
  {
    assert f.completion !in Holders(s);
    AddedChannel(s.pendingPrompts, f.requestId, PendingPrompt(f.session, run, f.completion));
    assert multiset(s.log.completions + {f.completion}) == multiset(s.log.completions) + multiset{f.completion};
  }

  lemma BindAndFlushKeepsConserved(s: Host, f: Flight, run: RunId)
    requires f.PromptFlight? && f.session in s.occupancy && f.requestId !in s.pendingPrompts
    requires Conserved(s) && ChannelsAreNew(s, Some(f))
    ensures Conserved(FlushHeldEvents(Bind(s, f, run))) && ChannelsAreNew(FlushHeldEvents(Bind(s, f, run)), None)
  {
    BindKeepsConserved(s, f, run);
    var s1 := Bind(s, f, run);
    var s2 := s1.(heldEvents := []);
    assert Holders(s2) == Holders(s1);
    RouteAllKeepsConserved(s2, s1.heldEvents);
    RouteAllKeepsFrame(s2, s1.heldEvents);
  }

  lemma FinishKeepsConserved(s: Host, f: Flight, reply: Reply, order: seq<JsonRpcId>)
    requires f.PromptFlight? && UnboundIs(s.occupancy, s.pendingPrompts, Some(f))
    requires Conserved(s) && ChannelsAreNew(s, Some(f))
    ensures Conserved(FinishPrompt(s, f, reply, order)) && ChannelsAreNew(FinishPrompt(s, f, reply, order), None)
  {
    if f.session in s.occupancy && reply.Accepted? {
      var s0 := NoteAccepted(s, reply.run);
      assert Holders(s0) == Holders(s);
      BindAndFlushKeepsConserved(s0, f, reply.run);
      ReplayHolders(FlushHeldEvents(Bind(s0, f, reply.run)), f, order);
    } else {
      assert SameHolders(s, FinishPrompt(s, f, reply, order));
    }
  }

  /** The invariant of this module between two steps. */
  ghost predicate Ledger(s: Host) {
    Conserved(s) && ChannelsAreNew(s, s.inFlight)
  }

  lemma FailClosedDelivers(s: Host, orders: Orders)
    requires Conserved(s) && OrdersFor(orders, s)
    ensures Completions(FailClosed(s, orders).log.delivered)
      == Completions(s.log.delivered) + multiset(PendingChannels(s.pendingPrompts)) + Barriers(s.outbox)
  {
    hide RunCancels, Denials, SnapshotOf, BarrierDeliveries, Completions;
    var failed := FailedDeliveries(s.pendingPrompts, orders.prompts);
    FailedChannels(s.pendingPrompts, orders.prompts);
    CompletionsAppend(s.log.delivered, failed);
    CompletionsAppend(s.log.delivered + failed, BarrierDeliveries(s.outbox));
  }

  lemma NothingHeld()
    ensures PendingChannels(map[]) == {} && Barriers([]) == multiset{}
  {
  }

  lemma FailClosedKeepsLedger(s: Host, orders: Orders)
    requires Ledger(s) && OrdersFor(orders, s)
    ensures Ledger(FailClosed(s, orders))
  {
    hide RunCancels, Denials, SnapshotOf, BarrierDeliveries, Completions, FailedDeliveries, PendingChannels;
    FailClosedDelivers(s, orders);
    NothingHeld();
  }

  lemma DrainKeepsLedger(s: Host)
    requires Ledger(s)
    ensures Ledger(DrainOutbox(s))
  {
    BarriersAppend(s.handed, s.outbox);
    assert Barriers([]) == multiset{};
  }

  lemma ConsumeKeepsLedger(s: Host)
    requires Ledger(s)
    ensures Ledger(ConsumeOne(s))
  {
    if s.handed != [] {
      assert s.handed == s.handed[..1] + s.handed[1..];
      BarriersAppend(s.handed[..1], s.handed[1..]);
      CompletionsAppend(s.log.delivered, BarrierDeliveries(s.handed[..1]));
    }
  }

  lemma ReleaseAndLoseKeepLedger(s: Host)
    requires Ledger(s)
    ensures Ledger(ReleaseHanded(s)) && Ledger(LoseHanded(s))
  {
    CompletionsAppend(s.log.delivered, BarrierDeliveries(s.handed));
    assert Barriers([]) == multiset{};
  }

  lemma ReplyKeepsLedger(s: Host, reply: Reply, order: seq<JsonRpcId>)
    requires Coupled(s) && s.inFlight.Some? && Ledger(s)
    ensures Ledger(CoreReply(s, reply, order))
  {
    hide FinishPrompt;
    var s1 := s.(inFlight := None);
    assert Holders(s1) == Holders(s);
    if s.inFlight.value.PromptFlight? {
      FinishKeepsConserved(s1, s.inFlight.value, reply, order);
      FinishKeepsFlight(s1, s.inFlight.value, reply, order);
    }
  }

  lemma SameHoldersKeepLedger(s: Host, t: Host)
    requires Ledger(s) && SameHolders(s, t)
    requires t.nextChannel == s.nextChannel && t.inFlight == s.inFlight
    ensures Ledger(t)
  {
  }

  lemma BeginKeepsLedger(s: Host, id: JsonRpcId, sid: SessionId, admission: Admission)
    requires Ledger(s)
    ensures Ledger(BeginPrompt(s, id, sid, admission))
  {
    var t := BeginPrompt(s, id, sid, admission);
    assert SameHolders(s, t);
    assert s.nextChannel !in s.log.completions;
  }

  lemma PumpKeepsLedger(s: Host, events: seq<Envelope>)
    requires Ledger(s)
    ensures Ledger(PumpEvents(s, events))
  {
    hide PumpEvents;
    PumpKeepsConserved(s, events);
    PumpKeepsFrame(s, events);
  }

  lemma CancelsKeepLedger(s: Host, sid: SessionId, order: seq<JsonRpcId>, id: JsonRpcId)
    requires Ledger(s)
    ensures Ledger(CancelSession(s, sid, order)) && Ledger(CancelRequest(s, id))
  {
    hide CancelSession, CancelRequest;
    CancelSessionHolders(s, sid, order);
    CancelRequestHolders(s, id);
    SameHoldersKeepLedger(s, CancelSession(s, sid, order));
    SameHoldersKeepLedger(s, CancelRequest(s, id));
  }

  /** Every step moves channels between holders and never copies or forgets one. */
  lemma StepKeepsLedger(s: Host, step: Step)
    requires Coupled(s) && Allowed(s, step) && Ledger(s)
    ensures Ledger(Next(s, step))
  {
    hide Coupled, Ledger, BeginPrompt, CoreReply, PumpEvents, FailClosed, DrainOutbox, ConsumeOne;
    hide ReleaseHanded, LoseHanded, CancelSession, CancelRequest, HandleResponse, AfterFlush;
    match step
    case Reply(reply, order) => ReplyKeepsLedger(s, reply, order);
    case Prompt(id, sid, admission) => BeginKeepsLedger(s, id, sid, admission);
    case SessionCancel(sid, order) => CancelsKeepLedger(s, sid, order, NullId);
    case CloseSession(sid, order) => CancelsKeepLedger(s, sid, order, NullId);
    case RequestCancel(id) => CancelsKeepLedger(s, SessionId(""), [], id);
    case Answer(id, answer) => AnswerKeepsLedger(s, id, answer);
    case Pump(events) => PumpKeepsLedger(s, events);
    case FailAll(orders) => FailClosedKeepsLedger(s, orders);
    case Drain => DrainKeepsLedger(s);
    case Consume => ConsumeKeepsLedger(s);
    case ReleaseBatch => ReleaseAndLoseKeepLedger(s);
    case LoseBatch => ReleaseAndLoseKeepLedger(s);
    case Initialize => StartKeepsLedger(s);
    case CreateSession(_) => StartKeepsLedger(s);
    case Skip =>
  }

  lemma AnswerKeepsLedger(s: Host, id: JsonRpcId, answer: PermissionAnswer)
    requires Ledger(s)
    ensures Ledger(HandleResponse(s, id, answer))
  {
    SameHoldersKeepLedger(s, HandleResponse(s, id, answer));
  }

  lemma StartKeepsLedger(s: Host)
    requires Ledger(s)
    ensures Ledger(Publish(s.(initialized := true))) && Ledger(s.(inFlight := Some(CreateFlight)))
  {
    assert SameHolders(s, s.(inFlight := Some(CreateFlight)));
    SameHoldersKeepLedger(s, Publish(s.(initialized := true)));
  }

  lemma {:induction false} AlwaysConserved(s: Host, steps: seq<Step>)
    requires Coupled(s) && Ledger(s) && AllowedRun(s, steps)
    ensures Ledger(Run(s, steps))
    decreases |steps|
  {
    if steps != [] {
      StepKeepsCoupled(s, steps[0]);
      StepKeepsLedger(s, steps[0]);
      AlwaysConserved(Next(s, steps[0]), steps[1..]);
    }
  }

  /**
   * From the start, over every run: each bound prompt's channel has exactly one
   * holder, and no channel is ever sent two resolutions.
   */
  lemma EachPromptHasOneHolder(steps: seq<Step>, c: Channel)
    requires AllowedRun(INITIAL_HOST, steps)
    ensures var s := Run(INITIAL_HOST, steps);
      && Holders(s)[c] == (if c in s.log.completions then 1 else 0)
      && Completions(s.log.delivered)[c] <= 1
  {
    hide *;
    InitiallyCoupled();
    InitialLedger();
    AlwaysConserved(INITIAL_HOST, steps);
    LedgerCounts(Run(INITIAL_HOST, steps), c);
  }

  lemma InitialLedger()
    ensures Ledger(INITIAL_HOST)
  {
    assert PendingChannels(INITIAL_HOST.pendingPrompts) == {};
    assert Holders(INITIAL_HOST) == multiset(INITIAL_HOST.log.completions);
  }

  lemma LedgerCounts(s: Host, c: Channel)
    requires Ledger(s)
    ensures Holders(s)[c] == (if c in s.log.completions then 1 else 0)
    ensures Completions(s.log.delivered)[c] <= 1
  {
    assert Completions(s.log.delivered)[c] <= Holders(s)[c];
    hide PendingChannels, Barriers, Completions;
  }
}
