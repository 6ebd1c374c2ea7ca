/**
 * The state of the ACP host actor and what each of its handlers does to it
 * (crates/acp/src/host.rs). A handler that Core can interrupt is two steps:
 * everything up to the Core dispatch, and everything after Core's reply.
 */
module AcpHost {
  import opened Common
  import opened AcpTypes

  /** A prompt's claim on its session: reserved while `runId` is `None`, then bound. */
  datatype Slot = Slot(
    requestId: JsonRpcId,
    runId: Option<RunId>,
    earlySessionCancel: bool,
    earlyRequestCancel: bool)

  datatype PendingPrompt = PendingPrompt(session: SessionId, run: RunId, completion: Channel)

  datatype PendingPermission = PendingPermission(run: RunId, tool: ToolCallId, session: SessionId)

  /** What other threads and the adapter's session resolver can read. */
  datatype Snapshot = Snapshot(
    occupancy: map<SessionId, Option<RunId>>,
    runSessions: map<RunId, SessionId>,
    initialized: bool)

  /** The request whose Core dispatch is outstanding. */
  datatype Flight =
    | PromptFlight(session: SessionId, requestId: JsonRpcId, completion: Channel)
    | CreateFlight

  datatype BoundPrompt = BoundPrompt(session: SessionId, requestId: JsonRpcId, completion: Channel)

  /** A permission request put to the client. */
  datatype Ask = Ask(id: JsonRpcId, permission: PendingPermission)

  datatype Delivery = Delivery(completion: Channel, resolution: Resolution)

  /** Histories. `arrived`, `emitted`, `taken` and `bound` start afresh at each fail-closed. */
  datatype Log = Log(
    arrived: seq<Envelope>,
    emitted: seq<OutboxItem>,
    taken: seq<OutboxItem>,
    bound: map<RunId, BoundPrompt>,
    attempts: seq<Attempt>,
    accepted: set<RunId>,
    completions: set<Channel>,
    delivered: seq<Delivery>,
    lost: multiset<Channel>,
    issued: seq<Ask>,
    cascaded: seq<Ask>)

  datatype Host = Host(
    initialized: bool,
    occupancy: map<SessionId, Slot>,
    runSessions: map<RunId, SessionId>,
    pendingPrompts: map<JsonRpcId, PendingPrompt>,
    pendingPermissions: map<JsonRpcId, PendingPermission>,
    outbox: seq<OutboxItem>,
    heldEvents: seq<Envelope>,
    nextRequestId: nat,
    published: Snapshot,
    inFlight: Option<Flight>,
    nextChannel: Channel,
    handed: seq<OutboxItem>,
    log: Log)

  const EMPTY_LOG: Log := Log([], [], [], map[], [], {}, {}, [], multiset{}, [], [])

  const INITIAL_HOST: Host := Host(
    false, map[], map[], map[], map[], [], [], 1,
    Snapshot(map[], map[], false), None, 0, [], EMPTY_LOG)

  // ---------------------------------------------------------------- primitives

  function RunOfSlots(occupancy: map<SessionId, Slot>): map<SessionId, Option<RunId>> {
    map sid | sid in occupancy :: occupancy[sid].runId
  }

  function SnapshotOf(s: Host): Snapshot {
    Snapshot(RunOfSlots(s.occupancy), s.runSessions, s.initialized)
  }

  function Publish(s: Host): Host {
    s.(published := SnapshotOf(s))
  }

  function PushOutbox(s: Host, items: seq<OutboxItem>): Host {
    s.(outbox := s.outbox + items, log := s.log.(emitted := s.log.emitted + items))
  }

  /** Without a negotiated adapter no envelope can be built, so nothing is attempted. */
  function TryDispatch(s: Host, attempts: seq<Attempt>): Host {
    if s.initialized then s.(log := s.log.(attempts := s.log.attempts + attempts)) else s
  }

  function ReleaseOccupancy(s: Host, sid: SessionId, run: Option<RunId>): Host {
    Publish(s.(
      occupancy := s.occupancy - {sid},
      runSessions := match run { case Some(r) => s.runSessions - {r} case None => s.runSessions }))
  }

  // -------------------------------------------------------------------- events

  function ResolveClientSession(runSessions: map<RunId, SessionId>, e: Envelope): Option<SessionId> {
    var run := if e.stream.RunStream? then Some(e.stream.run) else RunIdOf(e.payload);
    if run.Some? && run.value in runSessions then Some(runSessions[run.value]) else None
  }

  /** The prompt bound to `run`; where several would match, which one is left open. */
  ghost function FindPrompt(pending: map<JsonRpcId, PendingPrompt>, run: RunId): (r: Option<JsonRpcId>)
    ensures r.Some? ==> r.value in pending && pending[r.value].run == run
    ensures r.None? ==> forall id | id in pending :: pending[id].run != run
  {
    if exists id :: id in pending && pending[id].run == run
    then var id :| id in pending && pending[id].run == run; Some(id)
    else None
  }

  /** A terminal state: the prompt leaves the ledgers and its barrier joins the outbox. */
  ghost function ResolvePrompt(s: Host, run: RunId, state: RunState): Host {
    var resolution := ResolutionOf(state);
    var id := FindPrompt(s.pendingPrompts, run);
    if resolution.None? || id.None? then s else
    var prompt := s.pendingPrompts[id.value];
    var s1 := ReleaseOccupancy(s.(pendingPrompts := s.pendingPrompts - {id.value}), prompt.session, Some(run));
    PushOutbox(s1, [FlushBarrier(run, prompt.completion, resolution.value)])
  }

  function EmitPermissionRequest(s: Host, sid: SessionId, run: RunId, tool: ToolCallId, reason: string): Host {
    if !s.initialized then s else
    var id := NumberId(s.nextRequestId);
    var permission := PendingPermission(run, tool, sid);
    var s1 := s.(
      nextRequestId := SaturatingAdd(s.nextRequestId, 1, MAX_U64),
      pendingPermissions := s.pendingPermissions[id := permission],
      log := s.log.(issued := s.log.issued + [Ask(id, permission)]));
    PushOutbox(s1, [Frame(PermissionFrame(id, sid, run, tool, reason))])
  }

  /** The adapter finds the session in the published view, not in the actor's own map. */
  function EmitUpdate(s: Host, e: Envelope): Host {
    var sid := ResolveClientSession(s.published.runSessions, e);
    var update := TranslateSessionUpdate(e.payload);
    if !s.initialized || sid.None? || update.None? then s
    else PushOutbox(s, [Frame(UpdateFrame(sid.value, e.payload.run, update.value))])
  }

  ghost function DeliverEvent(s: Host, e: Envelope): Host {
    var sid := ResolveClientSession(s.runSessions, e);
    if sid.None? then s else
    match e.payload
    case RunChanged(run, state) => if TerminalState(state) then ResolvePrompt(s, run, state) else s
    case ToolApprovalRequired(run, tool, reason) => EmitPermissionRequest(s, sid.value, run, tool, reason)
    case Diagnostic(_) => s
    case _ => EmitUpdate(s, e)
  }

  ghost function RouteOrHold(s: Host, e: Envelope): Host {
    if ResolveClientSession(s.runSessions, e).Some? then DeliverEvent(s, e)
    else if RunIdOf(e.payload).Some? then s.(heldEvents := s.heldEvents + [e])
    else s
  }

  ghost function RouteAll(s: Host, events: seq<Envelope>): Host
    decreases |events|
  {
    if events == [] then s
    else RouteAll(RouteOrHold(s, events[0]), events[1..])
  }

  ghost function FlushHeldEvents(s: Host): Host {
    RouteAll(s.(heldEvents := []), s.heldEvents)
  }

  /** One event off the subscription. */
  ghost function Receive(s: Host, e: Envelope): Host {
    RouteOrHold(s.(log := s.log.(arrived := s.log.arrived + [e])), e)
  }

  ghost function PumpEvents(s: Host, events: seq<Envelope>): Host
    decreases |events|
  {
    if events == [] then s else PumpEvents(Receive(s, events[0]), events[1..])
  }

  // -------------------------------------------------------------- cancellation

  function CascadeIds(s: Host, sid: SessionId): set<JsonRpcId> {
    set id | id in s.pendingPermissions && s.pendingPermissions[id].session == sid
  }

  function CancelNotices(ids: seq<JsonRpcId>): seq<OutboxItem> {
    seq(|ids|, i requires 0 <= i < |ids| => Frame(CancelNotice(ids[i])))
  }

  function AsksOf(pending: map<JsonRpcId, PendingPermission>, order: seq<JsonRpcId>): seq<Ask> {
    if order == [] then []
    else
      var id := order[|order| - 1];
      AsksOf(pending, order[..|order| - 1]) + (if id in pending then [Ask(id, pending[id])] else [])
  }

  /** Drops the session's pending permissions, in `order`, and tells the client. */
  function Cascade(s: Host, order: seq<JsonRpcId>): Host {
    PushOutbox(
      s.(pendingPermissions := s.pendingPermissions - (set id | id in order),
      log := s.log.(cascaded := s.log.cascaded + AsksOf(s.pendingPermissions, order))),
      CancelNotices(order))
  }

  function CancelSession(s: Host, sid: SessionId, order: seq<JsonRpcId>): Host {
    if sid !in s.occupancy then s else
    var slot := s.occupancy[sid];
    match slot.runId
    case None => s.(occupancy := s.occupancy[sid := slot.(earlySessionCancel := true)])
    case Some(run) =>
      var s1 := s.(occupancy := s.occupancy[sid := slot.(earlySessionCancel := false)]);
      Cascade(TryDispatch(s1, [RunCancel(sid, run)]), order)
  }

  /** A session whose slot carries this request id. */
  ghost function FindSlot(occupancy: map<SessionId, Slot>, id: JsonRpcId): (r: Option<SessionId>)
    ensures r.Some? ==> r.value in occupancy && occupancy[r.value].requestId == id
    ensures r.None? ==> forall sid | sid in occupancy :: occupancy[sid].requestId != id
  {
    if exists sid :: sid in occupancy && occupancy[sid].requestId == id
    then var sid :| sid in occupancy && occupancy[sid].requestId == id; Some(sid)
    else None
  }

  function ApproveAttempt(id: JsonRpcId, p: PendingPermission, decision: Decision): Attempt {
    ToolApprove(id, p.session, p.run, p.tool, decision)
  }

  /** Running prompts first, then pending permissions, then reserved slots. */
  ghost function CancelRequest(s: Host, id: JsonRpcId): Host {
    if id in s.pendingPrompts then
      TryDispatch(s, [RunCancel(s.pendingPrompts[id].session, s.pendingPrompts[id].run)])
    else if id in s.pendingPermissions then
      TryDispatch(s.(pendingPermissions := s.pendingPermissions - {id}),
        [ApproveAttempt(id, s.pendingPermissions[id], CancelTool)])
    else
      var sid := FindSlot(s.occupancy, id);
      if sid.None? then s
      else s.(occupancy := s.occupancy[sid.value := s.occupancy[sid.value].(earlyRequestCancel := true)])
  }

  function HandleResponse(s: Host, id: JsonRpcId, answer: PermissionAnswer): Host {
    if id !in s.pendingPermissions then s
    else TryDispatch(s.(pendingPermissions := s.pendingPermissions - {id}),
        [ApproveAttempt(id, s.pendingPermissions[id], DecisionFor(answer))])
  }

  // --------------------------------------------------------------- fail-closed

  /** The orders in which fail-closed walked its three tables. */
  datatype Orders = Orders(runs: seq<RunId>, prompts: seq<JsonRpcId>, permissions: seq<JsonRpcId>)

  ghost predicate OrdersFor(orders: Orders, s: Host) {
    && Enumerates(orders.runs, s.runSessions.Keys)
    && Enumerates(orders.prompts, s.pendingPrompts.Keys)
    && Enumerates(orders.permissions, s.pendingPermissions.Keys)
  }

  function FailedDeliveries(pending: map<JsonRpcId, PendingPrompt>, order: seq<JsonRpcId>): seq<Delivery>
    requires forall id | id in order :: id in pending
  {
    seq(|order|, i requires 0 <= i < |order| => Delivery(pending[order[i]].completion, TurnFailed))
  }

  /** The resolutions that the barriers among `items` carry. */
  function BarrierDeliveries(items: seq<OutboxItem>): seq<Delivery> {
    if items == [] then []
    else
      var last := items[|items| - 1];
      var rest := BarrierDeliveries(items[..|items| - 1]);
      if last.FlushBarrier? then rest + [Delivery(last.completion, last.resolution)] else rest
  }

  function RunCancels(runSessions: map<RunId, SessionId>, order: seq<RunId>): seq<Attempt>
    requires forall r | r in order :: r in runSessions
  {
    seq(|order|, i requires 0 <= i < |order| => RunCancel(runSessions[order[i]], order[i]))
  }

  function Denials(pending: map<JsonRpcId, PendingPermission>, order: seq<JsonRpcId>): seq<Attempt>
    requires forall id | id in order :: id in pending
  {
    seq(|order|, i requires 0 <= i < |order| => ApproveAttempt(order[i], pending[order[i]], Deny))
  }

  function Emptied(s: Host): Host {
    s.(
      occupancy := map[], pendingPrompts := map[], pendingPermissions := map[], runSessions := map[],
      heldEvents := [], outbox := [],
      log := s.log.(arrived := [], emitted := [], taken := [], bound := map[]))
  }

  /** Every ledger empty; pending prompts fail, and queued barriers release theirs. */
  function Cleared(s: Host, promptOrder: seq<JsonRpcId>): Host
    requires forall id | id in promptOrder :: id in s.pendingPrompts
  {
    Emptied(s).(log := Emptied(s).log.(delivered :=
      s.log.delivered + FailedDeliveries(s.pendingPrompts, promptOrder) + BarrierDeliveries(s.outbox)))
  }

  /** All local ledgers are emptied first; Core is told about what they held afterwards. */
  ghost function FailClosed(s: Host, orders: Orders): Host
    requires OrdersFor(orders, s)
  {
    Publish(TryDispatch(TryDispatch(Cleared(s, orders.prompts), RunCancels(s.runSessions, orders.runs)),
      Denials(s.pendingPermissions, orders.permissions)))
  }

  // ------------------------------------------------------------------- prompts

  /** How far a `session/prompt` request gets before Core is asked. */
  datatype Admission =
    | MissingSessionId
    | DecodeFails        // reserved, then released
    | NotAttached        // no session context, or the registry refuses it
    | Dispatched

  datatype Reply = Accepted(run: RunId) | AcceptedWithoutRun | Refused | Unavailable

  function ReservePrompt(s: Host, id: JsonRpcId, sid: SessionId): Host {
    Publish(s.(occupancy := s.occupancy[sid := Slot(id, None, false, false)]))
  }

  function BeginPrompt(s: Host, id: JsonRpcId, sid: SessionId, admission: Admission): Host {
    if !s.initialized || admission.MissingSessionId? || sid in s.occupancy then s else
    var s1 := ReservePrompt(s, id, sid);
    if !admission.Dispatched? then ReleaseOccupancy(s1, sid, None)
    else s1.(inFlight := Some(PromptFlight(sid, id, s1.nextChannel)), nextChannel := s1.nextChannel + 1)
  }

  function NoteAccepted(s: Host, run: RunId): Host {
    s.(log := s.log.(accepted := s.log.accepted + {run}))
  }

  /** Slot, run table and prompt table change together. */
  function Bind(s: Host, f: Flight, run: RunId): Host
    requires f.PromptFlight? && f.session in s.occupancy
  {
    Publish(s.(
      occupancy := s.occupancy[f.session := s.occupancy[f.session].(runId := Some(run))],
      runSessions := s.runSessions[run := f.session],
      pendingPrompts := s.pendingPrompts[f.requestId := PendingPrompt(f.session, run, f.completion)],
      log := s.log.(
        bound := s.log.bound[run := BoundPrompt(f.session, f.requestId, f.completion)],
        completions := s.log.completions + {f.completion})))
  }

  function ClearEarlyCancels(s: Host, sid: SessionId): Host {
    Publish(
      if sid in s.occupancy then
        s.(occupancy := s.occupancy[sid :=
          s.occupancy[sid].(earlySessionCancel := false, earlyRequestCancel := false)])
      else s)
  }

  /** A cancel that landed while Core was deciding is replayed once the run has a name. */
  ghost function ReplayEarlyCancels(s: Host, f: Flight, order: seq<JsonRpcId>): Host
    requires f.PromptFlight?
  {
    var s1 := ClearEarlyCancels(s, f.session);
    if f.session !in s.occupancy then s1
    else if s.occupancy[f.session].earlySessionCancel then CancelSession(s1, f.session, order)
    else if s.occupancy[f.session].earlyRequestCancel then CancelRequest(s1, f.requestId)
    else s1
  }

  ghost function FinishPrompt(s: Host, f: Flight, reply: Reply, order: seq<JsonRpcId>): Host
    requires f.PromptFlight?
  {
    if reply.Unavailable? then ReleaseOccupancy(s, f.session, None)
    else if f.session !in s.occupancy then
      if reply.Accepted? then TryDispatch(NoteAccepted(s, reply.run), [RunCancel(f.session, reply.run)]) else s
    else if !reply.Accepted? then ReleaseOccupancy(s, f.session, None)
    else ReplayEarlyCancels(FlushHeldEvents(Bind(NoteAccepted(s, reply.run), f, reply.run)), f, order)
  }

  ghost function CoreReply(s: Host, reply: Reply, order: seq<JsonRpcId>): Host {
    match s.inFlight
    case None => s
    case Some(CreateFlight) => s.(inFlight := None)
    case Some(f) => FinishPrompt(s.(inFlight := None), f, reply, order)
  }

  // -------------------------------------------------------- draining the outbox

  function DrainOutbox(s: Host): Host {
    s.(outbox := [], handed := s.handed + s.outbox, log := s.log.(taken := s.log.taken + s.outbox))
  }

  /** The consumer writes the next frame, or releases the prompt behind the next barrier. */
  function ConsumeOne(s: Host): Host {
    if s.handed == [] then s
    else s.(handed := s.handed[1..],
      log := s.log.(delivered := s.log.delivered + BarrierDeliveries(s.handed[..1])))
  }

  /** The transport failed: frames are dropped, barriers still release their prompts. */
  function ReleaseHanded(s: Host): Host {
    s.(handed := [], log := s.log.(delivered := s.log.delivered + BarrierDeliveries(s.handed)))
  }

  /** The drain's acknowledgement timed out and the batch was dropped unread. */
  function LoseHanded(s: Host): Host {
    s.(handed := [], log := s.log.(lost := s.log.lost + Completions(BarrierDeliveries(s.handed))))
  }

  function Completions(ds: seq<Delivery>): multiset<Channel> {
    if ds == [] then multiset{}
    else Completions(ds[..|ds| - 1]) + multiset{ds[|ds| - 1].completion}
  }

  // ---------------------------------------------------------------------- steps

  datatype Step =
    | Initialize
    | Prompt(id: JsonRpcId, session: SessionId, admission: Admission)
    | CreateSession(dispatched: bool)
    | Reply(reply: Reply, order: seq<JsonRpcId>)
    | SessionCancel(session: SessionId, order: seq<JsonRpcId>)
    | RequestCancel(id: JsonRpcId)
    | FailAll(orders: Orders)
    | Drain
    | CloseSession(session: SessionId, order: seq<JsonRpcId>)
    | Answer(id: JsonRpcId, answer: PermissionAnswer)
    | Pump(events: seq<Envelope>)
    | Consume
    | ReleaseBatch
    | LoseBatch
    | Skip

  /**
   * What the outside world guarantees: a request id still in use is not used
   * again, Core's run ids are new, and the recorded orders are those of the
   * tables as they stood.
   */
  ghost predicate World(s: Host, step: Step) {
    match step
    case Prompt(id, _, _) => id !in s.pendingPrompts
    case CloseSession(sid, order) => Enumerates(order, CascadeIds(s, sid))
    case SessionCancel(sid, order) => Enumerates(order, CascadeIds(s, sid))
    case FailAll(orders) => OrdersFor(orders, s)
    case Reply(reply, order) =>
      && (reply.Accepted? ==> reply.run !in s.log.accepted)
      && (reply.Accepted? && s.inFlight.Some? && s.inFlight.value.PromptFlight?
          && s.inFlight.value.session in s.occupancy ==>
            Enumerates(order, CascadeIds(AfterFlush(s, s.inFlight.value, reply.run), s.inFlight.value.session)))
    case _ => true
  }

  /**
   * What the mail loop guarantees: only cancels, fail-closed and drains run while
   * a dispatch is outstanding, and only an outstanding dispatch is replied to.
   */
  predicate Scheduled(s: Host, step: Step) {
    match step
    case Prompt(_, _, _) => s.inFlight.None?
    case CreateSession(_) => s.inFlight.None?
    case CloseSession(_, _) => s.inFlight.None?
    case Answer(_, _) => s.inFlight.None?
    case Pump(_) => s.inFlight.None?
    case Reply(_, _) => s.inFlight.Some?
    case _ => true
  }

  ghost predicate Allowed(s: Host, step: Step) {
    World(s, step) && Scheduled(s, step)
  }

  /** The state in which early cancels are replayed. */
  ghost function AfterFlush(s: Host, f: Flight, run: RunId): Host
    requires f.PromptFlight? && f.session in s.occupancy
  {
    FlushHeldEvents(Bind(NoteAccepted(s.(inFlight := None), run), f, run))
  }

  ghost function Next(s: Host, step: Step): Host
    requires Allowed(s, step)
  {
    match step
    case Initialize => if s.initialized then s else Publish(s.(initialized := true))
    case Prompt(id, sid, admission) => BeginPrompt(s, id, sid, admission)
    case CreateSession(dispatched) => if s.initialized && dispatched then s.(inFlight := Some(CreateFlight)) else s
    case Reply(reply, order) => CoreReply(s, reply, order)
    case SessionCancel(sid, order) => if s.initialized then CancelSession(s, sid, order) else s
    case RequestCancel(id) => if s.initialized then CancelRequest(s, id) else s
    case FailAll(orders) => FailClosed(s, orders)
    case Drain => DrainOutbox(s)
    case CloseSession(sid, order) => if s.initialized then CancelSession(s, sid, order) else s
    case Answer(id, answer) => HandleResponse(s, id, answer)
    case Pump(events) => PumpEvents(s, events)
    case Consume => ConsumeOne(s)
    case ReleaseBatch => ReleaseHanded(s)
    case LoseBatch => LoseHanded(s)
    case Skip => s
  }

  ghost predicate AllowedRun(s: Host, steps: seq<Step>)
    decreases |steps|
  {
    steps == [] || (Allowed(s, steps[0]) && AllowedRun(Next(s, steps[0]), steps[1..]))
  }

  ghost function Run(s: Host, steps: seq<Step>): Host
    requires AllowedRun(s, steps)
    decreases |steps|
  {
    if steps == [] then s else Run(Next(s, steps[0]), steps[1..])
  }

  // --------------------------------------------------- what routing never touches

  /** Routing events decides nothing about dispatches, hand-overs or bindings. */
  ghost predicate RouteFrame(s: Host, t: Host) {
    && t.initialized == s.initialized
    && t.inFlight == s.inFlight
    && t.nextChannel == s.nextChannel
    && t.handed == s.handed
    && t.log == s.log.(emitted := t.log.emitted, arrived := t.log.arrived, issued := t.log.issued)
  }

  /** Cancelling binds nothing and decides no dispatch. */
  ghost predicate CancelFrame(s: Host, t: Host) {
    && t.initialized == s.initialized
    && t.inFlight == s.inFlight
    && t.nextChannel == s.nextChannel
    && t.occupancy.Keys == s.occupancy.Keys
    && t.runSessions == s.runSessions
    && t.pendingPrompts == s.pendingPrompts
    && t.heldEvents == s.heldEvents
    && t.published == s.published
    && t.log.accepted == s.log.accepted
    && t.log.bound == s.log.bound
    && t.log.arrived == s.log.arrived
    && t.log.completions == s.log.completions
  }

  lemma CancelSessionFrame(s: Host, sid: SessionId, order: seq<JsonRpcId>)
    ensures CancelFrame(s, CancelSession(s, sid, order))
    ensures CancelSession(s, sid, order).log.emitted == s.log.emitted
         || CancelSession(s, sid, order).log.emitted == s.log.emitted + CancelNotices(order)
  {
    hide Cascade, TryDispatch;
    if sid in s.occupancy && s.occupancy[sid].runId.Some? {
      var s1 := s.(occupancy := s.occupancy[sid := s.occupancy[sid].(earlySessionCancel := false)]);
      var attempts := [RunCancel(sid, s.occupancy[sid].runId.value)];
      DispatchFrame(s1, attempts);
      CascadeFrame(TryDispatch(s1, attempts), order);
    }
  }

  lemma DispatchFrame(s: Host, attempts: seq<Attempt>)
    ensures CancelFrame(s, TryDispatch(s, attempts)) && TryDispatch(s, attempts).occupancy == s.occupancy
    ensures TryDispatch(s, attempts).log.emitted == s.log.emitted
  {
  }

  lemma CascadeFrame(s: Host, order: seq<JsonRpcId>)
    ensures CancelFrame(s, Cascade(s, order)) && Cascade(s, order).occupancy == s.occupancy
    ensures Cascade(s, order).log.emitted == s.log.emitted + CancelNotices(order)
  {
    hide AsksOf, CancelNotices;
  }

  /** A request cancel reaches a run, or settles one permission, or flags one slot, or finds nothing. */
  lemma CancelRequestCases(s: Host, id: JsonRpcId)
    ensures var t := CancelRequest(s, id);
      || (id !in s.pendingPrompts && id !in s.pendingPermissions && FindSlot(s.occupancy, id).None? && t == s)
      || (id in s.pendingPrompts
          && t == TryDispatch(s, [RunCancel(s.pendingPrompts[id].session, s.pendingPrompts[id].run)]))
      || (id !in s.pendingPrompts && id in s.pendingPermissions
          && t == TryDispatch(s.(pendingPermissions := s.pendingPermissions - {id}),
                    [ApproveAttempt(id, s.pendingPermissions[id], CancelTool)]))
      || (id !in s.pendingPrompts && id !in s.pendingPermissions && FindSlot(s.occupancy, id).Some?
          && var sid := FindSlot(s.occupancy, id).value;
             t == s.(occupancy := s.occupancy[sid := s.occupancy[sid].(earlyRequestCancel := true)]))
  {
    hide TryDispatch;
  }

  lemma CancelRequestFrame(s: Host, id: JsonRpcId)
    ensures CancelFrame(s, CancelRequest(s, id)) && CancelRequest(s, id).log.emitted == s.log.emitted
  {
    CancelRequestCases(s, id);
    hide CancelRequest, FindSlot;
  }

  /** Routing is one of five things. */
  lemma RouteCases(s: Host, e: Envelope)
    ensures var t := RouteOrHold(s, e); var sid := ResolveClientSession(s.runSessions, e);
      || t == s
      || (sid.None? && t == s.(heldEvents := s.heldEvents + [e]))
      || (sid.Some? && e.payload.RunChanged? && t == ResolvePrompt(s, e.payload.run, e.payload.state))
      || (sid.Some? && e.payload.ToolApprovalRequired?
          && t == EmitPermissionRequest(s, sid.value, e.payload.run, e.payload.tool, e.payload.reason))
      || (sid.Some? && !e.payload.ToolApprovalRequired? && t == EmitUpdate(s, e))
  {
    hide ResolvePrompt, EmitPermissionRequest, EmitUpdate, ResolveClientSession, TerminalState, RunIdOf;
  }

  lemma ResolveKeepsFrame(s: Host, run: RunId, state: RunState)
    ensures var t := ResolvePrompt(s, run, state); RouteFrame(s, t) && t.log.arrived == s.log.arrived
  {
    hide FindPrompt, ResolutionOf, SnapshotOf;
  }

  lemma EmitKeepsFrame(s: Host, e: Envelope, sid: SessionId, run: RunId, tool: ToolCallId, reason: string)
    ensures var t := EmitUpdate(s, e); RouteFrame(s, t) && t.log.arrived == s.log.arrived
    ensures var t := EmitPermissionRequest(s, sid, run, tool, reason);
      RouteFrame(s, t) && t.log.arrived == s.log.arrived
  {
    hide ResolveClientSession, TranslateSessionUpdate, SaturatingAdd;
  }

  lemma RouteKeepsFrame(s: Host, e: Envelope)
    ensures RouteFrame(s, RouteOrHold(s, e)) && RouteOrHold(s, e).log.arrived == s.log.arrived
  {
    RouteCases(s, e);
    var sid := ResolveClientSession(s.runSessions, e);
    if e.payload.RunChanged? { ResolveKeepsFrame(s, e.payload.run, e.payload.state); }
    if e.payload.ToolApprovalRequired? && sid.Some? {
      EmitKeepsFrame(s, e, sid.value, e.payload.run, e.payload.tool, e.payload.reason);
    } else {
      EmitKeepsFrame(s, e, SessionId(""), RunId(""), ToolCallId(""), "");
    }
    hide RouteOrHold, ResolvePrompt, EmitPermissionRequest, EmitUpdate;
  }

  lemma {:induction false} RouteAllKeepsFrame(s: Host, events: seq<Envelope>)
    ensures RouteFrame(s, RouteAll(s, events)) && RouteAll(s, events).log.arrived == s.log.arrived
    decreases |events|
  {
    if events != [] {
      RouteKeepsFrame(s, events[0]);
      RouteAllKeepsFrame(RouteOrHold(s, events[0]), events[1..]);
    }
  }

  lemma {:induction false} PumpKeepsFrame(s: Host, events: seq<Envelope>)
    ensures RouteFrame(s, PumpEvents(s, events))
    decreases |events|
  {
    if events != [] {
      RouteKeepsFrame(s.(log := s.log.(arrived := s.log.arrived + [events[0]])), events[0]);
      PumpKeepsFrame(Receive(s, events[0]), events[1..]);
    }
  }

  lemma FinishKeepsFlight(s: Host, f: Flight, reply: Reply, order: seq<JsonRpcId>)
    requires f.PromptFlight?
    ensures FinishPrompt(s, f, reply, order).inFlight == s.inFlight
  {
    hide RouteAll, SnapshotOf;
    if f.session in s.occupancy && reply.Accepted? {
      var s1 := Bind(NoteAccepted(s, reply.run), f, reply.run);
      RouteAllKeepsFrame(s1.(heldEvents := []), s1.heldEvents);
      ReplayKeepsFlight(FlushHeldEvents(s1), f, order);
    }
  }

  lemma ReplayKeepsFlight(s: Host, f: Flight, order: seq<JsonRpcId>)
    requires f.PromptFlight?
    ensures ReplayEarlyCancels(s, f, order).inFlight == s.inFlight
  {
    hide SnapshotOf, CancelNotices, AsksOf;
  }
}
