/**
 * The two mailboxes. Urgent mail overtakes everything. While a Core dispatch is
 * outstanding the loop serves urgent mail and outbox drains and sets all other
 * mail aside; afterwards it takes the set-aside mail before the mailbox.
 */
module AcpMail {
  import opened Common
  import opened AcpTypes
  import opened AcpHost
  import opened AcpCoupling

  datatype Request =
    | InitializeRequest
    | SessionPrompt(session: SessionId)
    | SessionNew
    | SessionClose(session: SessionId)
    | OtherRequest                         // session/resume and unknown methods: no ledger changes

  datatype Mail =
    | RequestMail(id: JsonRpcId, request: Request)
    | NotificationMail
    | ResponseMail(id: JsonRpcId, answer: PermissionAnswer)
    | DrainAndPumpMail
    | PumpEventsMail(events: seq<Envelope>)
    | DrainOutboxMail

  datatype Urgent = SessionCancelMail(session: SessionId) | RequestCancelMail(id: JsonRpcId) | FailClosedMail

  /** What the surroundings answer while one letter is handled. */
  datatype Answers = Answers(
    admission: Admission,             // how far a prompt gets
    accepted: bool,                   // whether another request decodes
    pumped: Option<seq<Envelope>>,    // what the subscription yields; None when it lagged
    order: seq<JsonRpcId>,            // walking order of the permission table
    orders: Orders)                   // walking orders of fail-closed

  function StepForMail(mail: Mail, answers: Answers): Step {
    match mail
    case RequestMail(_, InitializeRequest) => Initialize
    case RequestMail(id, SessionPrompt(sid)) => Prompt(id, sid, answers.admission)
    case RequestMail(_, SessionNew) => CreateSession(answers.accepted)
    case RequestMail(_, SessionClose(sid)) => if answers.accepted then CloseSession(sid, answers.order) else Skip
    case RequestMail(_, OtherRequest) => Skip
    case NotificationMail => Skip
    case ResponseMail(id, answer) => Answer(id, answer)
    case DrainAndPumpMail => if answers.pumped.Some? then Pump(answers.pumped.value) else FailAll(answers.orders)
    case PumpEventsMail(events) => Pump(events)
    case DrainOutboxMail => Drain
  }

  function StepForUrgent(urgent: Urgent, answers: Answers): Step {
    match urgent
    case SessionCancelMail(sid) => SessionCancel(sid, answers.order)
    case RequestCancelMail(id) => RequestCancel(id)
    case FailClosedMail => FailAll(answers.orders)
  }

  /** `arrived` and `processed` are histories; `processed` leaves out the drains. */
  datatype Actor = Actor(
    host: Host,
    mailRx: seq<Mail>,
    urgentRx: seq<Urgent>,
    deferred: seq<Mail>,
    arrived: seq<Mail>,
    processed: seq<Mail>)

  const INITIAL_ACTOR: Actor := Actor(INITIAL_HOST, [], [], [], [], [])

  datatype Act =
    | Post(mail: Mail)
    | PostUrgent(urgent: Urgent)
    | Turn(answers: Answers)
    | CoreReplies(reply: Reply, order: seq<JsonRpcId>)
    | TransportConsumes
    | TransportReleases
    | TransportLoses

  function NonDrain(q: seq<Mail>): seq<Mail> {
    if q == [] then []
    else NonDrain(q[..|q| - 1]) + (if q[|q| - 1].DrainOutboxMail? then [] else [q[|q| - 1]])
  }

  /** The letter the loop takes up next, if no urgent mail waits. */
  function NextMail(a: Actor): Option<Mail> {
    if a.host.inFlight.None? && a.deferred != [] then Some(a.deferred[0])
    else if a.mailRx != [] then Some(a.mailRx[0])
    else None
  }

  /** The handler that an act runs. */
  function HostStep(a: Actor, act: Act): Step {
    match act
    case Post(_) => Skip
    case PostUrgent(_) => Skip
    case CoreReplies(reply, order) => if a.host.inFlight.Some? then Step.Reply(reply, order) else Skip
    case TransportConsumes => Consume
    case TransportReleases => ReleaseBatch
    case TransportLoses => LoseBatch
    case Turn(answers) =>
      if a.urgentRx != [] then StepForUrgent(a.urgentRx[0], answers)
      else if NextMail(a).None? then Skip
      else if a.host.inFlight.Some? && !NextMail(a).value.DrainOutboxMail? then Skip
      else StepForMail(NextMail(a).value, answers)
  }

  /** Where the mail goes. */
  function Sorted(a: Actor, act: Act): Actor {
    match act
    case Post(mail) => a.(mailRx := a.mailRx + [mail], arrived := a.arrived + [mail])
    case PostUrgent(urgent) => a.(urgentRx := a.urgentRx + [urgent])
    case Turn(_) =>
      if a.urgentRx != [] then a.(urgentRx := a.urgentRx[1..])
      else if a.host.inFlight.None? && a.deferred != [] then
        a.(deferred := a.deferred[1..], processed := a.processed + NonDrain([a.deferred[0]]))
      else if a.mailRx == [] then a
      else if a.host.inFlight.None? || a.mailRx[0].DrainOutboxMail? then
        a.(mailRx := a.mailRx[1..], processed := a.processed + NonDrain([a.mailRx[0]]))
      else a.(mailRx := a.mailRx[1..], deferred := a.deferred + [a.mailRx[0]])
    case _ => a
  }

  ghost function Do(a: Actor, act: Act): Actor
    requires Allowed(a.host, HostStep(a, act))
  {
    Sorted(a, act).(host := Next(a.host, HostStep(a, act)))
  }

  // --------------------------------------------------------- the loop's discipline

  /** The mail loop never takes up a request while a dispatch is outstanding. */
  lemma LoopSchedules(a: Actor, act: Act)
    ensures Scheduled(a.host, HostStep(a, act))
  {
  }

  ghost predicate WorldRun(a: Actor, acts: seq<Act>)
    decreases |acts|
  {
    acts == [] ||
    (World(a.host, HostStep(a, acts[0])) && (LoopSchedules(a, acts[0]); WorldRun(Do(a, acts[0]), acts[1..])))
  }

  ghost function RunActor(a: Actor, acts: seq<Act>): Actor
    requires WorldRun(a, acts)
    decreases |acts|
  {
    if acts == [] then a else LoopSchedules(a, acts[0]); RunActor(Do(a, acts[0]), acts[1..])
  }

  /** The handlers that a run of the loop runs, in order. */
  ghost function HostSteps(a: Actor, acts: seq<Act>): seq<Step>
    requires WorldRun(a, acts)
    decreases |acts|
  {
    if acts == [] then []
    else LoopSchedules(a, acts[0]); [HostStep(a, acts[0])] + HostSteps(Do(a, acts[0]), acts[1..])
  }

  /** Every run of the loop is an allowed run of handlers, so all that holds of those holds of it. */
  lemma {:induction false} LoopRunsHandlers(a: Actor, acts: seq<Act>)
    requires WorldRun(a, acts)
    ensures AllowedRun(a.host, HostSteps(a, acts))
    ensures RunActor(a, acts).host == Run(a.host, HostSteps(a, acts))
    decreases |acts|
  {
    if acts != [] {
      LoopSchedules(a, acts[0]);
      LoopRunsHandlers(Do(a, acts[0]), acts[1..]);
      var steps := HostSteps(a, acts);
      assert steps[0] == HostStep(a, acts[0]) && steps[1..] == HostSteps(Do(a, acts[0]), acts[1..]);
    }
  }

  lemma LoopKeepsCoupled(acts: seq<Act>)
    requires WorldRun(INITIAL_ACTOR, acts)
    ensures Coupled(RunActor(INITIAL_ACTOR, acts).host)
  {
    LoopRunsHandlers(INITIAL_ACTOR, acts);
    InitiallyCoupled();
    AlwaysCoupled(INITIAL_HOST, HostSteps(INITIAL_ACTOR, acts));
  }

  // --------------------------------------------------------------- what letters bring about

  ghost predicate LedgersEmpty(s: Host) {
    && s.occupancy == map[] && s.runSessions == map[] && s.pendingPrompts == map[] && s.pendingPermissions == map[]
    && s.outbox == [] && s.heldEvents == []
  }

  /** A cancel for a session reaches its run, or is remembered for the prompt in flight. */
  ghost predicate SessionCancelled(s: Host, t: Host, sid: SessionId) {
    sid in s.occupancy ==>
      match s.occupancy[sid].runId
      case Some(run) => t.log.attempts == s.log.attempts + [RunCancel(sid, run)]
      case None => sid in t.occupancy && t.occupancy[sid].earlySessionCancel
  }

  /** What an urgent letter brings about. */
  ghost predicate UrgentEffect(s: Host, t: Host, urgent: Urgent) {
    match urgent
    case FailClosedMail => LedgersEmpty(t)
    case SessionCancelMail(sid) => SessionCancelled(s, t, sid)
    case RequestCancelMail(id) =>
      && (id in s.pendingPrompts ==>
            t.log.attempts == s.log.attempts + [RunCancel(s.pendingPrompts[id].session, s.pendingPrompts[id].run)])
      && (id !in s.pendingPrompts ==> id !in t.pendingPermissions)
      && (id !in s.pendingPrompts && id !in s.pendingPermissions ==>
            forall sid | sid in s.occupancy && s.occupancy[sid].requestId == id ::
              sid in t.occupancy && t.occupancy[sid].earlyRequestCancel)
  }

  /** What a letter of the ordinary mailbox brings about, once the loop takes it up. */
  ghost predicate MailEffect(s: Host, t: Host, mail: Mail, answers: Answers) {
    match mail
    case RequestMail(_, InitializeRequest) => t.initialized
    case RequestMail(id, SessionPrompt(sid)) =>
      if s.initialized && sid !in s.occupancy && answers.admission.Dispatched? then
        && t.inFlight == Some(PromptFlight(sid, id, s.nextChannel))
        && sid in t.occupancy && t.occupancy[sid] == Slot(id, None, false, false)
      else t.inFlight == s.inFlight && t.occupancy == s.occupancy
    case RequestMail(_, SessionNew) => s.initialized && answers.accepted ==> t.inFlight == Some(CreateFlight)
    case RequestMail(_, SessionClose(sid)) => answers.accepted ==> SessionCancelled(s, t, sid)
    case RequestMail(_, OtherRequest) => t == s
    case NotificationMail => t == s
    case ResponseMail(id, _) => id !in t.pendingPermissions
    case DrainAndPumpMail =>
      if answers.pumped.Some? then t.log.arrived == s.log.arrived + answers.pumped.value else LedgersEmpty(t)
    case PumpEventsMail(events) => t.log.arrived == s.log.arrived + events
    case DrainOutboxMail => t.outbox == [] && t.handed == s.handed + s.outbox
  }

  lemma {:induction false} PumpArrives(s: Host, events: seq<Envelope>)
    ensures PumpEvents(s, events).log.arrived == s.log.arrived + events
    decreases |events|
  {
    if events != [] {
      RouteKeepsFrame(s.(log := s.log.(arrived := s.log.arrived + [events[0]])), events[0]);
      PumpArrives(Receive(s, events[0]), events[1..]);
      hide RouteOrHold;
      assert s.log.arrived + [events[0]] + events[1..] == s.log.arrived + events;
    }
  }

  lemma FailClosedEmpties(s: Host, orders: Orders)
    requires OrdersFor(orders, s)
    ensures LedgersEmpty(FailClosed(s, orders))
  {
    hide RunCancels, Denials, FailedDeliveries, BarrierDeliveries, SnapshotOf;
  }

  lemma CancelHasEffect(s: Host, sid: SessionId, order: seq<JsonRpcId>)
    requires Coupled(s)
    ensures SessionCancelled(s, if s.initialized then CancelSession(s, sid, order) else s, sid)
  {
    hide AsksOf, CancelNotices, Linked, UnboundIs, PublishedAgrees;
  }

  lemma RequestCancelHasEffect(s: Host, id: JsonRpcId)
    requires Coupled(s)
    ensures UrgentEffect(s, if s.initialized then CancelRequest(s, id) else s, RequestCancelMail(id))
  {
    CancelRequestCases(s, id);
    if s.initialized && id !in s.pendingPrompts && id !in s.pendingPermissions {
      OneSlot(s, id);
    }
    if id in s.pendingPrompts { assert PromptLinked(id, s.pendingPrompts[id], s.occupancy); }
    hide CancelRequest, FindSlot;
  }

  /** At most one slot has a request id that is no running prompt's: the prompt in flight. */
  lemma OneSlot(s: Host, id: JsonRpcId)
    requires Coupled(s) && id !in s.pendingPrompts
    ensures forall a, b | a in s.occupancy && b in s.occupancy
      && s.occupancy[a].requestId == id == s.occupancy[b].requestId :: a == b
  {
    forall a, b | a in s.occupancy && b in s.occupancy
      && s.occupancy[a].requestId == id == s.occupancy[b].requestId ensures a == b
    {
      assert s.occupancy[a].runId.Some? ==> SlotLinked(a, s.occupancy[a], s.runSessions, s.pendingPrompts);
      assert s.occupancy[b].runId.Some? ==> SlotLinked(b, s.occupancy[b], s.runSessions, s.pendingPrompts);
    }
  }

  lemma UrgentStepHasEffect(s: Host, urgent: Urgent, answers: Answers)
    requires Coupled(s) && Allowed(s, StepForUrgent(urgent, answers))
    ensures UrgentEffect(s, Next(s, StepForUrgent(urgent, answers)), urgent)
  {
    hide FailClosed, CancelSession, CancelRequest, LedgersEmpty, Coupled, SessionCancelled;
    match urgent
    case FailClosedMail => FailClosedEmpties(s, answers.orders);
    case SessionCancelMail(sid) => CancelHasEffect(s, sid, answers.order);
    case RequestCancelMail(id) => RequestCancelHasEffect(s, id);
  }

  lemma BeginHasEffect(s: Host, id: JsonRpcId, sid: SessionId, answers: Answers)
    ensures MailEffect(s, BeginPrompt(s, id, sid, answers.admission), RequestMail(id, SessionPrompt(sid)), answers)
  {
    hide SnapshotOf;
  }

  lemma MailStepHasEffect(s: Host, mail: Mail, answers: Answers)
    requires Coupled(s) && Allowed(s, StepForMail(mail, answers))
    ensures MailEffect(s, Next(s, StepForMail(mail, answers)), mail, answers)
  {
    hide FailClosed, CancelSession, LedgersEmpty, Coupled, SessionCancelled, PumpEvents, BeginPrompt, SnapshotOf;
    match mail
    case RequestMail(_, InitializeRequest) =>
    case RequestMail(id, SessionPrompt(sid)) => BeginHasEffect(s, id, sid, answers);
    case RequestMail(_, SessionNew) =>
    case RequestMail(_, SessionClose(sid)) => CancelHasEffect(s, sid, answers.order);
    case RequestMail(_, OtherRequest) =>
    case NotificationMail =>
    case ResponseMail(id, answer) =>
    case DrainAndPumpMail =>
      if answers.pumped.Some? { PumpArrives(s, answers.pumped.value); } else { FailClosedEmpties(s, answers.orders); }
    case PumpEventsMail(events) => PumpArrives(s, events);
    case DrainOutboxMail =>
  }

  /**
   * Whatever run of the loop came before: a turn gives the first urgent letter its
   * effect; without one, it gives the next letter its effect, unless Core is being
   * asked and the letter is no drain: then the host stays as it is.
   */
  lemma LettersTakeEffect(acts: seq<Act>, answers: Answers)
    requires WorldRun(INITIAL_ACTOR, acts)
    requires World(RunActor(INITIAL_ACTOR, acts).host, HostStep(RunActor(INITIAL_ACTOR, acts), Turn(answers)))
    ensures var a := RunActor(INITIAL_ACTOR, acts);
      && Allowed(a.host, HostStep(a, Turn(answers)))
      && var t := Do(a, Turn(answers)).host;
         if a.urgentRx != [] then UrgentEffect(a.host, t, a.urgentRx[0])
         else if NextMail(a).None? then t == a.host
         else if a.host.inFlight.Some? && !NextMail(a).value.DrainOutboxMail? then t == a.host
         else MailEffect(a.host, t, NextMail(a).value, answers)
  {
    var a := RunActor(INITIAL_ACTOR, acts);
    LoopKeepsCoupled(acts);
    LoopSchedules(a, Turn(answers));
    hide Coupled, UrgentEffect, MailEffect, RunActor, World, Scheduled;
    if a.urgentRx != [] {
      UrgentStepHasEffect(a.host, a.urgentRx[0], answers);
    } else if NextMail(a).Some? && (a.host.inFlight.None? || NextMail(a).value.DrainOutboxMail?) {
      MailStepHasEffect(a.host, NextMail(a).value, answers);
    }
  }

  // ------------------------------------------------------------------- mail order

  /** Processed, then set aside, then unread: that is the order of arrival. */
  ghost predicate MailInOrder(a: Actor) {
    InArrivalOrder(a.arrived, a.processed, a.deferred, a.mailRx)
  }

  ghost predicate InArrivalOrder(arrived: seq<Mail>, processed: seq<Mail>, deferred: seq<Mail>, rx: seq<Mail>) {
    && NonDrain(arrived) == processed + deferred + NonDrain(rx)
    && NonDrain(deferred) == deferred
  }

  lemma {:induction false} NonDrainAppend(p: seq<Mail>, q: seq<Mail>)
    ensures NonDrain(p + q) == NonDrain(p) + NonDrain(q)
  {
    if q == [] {
      assert p + q == p;
    } else {
      assert (p + q)[..|p + q| - 1] == p + q[..|q| - 1];
      NonDrainAppend(p, q[..|q| - 1]);
    }
  }

  lemma {:induction false} NonDrainLength(q: seq<Mail>)
    ensures |NonDrain(q)| <= |q|
  {
    if q != [] { NonDrainLength(q[..|q| - 1]); }
  }

  lemma NonDrainOne(mail: Mail)
    ensures NonDrain([mail]) == if mail.DrainOutboxMail? then [] else [mail]
  {
    assert [mail][..0] == [] && NonDrain([mail][..0]) == [];
  }

  /** A suffix of mail without drains has none either. */
  lemma NoDrainsLeft(q: seq<Mail>)
    requires q != [] && NonDrain(q) == q
    ensures NonDrain(q[1..]) == q[1..] && NonDrain([q[0]]) == [q[0]]
  {
    assert q == [q[0]] + q[1..];
    NonDrainAppend([q[0]], q[1..]);
    NonDrainLength([q[0]]);
    NonDrainLength(q[1..]);
  }

  lemma PostKeepsOrder(arrived: seq<Mail>, processed: seq<Mail>, deferred: seq<Mail>, rx: seq<Mail>, mail: Mail)
    requires InArrivalOrder(arrived, processed, deferred, rx)
    ensures InArrivalOrder(arrived + [mail], processed, deferred, rx + [mail])
  {
    hide NonDrain;
    NonDrainAppend(arrived, [mail]);
    NonDrainAppend(rx, [mail]);
    assert processed + deferred + (NonDrain(rx) + NonDrain([mail]))
        == processed + deferred + NonDrain(rx) + NonDrain([mail]);
  }

  lemma TakingDeferredKeepsOrder(arrived: seq<Mail>, processed: seq<Mail>, deferred: seq<Mail>, rx: seq<Mail>)
    requires InArrivalOrder(arrived, processed, deferred, rx) && deferred != []
    ensures InArrivalOrder(arrived, processed + NonDrain([deferred[0]]), deferred[1..], rx)
  {
    hide NonDrain;
    NoDrainsLeft(deferred);
    assert deferred == [deferred[0]] + deferred[1..];
  }

  lemma TakingMailKeepsOrder(arrived: seq<Mail>, processed: seq<Mail>, deferred: seq<Mail>, rx: seq<Mail>)
    requires InArrivalOrder(arrived, processed, deferred, rx) && rx != []
    ensures deferred == [] || rx[0].DrainOutboxMail? ==>
      InArrivalOrder(arrived, processed + NonDrain([rx[0]]), deferred, rx[1..])
    ensures !rx[0].DrainOutboxMail? ==> InArrivalOrder(arrived, processed, deferred + [rx[0]], rx[1..])
  {
    hide NonDrain;
    assert rx == [rx[0]] + rx[1..];
    NonDrainAppend([rx[0]], rx[1..]);
    NonDrainAppend(deferred, [rx[0]]);
    NonDrainOne(rx[0]);
    assert processed + deferred + ([rx[0]] + NonDrain(rx[1..])) == processed + (deferred + [rx[0]]) + NonDrain(rx[1..]);
  }

  lemma DoKeepsMailInOrder(a: Actor, act: Act)
    requires MailInOrder(a) && Allowed(a.host, HostStep(a, act))
    ensures MailInOrder(Do(a, act))
  {
    hide Next, HostStep, Allowed, NonDrain, InArrivalOrder;
    if act.Post? {
      PostKeepsOrder(a.arrived, a.processed, a.deferred, a.mailRx, act.mail);
    } else if act.Turn? && a.urgentRx == [] {
      if a.host.inFlight.None? && a.deferred != [] {
        TakingDeferredKeepsOrder(a.arrived, a.processed, a.deferred, a.mailRx);
      } else if a.mailRx != [] {
        TakingMailKeepsOrder(a.arrived, a.processed, a.deferred, a.mailRx);
      }
    }
  }

  lemma {:induction false} AlwaysMailInOrder(a: Actor, acts: seq<Act>)
    requires MailInOrder(a) && WorldRun(a, acts)
    ensures MailInOrder(RunActor(a, acts))
    decreases |acts|
  {
    if acts != [] {
      LoopSchedules(a, acts[0]);
      DoKeepsMailInOrder(a, acts[0]);
      AlwaysMailInOrder(Do(a, acts[0]), acts[1..]);
    }
  }

  /** However many dispatches were interrupted, mail is processed in the order it arrived. */
  lemma MailIsProcessedInOrder(acts: seq<Act>)
    requires WorldRun(INITIAL_ACTOR, acts)
    ensures var a := RunActor(INITIAL_ACTOR, acts);
      && a.processed <= NonDrain(a.arrived)
      && (a.deferred == [] && a.mailRx == [] ==> a.processed == NonDrain(a.arrived))
  {
    AlwaysMailInOrder(INITIAL_ACTOR, acts);
  }
}
