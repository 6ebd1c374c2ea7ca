/**
 * Who may drive a client session: a record's (epoch, revision) pair, changed by
 * compare-and-swap in a store that several registries cache, and cached once more
 * by every host (crates/protocol/src/adapter/mod.rs, crates/acp/src/host.rs).
 */
module Ownership {
  import opened Common

  type SessionId = string
  type RegistryId = nat
  type HostId = nat

  datatype Pair = Pair(epoch: nat, revision: nat)

  datatype SessionState = Loaded | Subscribed | Executing | Disconnected

  /** `binding` stands for the negotiated protocol and capabilities, compared as a whole. */
  datatype Record = Record(pair: Pair, connection: string, state: SessionState, core: string, binding: string)

  type Records = map<SessionId, Record>

  datatype Refusal =
    | UnknownSession | SessionNotAttached | BindingMismatch | StaleOwner
    | HandleMismatch | CoreSessionNotFound | RevisionExhausted | SessionConflict

  datatype Outcome = Accepted(pair: Pair) | Refused(why: Refusal)

  // ------------------------------------------------------------------ the registry

  datatype Change = Claim(connection: string, state: SessionState) | Transition(state: SessionState)

  /** What a claim or a transition makes of a record; nothing once a counter is full. */
  function Changed(r: Record, change: Change): Option<Record> {
    match change
    case Claim(connection, state) =>
      if r.pair.epoch >= MAX_U64 || r.pair.revision >= MAX_U64 then None
      else Some(r.(pair := Pair(r.pair.epoch + 1, r.pair.revision + 1), connection := connection, state := state))
    case Transition(state) =>
      if r.pair.revision >= MAX_U64 then None
      else Some(r.(pair := Pair(r.pair.epoch, r.pair.revision + 1), state := state))
  }

  datatype Registers = Registers(store: Records, cache: Records)

  /** The checked update through one registry; a conflict brings its cache up to date. */
  function UpdateChecked(g: Registers, id: SessionId, expected: Pair, change: Change): (Registers, Outcome) {
    if id !in g.cache then (g, Refused(UnknownSession))
    else if g.cache[id].pair != expected then (g, Refused(StaleOwner))
    else match Changed(g.cache[id], change)
      case None => (g, Refused(RevisionExhausted))
      case Some(candidate) =>
        if id !in g.store then (g.(cache := g.cache - {id}), Refused(UnknownSession))
        else if g.store[id].pair != expected then (g.(cache := g.cache[id := g.store[id]]), Refused(StaleOwner))
        else (Registers(g.store[id := candidate], g.cache[id := candidate]), Accepted(candidate.pair))
  }

  function Register(g: Registers, id: SessionId, record: Record): (Registers, Outcome) {
    if id in g.store then (g.(cache := g.cache[id := g.store[id]]), Refused(SessionConflict))
    else (Registers(g.store[id := record], g.cache[id := record]), Accepted(record.pair))
  }

  // ---------------------------------------------------------------------- one host

  datatype View = View(registers: Registers, contexts: map<SessionId, Pair>)

  /** What a host does with a session. `seen` and `presented` were read from its registry at some time. */
  datatype Op =
    | Open(id: SessionId, core: string, coreExists: bool)
    | Adopt(id: SessionId)
    | Dispatch(id: SessionId)
    | Resume(id: SessionId, seen: Pair, state: SessionState, coreExists: bool)
    | Close(id: SessionId, presented: Pair)

  /** A host that holds no pair for the session takes its registry's current one. */
  function SessionContext(v: View, id: SessionId): View {
    if id !in v.contexts && id in v.registers.cache
    then v.(contexts := v.contexts[id := v.registers.cache[id].pair])
    else v
  }

  function RequireAttached(v: View, id: SessionId, pair: Pair, binding: string): Outcome {
    if id !in v.registers.cache then Refused(UnknownSession)
    else
      var r := v.registers.cache[id];
      if r.state == Disconnected then Refused(SessionNotAttached)
      else if r.binding != binding then Refused(BindingMismatch)
      else if r.pair != pair then Refused(StaleOwner)
      else Accepted(pair)
  }

  function Write(v: View, id: SessionId, expected: Pair, change: Change): (View, Outcome) {
    var (registers, outcome) := UpdateChecked(v.registers, id, expected, change);
    (View(registers, if outcome.Accepted? then v.contexts[id := outcome.pair] else v.contexts), outcome)
  }

  function Apply(v0: View, op: Op, connection: string, binding: string): (View, Outcome) {
    match op
    case Open(id, core, coreExists) =>
      if !coreExists then (v0, Refused(CoreSessionNotFound))
      else
        var (registers, outcome) :=
          Register(v0.registers, id, Record(Pair(1, 1), connection, Subscribed, core, binding));
        (View(registers, if outcome.Accepted? then v0.contexts[id := Pair(1, 1)] else v0.contexts), outcome)
    case Adopt(id) =>
      var v := SessionContext(v0, id);
      (v, if id in v.contexts then Accepted(v.contexts[id]) else Refused(UnknownSession))
    case Dispatch(id) =>
      var v := SessionContext(v0, id);
      (v, if id in v.contexts then RequireAttached(v, id, v.contexts[id], binding) else Refused(UnknownSession))
    case Resume(id, seen, state, coreExists) =>
      if id !in v0.registers.cache then (v0, Refused(UnknownSession))
      else if !coreExists then (v0, Refused(CoreSessionNotFound))
      else
        var v := SessionContext(v0, id);
        if v.contexts[id] != seen then (v, Refused(HandleMismatch))
        else if v.registers.cache[id].binding != binding then (v, Refused(BindingMismatch))
        else Write(v, id, seen, Claim(connection, state))
    case Close(id, presented) =>
      var v := SessionContext(v0, id);
      if id !in v.contexts then (v, Refused(UnknownSession))
      else if v.contexts[id] != presented then (v, Refused(HandleMismatch))
      else if id !in v.registers.cache then (v, Refused(UnknownSession))
      else if v.registers.cache[id].binding != binding then (v, Refused(BindingMismatch))
      else Write(v, id, presented, Transition(Disconnected))
  }

  // -------------------------------------------------------------- all of them at once

  datatype Host = Host(registry: RegistryId, connection: string, binding: string, contexts: map<SessionId, Pair>)

  datatype World = World(store: Records, caches: map<RegistryId, Records>, hosts: map<HostId, Host>)

  datatype Step =
    | StartRegistry(registry: RegistryId)
    | StartHost(host: HostId, at: RegistryId, connection: string, binding: string)
    | Act(host: HostId, op: Op)

  predicate Enabled(w: World, step: Step) {
    match step
    case StartRegistry(g) => g !in w.caches
    case StartHost(h, g, _, _) => h !in w.hosts && g in w.caches
    case Act(h, _) => h in w.hosts && w.hosts[h].registry in w.caches
  }

  function ViewOf(w: World, h: HostId): View
    requires h in w.hosts && w.hosts[h].registry in w.caches
  {
    View(Registers(w.store, w.caches[w.hosts[h].registry]), w.hosts[h].contexts)
  }

  function Acted(w: World, h: HostId, op: Op): (View, Outcome)
    requires h in w.hosts && w.hosts[h].registry in w.caches
  {
    Apply(ViewOf(w, h), op, w.hosts[h].connection, w.hosts[h].binding)
  }

  /** A new registry loads the whole store; an action touches the store, its own registry, its own host. */
  function Next(w: World, step: Step): World
    requires Enabled(w, step)
  {
    match step
    case StartRegistry(g) => w.(caches := w.caches[g := w.store])
    case StartHost(h, g, connection, binding) => w.(hosts := w.hosts[h := Host(g, connection, binding, map[])])
    case Act(h, op) =>
      var v := Acted(w, h, op).0;
      World(v.registers.store, w.caches[w.hosts[h].registry := v.registers.cache],
        w.hosts[h := w.hosts[h].(contexts := v.contexts)])
  }

  function OutcomeOf(w: World, step: Step): Outcome
    requires Enabled(w, step) && step.Act?
  {
    Acted(w, step.host, step.op).1
  }

  ghost predicate EnabledRun(w: World, steps: seq<Step>)
    decreases |steps|
  {
    steps == [] || (Enabled(w, steps[0]) && EnabledRun(Next(w, steps[0]), steps[1..]))
  }

  const NOBODY: World := World(map[], map[], map[])

  // --------------------------------------------------------- pairs only move forward

  ghost predicate Older(p: Pair, q: Pair) {
    p.epoch <= q.epoch && p.revision < q.revision
  }

  /** Every record of `a` is in `b`, the same or at a later pair. */
  ghost predicate Behind(a: Records, b: Records) {
    forall id | id in a :: id in b && (a[id] == b[id] || Older(a[id].pair, b[id].pair))
  }

  ghost predicate HoldsPast(contexts: map<SessionId, Pair>, cache: Records) {
    forall id | id in contexts :: id in cache && (contexts[id] == cache[id].pair || Older(contexts[id], cache[id].pair))
  }

  ghost predicate CoherentView(v: View) {
    Behind(v.registers.cache, v.registers.store) && HoldsPast(v.contexts, v.registers.cache)
  }

  ghost predicate Forward(v: View, t: View) {
    && Behind(v.registers.store, t.registers.store)
    && Behind(v.registers.cache, t.registers.cache)
  }

  ghost predicate Coherent(w: World) {
    && (forall g | g in w.caches :: Behind(w.caches[g], w.store))
    && (forall h | h in w.hosts :: w.hosts[h].registry in w.caches
          && HoldsPast(w.hosts[h].contexts, w.caches[w.hosts[h].registry]))
  }

  lemma BehindTrans(a: Records, b: Records, c: Records)
    requires Behind(a, b) && Behind(b, c)
    ensures Behind(a, c)
  {
  }

  lemma HoldsPastTrans(contexts: map<SessionId, Pair>, b: Records, c: Records)
    requires HoldsPast(contexts, b) && Behind(b, c)
    ensures HoldsPast(contexts, c)
  {
  }

  lemma UpdateKeepsBehind(g: Registers, id: SessionId, expected: Pair, change: Change)
    requires Behind(g.cache, g.store)
    ensures var (t, outcome) := UpdateChecked(g, id, expected, change);
      && Behind(t.cache, t.store) && Behind(g.store, t.store) && Behind(g.cache, t.cache)
      && (outcome.Accepted? ==> id in t.cache && t.cache[id].pair == outcome.pair)
  {
    if id in g.cache && Changed(g.cache[id], change).Some? {
      assert Older(g.cache[id].pair, Changed(g.cache[id], change).value.pair);
      assert id in g.store;
    }
  }

  lemma WriteKeepsCoherent(v: View, id: SessionId, expected: Pair, change: Change)
    requires CoherentView(v)
    ensures CoherentView(Write(v, id, expected, change).0) && Forward(v, Write(v, id, expected, change).0)
  {
    hide UpdateChecked, Behind;
    UpdateKeepsBehind(v.registers, id, expected, change);
    HoldsPastTrans(v.contexts, v.registers.cache, Write(v, id, expected, change).0.registers.cache);
  }

  lemma RegisterKeepsBehind(g: Registers, id: SessionId, record: Record)
    requires Behind(g.cache, g.store)
    ensures var (t, outcome) := Register(g, id, record);
      && Behind(t.cache, t.store) && Behind(g.store, t.store) && Behind(g.cache, t.cache)
      && (outcome.Accepted? ==> id in t.cache && t.cache[id] == record)
  {
  }

  lemma OpenKeepsCoherent(v: View, op: Op, connection: string, binding: string)
    requires CoherentView(v) && op.Open?
    ensures CoherentView(Apply(v, op, connection, binding).0) && Forward(v, Apply(v, op, connection, binding).0)
  {
    RegisterKeepsBehind(v.registers, op.id, Record(Pair(1, 1), connection, Subscribed, op.core, binding));
    var t := Apply(v, op, connection, binding).0;
    SelfBehind(v.registers.store);
    SelfBehind(v.registers.cache);
    hide Register, Behind;
    HoldsPastTrans(v.contexts, v.registers.cache, t.registers.cache);
  }

  lemma ContextKeepsCoherent(v: View, id: SessionId)
    requires CoherentView(v)
    ensures CoherentView(SessionContext(v, id)) && Forward(v, SessionContext(v, id))
  {
  }

  lemma ApplyKeepsCoherent(v: View, op: Op, connection: string, binding: string)
    requires CoherentView(v)
    ensures CoherentView(Apply(v, op, connection, binding).0) && Forward(v, Apply(v, op, connection, binding).0)
  {
    if op.Open? {
      OpenKeepsCoherent(v, op, connection, binding);
    } else {
      SelfBehind(v.registers.store);
      SelfBehind(v.registers.cache);
      ContextKeepsCoherent(v, op.id);
      hide Write, Register, Behind, HoldsPast, RequireAttached;
      assert SessionContext(v, op.id).registers == v.registers;
      if op.Resume? { WriteKeepsCoherent(SessionContext(v, op.id), op.id, op.seen, Claim(connection, op.state)); }
      if op.Close? { WriteKeepsCoherent(SessionContext(v, op.id), op.id, op.presented, Transition(Disconnected)); }
    }
  }

  /** No step takes any pair back, in the store or in a registry; every held pair stays a past one. */
  lemma StepKeepsCoherent(w: World, step: Step)
    requires Coherent(w) && Enabled(w, step)
    ensures Coherent(Next(w, step)) && Behind(w.store, Next(w, step).store)
    ensures forall g | g in w.caches :: g in Next(w, step).caches && Behind(w.caches[g], Next(w, step).caches[g])
  {
    if step.Act? {
      var v := ViewOf(w, step.host);
      var h := w.hosts[step.host];
      ApplyKeepsCoherent(v, step.op, h.connection, h.binding);
      hide Apply, HoldsPast;
      var t := Next(w, step);
      forall g | g in t.caches ensures Behind(t.caches[g], t.store) {
        if g != h.registry { BehindTrans(w.caches[g], w.store, t.store); }
      }
      hide Behind;
      forall k | k in t.hosts ensures HoldsPast(t.hosts[k].contexts, t.caches[t.hosts[k].registry]) {
        if k != step.host && w.hosts[k].registry == h.registry {
          HoldsPastTrans(w.hosts[k].contexts, w.caches[h.registry], t.caches[h.registry]);
        }
      }
      assert forall g | g in w.caches && g != h.registry :: t.caches[g] == w.caches[g];
      forall g | g in w.caches ensures Behind(w.caches[g], t.caches[g]) { SelfBehind(w.caches[g]); }
    } else if step.StartRegistry? {
      SelfBehind(w.store);
    }
  }

  lemma SelfBehind(a: Records)
    ensures Behind(a, a)
  {
  }

  // ------------------------------------------------------------------------ fencing

  predicate Holds(w: World, h: HostId, id: SessionId) {
    h in w.hosts && w.hosts[h].registry in w.caches && id in w.hosts[h].contexts
  }

  /** The store has moved past the pair that the host holds. */
  ghost predicate Overtaken(w: World, h: HostId, id: SessionId) {
    Holds(w, h, id) && id in w.store && Older(w.hosts[h].contexts[id], w.store[id].pair)
  }

  /** And the host's own registry knows. */
  ghost predicate Fenced(w: World, h: HostId, id: SessionId) {
    && Holds(w, h, id)
    && var cache := w.caches[w.hosts[h].registry];
       id in cache && Older(w.hosts[h].contexts[id], cache[id].pair)
  }

  predicate ActsOn(step: Step, h: HostId, id: SessionId) {
    step.Act? && step.host == h && step.op.id == id && !step.op.Adopt?
  }

  predicate WritesOn(step: Step, h: HostId, id: SessionId) {
    ActsOn(step, h, id) && (step.op.Resume? || step.op.Close? || step.op.Open?)
  }

  /** A view whose pair has been overtaken: whatever is asked of the session, the pair stays. */
  lemma OvertakenApply(v: View, op: Op, connection: string, binding: string, id: SessionId)
    requires CoherentView(v) && id in v.contexts && id in v.registers.store
    requires Older(v.contexts[id], v.registers.store[id].pair)
    ensures var (t, outcome) := Apply(v, op, connection, binding);
      && id in t.contexts && t.contexts[id] == v.contexts[id]
      && (op.id == id && (op.Resume? || op.Close? || op.Open?) ==> outcome.Refused?)
      && (op.id == id && op.Dispatch? && Older(v.contexts[id], v.registers.cache[id].pair) ==> outcome.Refused?)
  {
  }

  lemma StepKeepsHeld(w: World, step: Step, h: HostId, id: SessionId)
    requires Coherent(w) && Overtaken(w, h, id) && Enabled(w, step)
    ensures var t := Next(w, step);
      && h in t.hosts && t.hosts[h].registry == w.hosts[h].registry
      && id in t.hosts[h].contexts && t.hosts[h].contexts[id] == w.hosts[h].contexts[id]
    ensures WritesOn(step, h, id) ==> OutcomeOf(w, step).Refused?
    ensures Fenced(w, h, id) && ActsOn(step, h, id) ==> OutcomeOf(w, step).Refused?
  {
    if step.Act? && step.host == h {
      OvertakenApply(ViewOf(w, h), step.op, w.hosts[h].connection, w.hosts[h].binding, id);
    }
    hide Apply, Behind, HoldsPast;
  }

  lemma StepKeepsOvertaken(w: World, step: Step, h: HostId, id: SessionId)
    requires Coherent(w) && Overtaken(w, h, id) && Enabled(w, step)
    ensures Overtaken(Next(w, step), h, id)
    ensures Next(w, step).hosts[h].contexts[id] == w.hosts[h].contexts[id]
    ensures WritesOn(step, h, id) ==> OutcomeOf(w, step).Refused?
    ensures Fenced(w, h, id) && ActsOn(step, h, id) ==> OutcomeOf(w, step).Refused?
    ensures Fenced(w, h, id) ==> Fenced(Next(w, step), h, id)
  {
    hide Apply, Behind, HoldsPast, Coherent, Next;
    StepKeepsCoherent(w, step);
    StepKeepsHeld(w, step, h, id);
    var g := w.hosts[h].registry;
    BehindAt(w.store, Next(w, step).store, id);
    if Fenced(w, h, id) { BehindAt(w.caches[g], Next(w, step).caches[g], id); }
  }

  lemma BehindAt(a: Records, b: Records, id: SessionId)
    requires Behind(a, b) && id in a
    ensures id in b && (b[id] == a[id] || Older(a[id].pair, b[id].pair))
  {
  }

  lemma FencedIsOvertaken(w: World, h: HostId, id: SessionId)
    requires Coherent(w) && Fenced(w, h, id)
    ensures Overtaken(w, h, id)
  {
    assert Behind(w.caches[w.hosts[h].registry], w.store);
  }

  ghost predicate AllRefused(w: World, steps: seq<Step>, which: Step -> bool)
    requires EnabledRun(w, steps)
    decreases |steps|
  {
    steps == [] ||
    ((steps[0].Act? && which(steps[0]) ==> OutcomeOf(w, steps[0]).Refused?)
     && AllRefused(Next(w, steps[0]), steps[1..], which))
  }

  /** An overtaken host never again writes the session, whatever anybody does. */
  lemma {:induction false} OvertakenNeverWrites(w: World, steps: seq<Step>, h: HostId, id: SessionId)
    requires Coherent(w) && Overtaken(w, h, id) && EnabledRun(w, steps)
    ensures AllRefused(w, steps, step => WritesOn(step, h, id))
    decreases |steps|
  {
    hide Next, Coherent, Overtaken, Fenced;
    if steps != [] {
      StepKeepsCoherent(w, steps[0]);
      StepKeepsOvertaken(w, steps[0], h, id);
      OvertakenNeverWrites(Next(w, steps[0]), steps[1..], h, id);
    }
  }

  /** A fenced host is refused everything about the session, for ever. */
  lemma {:induction false} FencedForEver(w: World, steps: seq<Step>, h: HostId, id: SessionId)
    requires Coherent(w) && Fenced(w, h, id) && EnabledRun(w, steps)
    ensures AllRefused(w, steps, step => ActsOn(step, h, id))
    decreases |steps|
  {
    FencedIsOvertaken(w, h, id);
    hide Next, Coherent, Overtaken, Fenced;
    if steps != [] {
      StepKeepsCoherent(w, steps[0]);
      StepKeepsOvertaken(w, steps[0], h, id);
      FencedForEver(Next(w, steps[0]), steps[1..], h, id);
    }
  }

  lemma AcceptedWrite(v: View, op: Op, connection: string, binding: string)
    requires CoherentView(v) && (op.Resume? || op.Close?) && Apply(v, op, connection, binding).1.Accepted?
    ensures var (t, outcome) := Apply(v, op, connection, binding); var id := op.id;
      && id in v.registers.store && id in t.registers.store && id in t.registers.cache
      && t.registers.store[id].pair == t.registers.cache[id].pair == outcome.pair
      && v.registers.store[id].pair == (if op.Resume? then op.seen else op.presented)
      && Older(v.registers.store[id].pair, outcome.pair)
  {
  }

  /**
   * Once a reattach (or a close) is accepted, every other host that holds a pair for
   * the session is refused every later write, and, if it shares the registry, every
   * later dispatch too.
   */
  lemma ReattachFencesOthers(w: World, step: Step, steps: seq<Step>, h: HostId)
    requires Coherent(w) && EnabledRun(w, [step] + steps)
    requires step.Act? && (step.op.Resume? || step.op.Close?) && OutcomeOf(w, step).Accepted?
    requires Holds(w, h, step.op.id) && h != step.host
    ensures EnabledRun(Next(w, step), steps)
    ensures AllRefused(Next(w, step), steps, s => WritesOn(s, h, step.op.id))
    ensures w.hosts[h].registry == w.hosts[step.host].registry ==>
      AllRefused(Next(w, step), steps, s => ActsOn(s, h, step.op.id))
  {
    assert ([step] + steps)[0] == step && ([step] + steps)[1..] == steps;
    StepKeepsCoherent(w, step);
    AcceptedOvertakes(w, step, h);
    OvertakenNeverWrites(Next(w, step), steps, h, step.op.id);
    if w.hosts[h].registry == w.hosts[step.host].registry {
      FencedForEver(Next(w, step), steps, h, step.op.id);
    }
  }

  lemma AcceptedOvertakes(w: World, step: Step, h: HostId)
    requires Coherent(w) && Enabled(w, step)
    requires step.Act? && (step.op.Resume? || step.op.Close?) && OutcomeOf(w, step).Accepted?
    requires Holds(w, h, step.op.id) && h != step.host
    ensures Overtaken(Next(w, step), h, step.op.id)
    ensures w.hosts[h].registry == w.hosts[step.host].registry ==> Fenced(Next(w, step), h, step.op.id)
  {
    var id := step.op.id;
    AcceptedWrite(ViewOf(w, step.host), step.op, w.hosts[step.host].connection, w.hosts[step.host].binding);
    assert HoldsPast(w.hosts[h].contexts, w.caches[w.hosts[h].registry]);
    assert Behind(w.caches[w.hosts[h].registry], w.store);
    assert id in w.store;
    hide Apply, Behind, HoldsPast;
  }

  /**
   * Between registries the fence is late: an overtaken host still dispatches exactly
   * as long as its own registry's copy is the old one, open, and of its binding.
   */
  lemma OvertakenDispatchIff(w: World, h: HostId, id: SessionId)
    requires Coherent(w) && Overtaken(w, h, id)
    ensures var me := w.hosts[h]; var cache := w.caches[me.registry];
      && id in cache
      && (OutcomeOf(w, Act(h, Dispatch(id))).Accepted? <==>
            !Fenced(w, h, id) && cache[id].state != Disconnected && cache[id].binding == me.binding)
  {
    assert HoldsPast(w.hosts[h].contexts, w.caches[w.hosts[h].registry]);
  }

  /** Its first refused write that reaches the store brings its registry up to date, and fences it. */
  lemma RefusedWriteFences(w: World, h: HostId, id: SessionId, state: SessionState)
    requires Coherent(w) && Overtaken(w, h, id)
    requires var cache := w.caches[w.hosts[h].registry];
      id in cache && cache[id].binding == w.hosts[h].binding && Changed(cache[id], Claim("", state)).Some?
    ensures Fenced(Next(w, Act(h, Resume(id, w.hosts[h].contexts[id], state, true))), h, id)
  {
  }

  // ------------------------------------------------------------ closed until resumed

  predicate ResumeAccepted(w: World, step: Step, id: SessionId)
    requires Enabled(w, step)
  {
    step.Act? && step.op.Resume? && step.op.id == id && OutcomeOf(w, step).Accepted?
  }

  predicate CloseAccepted(w: World, step: Step, id: SessionId)
    requires Enabled(w, step)
  {
    step.Act? && step.op.Close? && step.op.id == id && OutcomeOf(w, step).Accepted?
  }

  /** The store and the registry both have the session as closed. */
  predicate ClosedAt(w: World, g: RegistryId, id: SessionId) {
    && id in w.store && w.store[id].state == Disconnected
    && g in w.caches && id in w.caches[g] && w.caches[g][id].state == Disconnected
  }

  /** What an accepted close or resume makes of the record; all else about the session stays. */
  lemma AcceptedRecord(w: World, step: Step, id: SessionId)
    requires Coherent(w) && Enabled(w, step) && (ResumeAccepted(w, step, id) || CloseAccepted(w, step, id))
    ensures id in w.store && id in Next(w, step).store
    ensures var me := w.hosts[step.host]; var was, now := w.store[id], Next(w, step).store[id];
      && now.core == was.core && now.binding == was.binding
      && (ResumeAccepted(w, step, id) ==>
            && now.connection == me.connection && now.state == step.op.state
            && now.pair == Pair(was.pair.epoch + 1, was.pair.revision + 1))
      && (CloseAccepted(w, step, id) ==>
            && now.connection == was.connection && now.state == Disconnected
            && now.pair == Pair(was.pair.epoch, was.pair.revision + 1))
      && id in Next(w, step).caches[me.registry] && Next(w, step).caches[me.registry][id] == now
      && id in Next(w, step).hosts[step.host].contexts && Next(w, step).hosts[step.host].contexts[id] == now.pair
  {
    var me := w.hosts[step.host];
    var v := ViewOf(w, step.host);
    assert Behind(v.registers.cache, v.registers.store);
    AcceptedIsUpdate(v, step.op, me.connection, me.binding);
    AcceptedIsHeld(v, step.op, me.connection, me.binding);
    AcceptedUpdate(v.registers, id, WrittenPair(step.op), WrittenChange(step.op, me.connection));
    hide Behind, HoldsPast, Apply, UpdateChecked;
  }

  function WrittenPair(op: Op): Pair
    requires op.Resume? || op.Close?
  {
    if op.Resume? then op.seen else op.presented
  }

  function WrittenChange(op: Op, connection: string): Change
    requires op.Resume? || op.Close?
  {
    if op.Resume? then Claim(connection, op.state) else Transition(Disconnected)
  }

  lemma AcceptedIsUpdate(v: View, op: Op, connection: string, binding: string)
    requires (op.Resume? || op.Close?) && Apply(v, op, connection, binding).1.Accepted?
    ensures var (t, outcome) := Apply(v, op, connection, binding);
      (t.registers, outcome) == UpdateChecked(v.registers, op.id, WrittenPair(op), WrittenChange(op, connection))
  {
    hide UpdateChecked;
  }

  lemma AcceptedIsHeld(v: View, op: Op, connection: string, binding: string)
    requires (op.Resume? || op.Close?) && Apply(v, op, connection, binding).1.Accepted?
    ensures var (t, outcome) := Apply(v, op, connection, binding);
      op.id in t.contexts && t.contexts[op.id] == outcome.pair
      && op.id in t.registers.cache && t.registers.cache[op.id].pair == outcome.pair
  {
  }

  /** Whoever has resumed a session, open, may dispatch it at once. */
  lemma ResumedHostDispatches(w: World, step: Step, id: SessionId)
    requires Coherent(w) && Enabled(w, step) && ResumeAccepted(w, step, id) && step.op.state != Disconnected
    ensures Enabled(Next(w, step), Act(step.host, Dispatch(id)))
    ensures OutcomeOf(Next(w, step), Act(step.host, Dispatch(id))).Accepted?
  {
    AcceptedRecord(w, step, id);
    ResumeAcceptedIff(w, step.host, id, step.op.seen, step.op.state, step.op.coreExists);
    hide Behind, HoldsPast, UpdateChecked, Register;
    StepKeepsIdentity(w, step, id);
    CachedIsStored(w, step.host, id);
  }

  lemma CachedIsStored(w: World, h: HostId, id: SessionId)
    requires Coherent(w) && h in w.hosts && id in w.caches[w.hosts[h].registry]
    ensures id in w.store
    ensures w.caches[w.hosts[h].registry][id].pair == w.store[id].pair ==> w.caches[w.hosts[h].registry][id] == w.store[id]
  {
    assert Behind(w.caches[w.hosts[h].registry], w.store);
  }

  /**
   * A session is opened exactly if its Core session exists and nobody has opened it;
   * then it is open, at pair (1, 1), its opener's. A known one is left as it is, and
   * the registry has it from then on as the store does.
   */
  lemma OpenAcceptedIff(w: World, h: HostId, id: SessionId, core: string, coreExists: bool)
    requires h in w.hosts && w.hosts[h].registry in w.caches
    ensures var step := Act(h, Open(id, core, coreExists)); var t := Next(w, step); var me := w.hosts[h];
      && (OutcomeOf(w, step).Accepted? <==> coreExists && id !in w.store)
      && (OutcomeOf(w, step).Accepted? ==>
            && t.store == w.store[id := Record(Pair(1, 1), me.connection, Subscribed, core, me.binding)]
            && id in t.hosts[h].contexts && t.hosts[h].contexts[id] == Pair(1, 1))
      && (OutcomeOf(w, step).Refused? ==> t.store == w.store && t.hosts[h].contexts == me.contexts)
      && (coreExists ==> id in t.caches[me.registry] && t.caches[me.registry][id] == t.store[id])
  {
  }

  /** An accepted update changed the stored record, which was also the cached one. */
  lemma AcceptedUpdate(g: Registers, id: SessionId, expected: Pair, change: Change)
    requires Behind(g.cache, g.store) && UpdateChecked(g, id, expected, change).1.Accepted?
    ensures var t := UpdateChecked(g, id, expected, change).0;
      && id in g.store && id in t.store && id in t.cache && t.cache[id] == t.store[id]
      && Changed(g.store[id], change) == Some(t.store[id])
  {
  }

  /** A view in which the session is closed keeps it so, unless a resume is accepted, and dispatches nothing. */
  lemma ClosedApply(v: View, op: Op, connection: string, binding: string, id: SessionId)
    requires id in v.registers.store && v.registers.store[id].state == Disconnected
    ensures var (t, outcome) := Apply(v, op, connection, binding);
      !(op.Resume? && op.id == id && outcome.Accepted?) ==>
        && id in t.registers.store && t.registers.store[id].state == Disconnected
        && (id in v.registers.cache && v.registers.cache[id].state == Disconnected ==>
              && id in t.registers.cache && t.registers.cache[id].state == Disconnected
              && (op.Dispatch? && op.id == id ==> outcome.Refused?))
  {
    if op.Resume? { ClosedUpdate(v.registers, op.id, op.seen, Claim(connection, op.state), id); }
    if op.Close? { ClosedUpdate(v.registers, op.id, op.presented, Transition(Disconnected), id); }
    hide UpdateChecked;
  }

  lemma ClosedUpdate(g: Registers, id: SessionId, expected: Pair, change: Change, closed: SessionId)
    requires closed in g.store && g.store[closed].state == Disconnected
    ensures var (t, outcome) := UpdateChecked(g, id, expected, change);
      !(change.Claim? && id == closed && outcome.Accepted?) && (change.Transition? ==> change.state == Disconnected) ==>
        && closed in t.store && t.store[closed].state == Disconnected
        && (closed in g.cache && g.cache[closed].state == Disconnected ==>
              closed in t.cache && t.cache[closed].state == Disconnected)
  {
  }

  lemma StepKeepsClosed(w: World, step: Step, g: RegistryId, id: SessionId)
    requires Enabled(w, step) && ClosedAt(w, g, id) && !ResumeAccepted(w, step, id)
    ensures ClosedAt(Next(w, step), g, id)
    ensures step.Act? && step.op == Dispatch(id) && w.hosts[step.host].registry == g ==> OutcomeOf(w, step).Refused?
  {
    if step.Act? {
      var me := w.hosts[step.host];
      ClosedApply(ViewOf(w, step.host), step.op, me.connection, me.binding, id);
    }
    hide Apply;
  }

  /** Up to the next accepted resume of the session, every dispatch of it through the registry is refused. */
  ghost predicate RefusedUntilResumed(w: World, steps: seq<Step>, g: RegistryId, id: SessionId)
    requires EnabledRun(w, steps)
    decreases |steps|
  {
    steps == [] || ResumeAccepted(w, steps[0], id) ||
    (var step := steps[0];
     && (step.Act? && step.op == Dispatch(id) && w.hosts[step.host].registry == g ==> OutcomeOf(w, step).Refused?)
     && RefusedUntilResumed(Next(w, step), steps[1..], g, id))
  }

  lemma {:induction false} ClosedStaysClosed(w: World, steps: seq<Step>, g: RegistryId, id: SessionId)
    requires EnabledRun(w, steps) && ClosedAt(w, g, id)
    ensures RefusedUntilResumed(w, steps, g, id)
    decreases |steps|
  {
    if steps != [] && !ResumeAccepted(w, steps[0], id) {
      StepKeepsClosed(w, steps[0], g, id);
      hide Next, ClosedAt, OutcomeOf;
      ClosedStaysClosed(Next(w, steps[0]), steps[1..], g, id);
    }
  }

  /**
   * Once a close is accepted, every dispatch of the session through that registry -
   * the closing host's own included - is refused until a resume is accepted.
   */
  lemma ClosedIsClosed(w: World, step: Step, steps: seq<Step>, id: SessionId)
    requires Coherent(w) && EnabledRun(w, [step] + steps) && CloseAccepted(w, ([step] + steps)[0], id)
    ensures EnabledRun(Next(w, step), steps)
    ensures RefusedUntilResumed(Next(w, step), steps, w.hosts[step.host].registry, id)
  {
    assert ([step] + steps)[0] == step && ([step] + steps)[1..] == steps;
    AcceptedRecord(w, step, id);
    ClosedStaysClosed(Next(w, step), steps, w.hosts[step.host].registry, id);
  }

  /** Nobody changes which Core session a client session stands for, or its binding. */
  lemma StepKeepsIdentity(w: World, step: Step, id: SessionId)
    requires Coherent(w) && Enabled(w, step) && id in w.store
    ensures id in Next(w, step).store
    ensures Next(w, step).store[id].core == w.store[id].core && Next(w, step).store[id].binding == w.store[id].binding
  {
    if step.Act? {
      var me := w.hosts[step.host];
      assert Behind(w.caches[me.registry], w.store);
      ApplyKeepsIdentity(ViewOf(w, step.host), step.op, me.connection, me.binding, id);
    }
    hide Behind, HoldsPast, Apply;
  }

  lemma UpdateKeepsIdentity(g: Registers, id: SessionId, expected: Pair, change: Change, other: SessionId)
    requires Behind(g.cache, g.store) && other in g.store
    ensures var t := UpdateChecked(g, id, expected, change).0;
      other in t.store && t.store[other].core == g.store[other].core && t.store[other].binding == g.store[other].binding
  {
  }

  lemma ApplyKeepsIdentity(v: View, op: Op, connection: string, binding: string, id: SessionId)
    requires Behind(v.registers.cache, v.registers.store) && id in v.registers.store
    ensures var t := Apply(v, op, connection, binding).0.registers.store;
      id in t && t[id].core == v.registers.store[id].core && t[id].binding == v.registers.store[id].binding
  {
    if op.Resume? { UpdateKeepsIdentity(v.registers, op.id, op.seen, Claim(connection, op.state), id); }
    if op.Close? { UpdateKeepsIdentity(v.registers, op.id, op.presented, Transition(Disconnected), id); }
    hide UpdateChecked, Behind, RequireAttached;
  }

  /**
   * A resume is accepted exactly if the pair it saw is the one this host holds (or may
   * still adopt), its registry's and the store's, the Core session exists, the binding
   * is the negotiated one, and neither counter is full. Refused, it changes no record.
   */
  lemma ResumeAcceptedIff(w: World, h: HostId, id: SessionId, seen: Pair, state: SessionState, coreExists: bool)
    requires Coherent(w) && h in w.hosts
    ensures var me := w.hosts[h]; var cache := w.caches[me.registry];
      var step := Act(h, Resume(id, seen, state, coreExists));
      && (OutcomeOf(w, step).Accepted? <==>
            && coreExists && id in cache && cache[id].pair == seen && cache[id].binding == me.binding
            && (id in me.contexts ==> me.contexts[id] == seen)
            && w.store[id].pair == seen && seen.epoch < MAX_U64 && seen.revision < MAX_U64)
      && (OutcomeOf(w, step).Refused? ==> Next(w, step).store == w.store)
  {
    var me := w.hosts[h];
    assert Behind(w.caches[me.registry], w.store);
  }

  /** The same for a close, which needs no Core session and spares the epoch. */
  lemma CloseAcceptedIff(w: World, h: HostId, id: SessionId, presented: Pair)
    requires Coherent(w) && h in w.hosts
    ensures var me := w.hosts[h]; var cache := w.caches[me.registry]; var step := Act(h, Close(id, presented));
      && (OutcomeOf(w, step).Accepted? <==>
            && id in cache && cache[id].pair == presented && cache[id].binding == me.binding
            && (id in me.contexts ==> me.contexts[id] == presented)
            && w.store[id].pair == presented && presented.revision < MAX_U64)
      && (OutcomeOf(w, step).Refused? ==> Next(w, step).store == w.store)
  {
    var me := w.hosts[h];
    assert Behind(w.caches[me.registry], w.store);
    assert HoldsPast(me.contexts, w.caches[me.registry]);
  }

  // -------------------------------------------------------- at most one use per pair

  /** The pair that an accepted reattach or close of `id` replaced. */
  predicate Replaces(w: World, step: Step, id: SessionId, p: Pair)
    requires Enabled(w, step)
  {
    && step.Act? && step.op.id == id && OutcomeOf(w, step).Accepted?
    && ((step.op.Resume? && step.op.seen == p) || (step.op.Close? && step.op.presented == p))
  }

  ghost predicate NeverReplaced(w: World, steps: seq<Step>, id: SessionId, p: Pair)
    requires EnabledRun(w, steps)
    decreases |steps|
  {
    steps == [] || (!Replaces(w, steps[0], id, p) && NeverReplaced(Next(w, steps[0]), steps[1..], id, p))
  }

  lemma {:induction false} PastPairIsSpent(w: World, steps: seq<Step>, id: SessionId, p: Pair)
    requires Coherent(w) && EnabledRun(w, steps) && id in w.store && Older(p, w.store[id].pair)
    ensures NeverReplaced(w, steps, id, p)
    decreases |steps|
  {
    if steps != [] {
      var step := steps[0];
      StepKeepsCoherent(w, step);
      assert id in Next(w, step).store && Older(p, Next(w, step).store[id].pair) by {
        assert Behind(w.store, Next(w, step).store);
      }
      if Replaces(w, step, id, p) {
        AcceptedWrite(ViewOf(w, step.host), step.op, w.hosts[step.host].connection, w.hosts[step.host].binding);
        assert false;
      }
      PastPairIsSpent(Next(w, step), steps[1..], id, p);
    }
  }

  /** However many hosts race with one pair, over any registries, one of them wins, once. */
  lemma OneWinnerPerPair(w: World, step: Step, steps: seq<Step>, id: SessionId, p: Pair)
    requires Coherent(w) && EnabledRun(w, [step] + steps) && Replaces(w, ([step] + steps)[0], id, p)
    ensures EnabledRun(Next(w, step), steps) && NeverReplaced(Next(w, step), steps, id, p)
  {
    assert ([step] + steps)[0] == step && ([step] + steps)[1..] == steps;
    StepKeepsCoherent(w, step);
    AcceptedWrite(ViewOf(w, step.host), step.op, w.hosts[step.host].connection, w.hosts[step.host].binding);
    PastPairIsSpent(Next(w, step), steps, id, p);
  }

  lemma {:induction false} AlwaysCoherent(w: World, steps: seq<Step>)
    requires Coherent(w) && EnabledRun(w, steps)
    ensures Coherent(Run(w, steps)) && Behind(w.store, Run(w, steps).store)
    decreases |steps|
  {
    if steps == [] {
      SelfBehind(w.store);
    } else {
      StepKeepsCoherent(w, steps[0]);
      AlwaysCoherent(Next(w, steps[0]), steps[1..]);
      BehindTrans(w.store, Next(w, steps[0]).store, Run(w, steps).store);
    }
  }

  ghost function Run(w: World, steps: seq<Step>): World
    requires EnabledRun(w, steps)
    decreases |steps|
  {
    if steps == [] then w else Run(Next(w, steps[0]), steps[1..])
  }

  // ------------------------------------------------------------- what it is not

  /**
   * Not a single owner: while one host's dispatches are accepted, those of another on
   * the same registry are too, exactly if it has the same binding and holds no pair,
   * or the same one. And the first host's stay so.
   */
  lemma TwoHostsDispatchIff(w: World, owner: HostId, guest: HostId, id: SessionId)
    requires Coherent(w) && Holds(w, owner, id) && guest in w.hosts
    requires w.hosts[owner].registry == w.hosts[guest].registry
    requires OutcomeOf(w, Act(owner, Dispatch(id))).Accepted?
    ensures OutcomeOf(w, Act(guest, Dispatch(id))).Accepted? <==>
      && w.hosts[guest].binding == w.hosts[owner].binding
      && (id in w.hosts[guest].contexts ==> w.hosts[guest].contexts[id] == w.hosts[owner].contexts[id])
    ensures var t := Next(w, Act(guest, Dispatch(id)));
      Enabled(t, Act(owner, Dispatch(id))) && OutcomeOf(t, Act(owner, Dispatch(id))).Accepted?
  {
  }

  /** Before anything has started, nothing is out of order. */
  lemma InitiallyCoherent()
    ensures Coherent(NOBODY)
  {
  }

  /** The late fence is real: host 1 reattaches through its registry, and host 0 still dispatches through its own. */
  lemma StaleRegistryStillDispatches(id: SessionId)
    ensures var steps := [StartRegistry(0), StartHost(0, 0, "a", "acp"), Act(0, Open(id, "core", true)),
        StartRegistry(1), StartHost(1, 1, "b", "acp"), Act(1, Resume(id, Pair(1, 1), Subscribed, true))];
      && EnabledRun(NOBODY, steps)
      && var w := Run(NOBODY, steps);
         && Overtaken(w, 0, id) && id in w.store && w.store[id].connection == "b"
         && OutcomeOf(w, Act(0, Dispatch(id))).Accepted?
  {
    var s1, s2, s3 := StartRegistry(0), StartHost(0, 0, "a", "acp"), Act(0, Open(id, "core", true));
    var s4, s5, s6 := StartRegistry(1), StartHost(1, 1, "b", "acp"), Act(1, Resume(id, Pair(1, 1), Subscribed, true));
    var w1 := Next(NOBODY, s1);
    var w2 := Next(w1, s2);
    var w3 := Next(w2, s3);
    var w4 := Next(w3, s4);
    var w5 := Next(w4, s5);
    var w6 := Next(w5, s6);
    RunSix(NOBODY, s1, s2, s3, s4, s5, s6);
  }

  lemma RunSix(w: World, s1: Step, s2: Step, s3: Step, s4: Step, s5: Step, s6: Step)
    requires Enabled(w, s1) && Enabled(Next(w, s1), s2) && Enabled(Next(Next(w, s1), s2), s3)
    requires Enabled(Next(Next(Next(w, s1), s2), s3), s4)
    requires Enabled(Next(Next(Next(Next(w, s1), s2), s3), s4), s5)
    requires Enabled(Next(Next(Next(Next(Next(w, s1), s2), s3), s4), s5), s6)
    ensures EnabledRun(w, [s1, s2, s3, s4, s5, s6])
    ensures Run(w, [s1, s2, s3, s4, s5, s6]) == Next(Next(Next(Next(Next(Next(w, s1), s2), s3), s4), s5), s6)
  {
    hide Next, Enabled;
    var q := [s1, s2, s3, s4, s5, s6];
    assert q[1..] == [s2, s3, s4, s5, s6] && q[1..][1..] == [s3, s4, s5, s6];
    assert q[1..][1..][1..] == [s4, s5, s6] && q[1..][1..][1..][1..] == [s5, s6];
    assert q[1..][1..][1..][1..][1..] == [s6] && q[1..][1..][1..][1..][1..][1..] == [];
    var w5 := Next(Next(Next(Next(Next(w, s1), s2), s3), s4), s5);
    assert EnabledRun(Next(w5, s6), []) && Run(Next(w5, s6), []) == Next(w5, s6);
    assert EnabledRun(w5, [s6]) && Run(w5, [s6]) == Next(w5, s6);
    var w4 := Next(Next(Next(Next(w, s1), s2), s3), s4);
    assert EnabledRun(w4, [s5, s6]) && Run(w4, [s5, s6]) == Next(w5, s6);
    var w3 := Next(Next(Next(w, s1), s2), s3);
    assert EnabledRun(w3, [s4, s5, s6]) && Run(w3, [s4, s5, s6]) == Next(w5, s6);
    var w2 := Next(Next(w, s1), s2);
    assert EnabledRun(w2, [s3, s4, s5, s6]) && Run(w2, [s3, s4, s5, s6]) == Next(w5, s6);
    assert EnabledRun(Next(w, s1), [s2, s3, s4, s5, s6]) && Run(Next(w, s1), [s2, s3, s4, s5, s6]) == Next(w5, s6);
  }

  // ------------------------------------------------------------------ in their own form

  class RegistryStore {
    var records: Records

    constructor ()
      ensures records == map[]
    {
      records := map[];
    }

    method Insert(id: SessionId, record: Record) returns (conflict: Option<Record>)
      modifies this
      ensures id in old(records) ==> conflict == Some(old(records)[id]) && records == old(records)
      ensures id !in old(records) ==> conflict == None && records == old(records)[id := record]
    {
      if id in records {
        return Some(records[id]);
      }
      records := records[id := record];
      return None;
    }

    /** The stored record changes only if it still carries the expected pair. */
    method CompareAndSwap(id: SessionId, expected: Pair, record: Record)
      returns (applied: bool, current: Option<Record>)
      modifies this
      ensures applied <==> id in old(records) && old(records)[id].pair == expected
      ensures records == if applied then old(records)[id := record] else old(records)
      ensures !applied ==> current == if id in records then Some(records[id]) else None
    {
      if id !in records {
        return false, None;
      }
      if records[id].pair != expected {
        return false, Some(records[id]);
      }
      records := records[id := record];
      return true, None;
    }
  }

  /** One process's registry: a store it may share with others, and its own copy. */
  class SessionRegistry {
    const store: RegistryStore
    var records: Records

    ghost function Held(): Registers
      reads this, store
    {
      Registers(store.records, records)
    }

    constructor (store: RegistryStore)
      ensures this.store == store && records == store.records
    {
      this.store := store;
      records := store.records;
    }

    method RegisterRecord(id: SessionId, record: Record) returns (outcome: Outcome)
      modifies this, store
      ensures (Held(), outcome) == Register(old(Held()), id, record)
    {
      var conflict := store.Insert(id, record);
      if conflict.Some? {
        records := records[id := conflict.value];
        return Refused(SessionConflict);
      }
      records := records[id := record];
      return Accepted(record.pair);
    }

    method Update(id: SessionId, expected: Pair, change: Change) returns (outcome: Outcome)
      modifies this, store
      ensures (Held(), outcome) == UpdateChecked(old(Held()), id, expected, change)
    {
      if id !in records {
        return Refused(UnknownSession);
      }
      if records[id].pair != expected {
        return Refused(StaleOwner);
      }
      var candidate := Changed(records[id], change);
      if candidate.None? {
        return Refused(RevisionExhausted);
      }
      var applied, current := store.CompareAndSwap(id, expected, candidate.value);
      if applied {
        records := records[id := candidate.value];
        return Accepted(candidate.value.pair);
      }
      if current.Some? {
        records := records[id := current.value];
        return Refused(StaleOwner);
      }
      records := records - {id};
      return Refused(UnknownSession);
    }
  }

  /** The part of a host that owns sessions: the pairs it holds, and its registry. */
  class Connection {
    const registry: SessionRegistry
    const connection: string
    const binding: string
    var sessionContexts: map<SessionId, Pair>

    ghost function Now(): View
      reads this, registry, registry.store
    {
      View(registry.Held(), sessionContexts)
    }

    constructor (registry: SessionRegistry, connection: string, binding: string)
      ensures this.registry == registry && this.connection == connection && this.binding == binding
      ensures sessionContexts == map[]
    {
      this.registry, this.connection, this.binding := registry, connection, binding;
      sessionContexts := map[];
    }

    method HoldContext(id: SessionId) returns (pair: Option<Pair>)
      modifies this
      ensures Now() == SessionContext(old(Now()), id)
      ensures pair == if id in sessionContexts then Some(sessionContexts[id]) else None
    {
      if id !in sessionContexts {
        if id !in registry.records {
          return None;
        }
        sessionContexts := sessionContexts[id := registry.records[id].pair];
      }
      return Some(sessionContexts[id]);
    }

    method NewSession(id: SessionId, core: string, coreExists: bool) returns (outcome: Outcome)
      modifies this, registry, registry.store
      ensures (Now(), outcome) == Apply(old(Now()), Op.Open(id, core, coreExists), connection, binding)
    {
      if !coreExists {
        return Refused(CoreSessionNotFound);
      }
      outcome := registry.RegisterRecord(id, Record(Pair(1, 1), connection, Subscribed, core, binding));
      if outcome.Accepted? {
        sessionContexts := sessionContexts[id := outcome.pair];
      }
    }

    method DispatchAttached(id: SessionId) returns (outcome: Outcome)
      modifies this
      ensures (Now(), outcome) == Apply(old(Now()), Op.Dispatch(id), connection, binding)
    {
      var held := HoldContext(id);
      if held.None? || id !in registry.records {
        return Refused(UnknownSession);
      }
      var record := registry.records[id];
      if record.state == Disconnected {
        return Refused(SessionNotAttached);
      }
      if record.binding != binding {
        return Refused(BindingMismatch);
      }
      if record.pair != held.value {
        return Refused(StaleOwner);
      }
      return Accepted(record.pair);
    }

    /** Uninterrupted, the pair that `session/resume` has seen is its registry's current one. */
    method SessionResume(id: SessionId, coreExists: bool) returns (outcome: Outcome)
      modifies this, registry, registry.store
      ensures id !in old(registry.records) ==> outcome == Refused(UnknownSession) && Now() == old(Now())
      ensures id in old(registry.records) ==>
        ((Now(), outcome) ==
          Apply(old(Now()), Op.Resume(id, old(registry.records)[id].pair, Subscribed, coreExists), connection, binding))
    {
      if id !in registry.records {
        return Refused(UnknownSession);
      }
      var record := registry.records[id];
      if !coreExists {
        return Refused(CoreSessionNotFound);
      }
      var held := HoldContext(id);
      if held != Some(record.pair) {
        return Refused(HandleMismatch);
      }
      if record.binding != binding {
        return Refused(BindingMismatch);
      }
      outcome := registry.Update(id, record.pair, Claim(connection, Subscribed));
      if outcome.Accepted? {
        sessionContexts := sessionContexts[id := outcome.pair];
      }
    }

    method SessionClose(id: SessionId, presented: Pair) returns (outcome: Outcome)
      modifies this, registry, registry.store
      ensures (Now(), outcome) == Apply(old(Now()), Op.Close(id, presented), connection, binding)
    {
      var held := HoldContext(id);
      if held.None? {
        return Refused(UnknownSession);
      }
      if held.value != presented {
        return Refused(HandleMismatch);
      }
      if id !in registry.records {
        return Refused(UnknownSession);
      }
      if registry.records[id].binding != binding {
        return Refused(BindingMismatch);
      }
      outcome := registry.Update(id, presented, Transition(Disconnected));
      if outcome.Accepted? {
        sessionContexts := sessionContexts[id := outcome.pair];
      }
    }
  }
}
