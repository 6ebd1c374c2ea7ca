/**
 * The GUI approval rendezvous (crates/app/src/approval.rs): any number of threads
 * in `decide` and `resolve` meet in two maps under one lock, and a oneshot channel
 * per `decide`. A step is one critical section, one send, or one wake-up.
 */
module Approval {
  import opened Common

  type CallId = string
  type RunId = string

  /** A `decide` call, a `resolve` call: each is its own thread of control. */
  type Waiter = nat
  type Resolver = nat

  datatype Decision = ApprovedOnce | ApprovedForRun | Denied | Cancelled

  /** An entry of `pending`: the asking run, and the sender of the waiter's channel. */
  datatype Entry = Entry(run: RunId, waiter: Waiter)

  /** A decision that `resolve` accepted: who brought it, for which run, and whether to a live waiter. */
  datatype Accepted = Accepted(resolver: Resolver, call: CallId, run: RunId, decision: Decision, live: bool)

  /** The receiving side: the channel is closed once its sender is gone unused. */
  datatype Channel = Empty | Filled(accepted: Accepted) | Closed

  /** `Returned` with no acceptance is the answer Cancelled. */
  datatype Phase = Waiting(call: CallId, run: RunId) | Returned(call: CallId, run: RunId, answer: Option<Accepted>)

  datatype State = State(
    pending: map<CallId, Entry>,
    queued: map<CallId, Accepted>,
    holding: map<Resolver, (Waiter, Accepted)>,   // sender taken, not yet used
    channels: map<Waiter, Channel>,
    waiters: map<Waiter, Phase>,
    resolvers: set<Resolver>,                     // every `resolve` that has begun
    log: map<Resolver, Accepted>)                 // those that were not refused

  const INITIAL: State := State(map[], map[], map[], map[], map[], {}, map[])

  datatype Step =
    | Decide(waiter: Waiter, call: CallId, run: RunId)
    | CancelDecide(waiter: Waiter)
    | Wake(waiter: Waiter)
    | Resolve(resolver: Resolver, call: CallId, run: RunId, decision: Decision)
    | Send(resolver: Resolver)
    | ClearRun(run: RunId)

  // ------------------------------------------------------------- critical sections

  /** Dropping a sender closes its channel, unless it was used or its waiter has left. */
  function DropSender(channels: map<Waiter, Channel>, w: Waiter): map<Waiter, Channel> {
    if w in channels && channels[w].Empty? then channels[w := Closed] else channels
  }

  /** `decide` under the lock: take a queued decision, else leave the sender. */
  function DecideLocked(s: State, w: Waiter, call: CallId, run: RunId): State {
    if call in s.queued then
      s.(queued := s.queued - {call}, waiters := s.waiters[w := Returned(call, run, Some(s.queued[call]))])
    else
      var channels := if call in s.pending then DropSender(s.channels, s.pending[call].waiter) else s.channels;
      s.(
        pending := s.pending[call := Entry(run, w)],
        channels := channels[w := Empty],
        waiters := s.waiters[w := Waiting(call, run)])
  }

  /** `resolve` under the lock: refuse another run's call, else take the sender, else queue. */
  function ResolveLocked(s: State, r: Resolver, call: CallId, run: RunId, decision: Decision): State {
    var accepted := Accepted(r, call, run, decision, call in s.pending);
    if call in s.pending then
      if s.pending[call].run != run then s.(resolvers := s.resolvers + {r})
      else s.(
          pending := s.pending - {call},
          holding := s.holding[r := (s.pending[call].waiter, accepted)],
          resolvers := s.resolvers + {r},
          log := s.log[r := accepted])
    else s.(queued := s.queued[call := accepted], resolvers := s.resolvers + {r}, log := s.log[r := accepted])
  }

  /** The cancelled branch of `decide`: whatever entry stands under its key goes. */
  function CancelLocked(s: State, w: Waiter): State
    requires w in s.waiters && s.waiters[w].Waiting?
  {
    var call := s.waiters[w].call;
    var channels := if call in s.pending then DropSender(s.channels, s.pending[call].waiter) else s.channels;
    s.(
      pending := s.pending - {call},
      channels := channels - {w},
      waiters := s.waiters[w := Returned(call, s.waiters[w].run, None)])
  }

  function ClearRunLocked(s: State, run: RunId): State {
    var gone := set call | call in s.pending && s.pending[call].run == run;
    var closed := set call | call in gone :: s.pending[call].waiter;
    s.(
      pending := s.pending - gone,
      channels := map w | w in s.channels ::
        (if w in closed && s.channels[w].Empty? then Closed else s.channels[w]))
  }

  /** Sending after the lock was released; a waiter that has left gets nothing. */
  function SendHeld(s: State, r: Resolver): State
    requires r in s.holding
  {
    var (w, accepted) := s.holding[r];
    s.(
      holding := s.holding - {r},
      channels := if w in s.channels && s.channels[w].Empty? then s.channels[w := Filled(accepted)] else s.channels)
  }

  function WakeUp(s: State, w: Waiter): State
    requires w in s.waiters && s.waiters[w].Waiting? && w in s.channels && !s.channels[w].Empty?
  {
    s.(
      channels := s.channels - {w},
      waiters := s.waiters[w := Returned(s.waiters[w].call, s.waiters[w].run,
        if s.channels[w].Filled? then Some(s.channels[w].accepted) else None)])
  }

  predicate Enabled(s: State, step: Step) {
    match step
    case Decide(w, _, _) => w !in s.waiters
    case CancelDecide(w) => w in s.waiters && s.waiters[w].Waiting?
    case Wake(w) => w in s.waiters && s.waiters[w].Waiting? && w in s.channels && !s.channels[w].Empty?
    case Resolve(r, _, _, _) => r !in s.resolvers
    case Send(r) => r in s.holding
    case ClearRun(_) => true
  }

  function Next(s: State, step: Step): State
    requires Enabled(s, step)
  {
    match step
    case Decide(w, call, run) => DecideLocked(s, w, call, run)
    case CancelDecide(w) => CancelLocked(s, w)
    case Wake(w) => WakeUp(s, w)
    case Resolve(r, call, run, decision) => ResolveLocked(s, r, call, run, decision)
    case Send(r) => SendHeld(s, r)
    case ClearRun(run) => ClearRunLocked(s, run)
  }

  ghost predicate EnabledRun(s: State, steps: seq<Step>)
    decreases |steps|
  {
    steps == [] || (Enabled(s, steps[0]) && EnabledRun(Next(s, steps[0]), steps[1..]))
  }

  ghost function Run(s: State, steps: seq<Step>): State
    requires EnabledRun(s, steps)
    decreases |steps|
  {
    if steps == [] then s else Run(Next(s, steps[0]), steps[1..])
  }

  // --------------------------------------------------------------- no lost wake-up

  /** A blocked waiter's channel has been answered or closed, or its sender is on its way. */
  ghost predicate Reachable(s: State, w: Waiter, call: CallId, run: RunId) {
    && w in s.channels
    && (s.channels[w].Empty? ==>
          || (call in s.pending && s.pending[call] == Entry(run, w))
          || (exists r :: r in s.holding && s.holding[r].0 == w))
  }

  ghost predicate NoLostWakeUp(s: State) {
    && s.pending.Keys !! s.queued.Keys
    && (forall w | w in s.waiters && s.waiters[w].Waiting? :: Reachable(s, w, s.waiters[w].call, s.waiters[w].run))
    && Tidy(s)
  }

  /** Channels belong to blocked waiters; entries and held senders to waiters that have begun. */
  ghost predicate Tidy(s: State) {
    && s.holding.Keys <= s.resolvers
    && (forall w | w in s.channels :: w in s.waiters && s.waiters[w].Waiting?)
    && (forall call | call in s.pending :: s.pending[call].waiter in s.waiters)
    && (forall r | r in s.holding :: s.holding[r].0 in s.waiters)
  }

  lemma DecideKeepsTidy(s: State, w: Waiter, call: CallId, run: RunId)
    requires Tidy(s) && w !in s.waiters
    ensures Tidy(DecideLocked(s, w, call, run))
  {
  }

  lemma CancelKeepsTidy(s: State, w: Waiter)
    requires Tidy(s) && w in s.waiters && s.waiters[w].Waiting?
    ensures Tidy(CancelLocked(s, w))
  {
  }

  lemma WakeKeepsTidy(s: State, w: Waiter)
    requires Tidy(s) && Enabled(s, Wake(w))
    ensures Tidy(WakeUp(s, w))
  {
  }

  lemma SendKeepsTidy(s: State, r: Resolver)
    requires Tidy(s) && r in s.holding
    ensures Tidy(SendHeld(s, r))
  {
  }

  lemma ClearKeepsTidy(s: State, run: RunId)
    requires Tidy(s)
    ensures Tidy(ClearRunLocked(s, run))
  {
  }

  lemma ResolveKeepsTidy(s: State, r: Resolver, call: CallId, run: RunId, decision: Decision)
    requires Tidy(s)
    ensures Tidy(ResolveLocked(s, r, call, run, decision))
  {
  }

  /** Enough to stay reachable: nothing that made the waiter reachable went, or its channel closed. */
  lemma StaysReachable(s: State, t: State, w: Waiter, call: CallId, run: RunId)
    requires Reachable(s, w, call, run) && w in t.channels
    requires t.channels[w].Empty? ==>
      && s.channels[w].Empty?
      && (call in s.pending && s.pending[call] == Entry(run, w) ==>
            (call in t.pending && t.pending[call] == Entry(run, w))
            || (exists r :: r in t.holding && t.holding[r].0 == w))
      && (forall r | r in s.holding && s.holding[r].0 == w :: r in t.holding && t.holding[r] == s.holding[r])
    ensures Reachable(t, w, call, run)
  {
  }

  lemma DecideKeepsWakeUps(s: State, w: Waiter, call: CallId, run: RunId)
    requires NoLostWakeUp(s) && w !in s.waiters
    ensures NoLostWakeUp(DecideLocked(s, w, call, run))
  {
    hide Reachable, Tidy;
    DecideKeepsTidy(s, w, call, run);
    var t := DecideLocked(s, w, call, run);
    ChannelsAfterDecide(s, w, call, run);
    forall v | v in t.waiters && t.waiters[v].Waiting?
      ensures Reachable(t, v, t.waiters[v].call, t.waiters[v].run)
    {
      if v == w { AskedIsReachable(t, w, call, run); }
      else {
        ReachableHasChannel(s, v, s.waiters[v].call, s.waiters[v].run);
        StaysReachable(s, t, v, s.waiters[v].call, s.waiters[v].run);
      }
    }
  }

  lemma ChannelsAfterDecide(s: State, w: Waiter, call: CallId, run: RunId)
    requires Tidy(s) && w !in s.waiters
    ensures var t := DecideLocked(s, w, call, run);
      && s.channels.Keys <= t.channels.Keys
      && (forall v | v in s.channels && t.channels[v].Empty? ::
            s.channels[v].Empty? && (call in s.pending && call !in s.queued ==> s.pending[call].waiter != v))
      && (forall r | r in s.holding :: s.holding[r].0 != w)
  {
  }

  lemma AskedIsReachable(t: State, w: Waiter, call: CallId, run: RunId)
    requires w in t.channels && call in t.pending && t.pending[call] == Entry(run, w)
    ensures Reachable(t, w, call, run)
  {
  }

  lemma ReachableHasChannel(s: State, w: Waiter, call: CallId, run: RunId)
    requires Reachable(s, w, call, run)
    ensures w in s.channels
  {
  }

  lemma CancelKeepsWakeUps(s: State, w: Waiter)
    requires NoLostWakeUp(s) && w in s.waiters && s.waiters[w].Waiting?
    ensures NoLostWakeUp(CancelLocked(s, w))
  {
    hide Reachable;
    var t := CancelLocked(s, w);
    forall v | v in t.waiters && t.waiters[v].Waiting?
      ensures Reachable(t, v, t.waiters[v].call, t.waiters[v].run)
    {
      ReachableHasChannel(s, v, s.waiters[v].call, s.waiters[v].run);
      StaysReachable(s, t, v, s.waiters[v].call, s.waiters[v].run);
    }
  }

  lemma WakeKeepsWakeUps(s: State, w: Waiter)
    requires NoLostWakeUp(s) && Enabled(s, Wake(w))
    ensures NoLostWakeUp(WakeUp(s, w))
  {
    hide Reachable;
    var t := WakeUp(s, w);
    forall v | v in t.waiters && t.waiters[v].Waiting?
      ensures Reachable(t, v, t.waiters[v].call, t.waiters[v].run)
    {
      ReachableHasChannel(s, v, s.waiters[v].call, s.waiters[v].run);
      StaysReachable(s, t, v, s.waiters[v].call, s.waiters[v].run);
    }
  }

  lemma OthersHold(s: State, r: Resolver)
    requires Tidy(s) && r !in s.resolvers
    ensures r !in s.holding
  {
  }

  lemma ResolveKeepsWakeUps(s: State, r: Resolver, call: CallId, run: RunId, decision: Decision)
    requires NoLostWakeUp(s) && r !in s.resolvers
    ensures NoLostWakeUp(ResolveLocked(s, r, call, run, decision))
  {
    hide Reachable, Tidy;
    ResolveKeepsTidy(s, r, call, run, decision);
    OthersHold(s, r);
    var t := ResolveLocked(s, r, call, run, decision);
    forall v | v in t.waiters && t.waiters[v].Waiting?
      ensures Reachable(t, v, t.waiters[v].call, t.waiters[v].run)
    {
      ReachableHasChannel(s, v, s.waiters[v].call, s.waiters[v].run);
      if call in s.pending && s.pending[call].run == run && s.pending[call].waiter == v {
        assert r in t.holding && t.holding[r].0 == v;
      }
      StaysReachable(s, t, v, s.waiters[v].call, s.waiters[v].run);
    }
  }

  lemma SendKeepsWakeUps(s: State, r: Resolver)
    requires NoLostWakeUp(s) && r in s.holding
    ensures NoLostWakeUp(SendHeld(s, r))
  {
    hide Reachable;
    var t := SendHeld(s, r);
    forall v | v in t.waiters && t.waiters[v].Waiting?
      ensures Reachable(t, v, t.waiters[v].call, t.waiters[v].run)
    {
      ReachableHasChannel(s, v, s.waiters[v].call, s.waiters[v].run);
      StaysReachable(s, t, v, s.waiters[v].call, s.waiters[v].run);
    }
  }

  lemma ClearKeepsWakeUps(s: State, run: RunId)
    requires NoLostWakeUp(s)
    ensures NoLostWakeUp(ClearRunLocked(s, run))
  {
    hide Reachable;
    var t := ClearRunLocked(s, run);
    forall v | v in t.waiters && t.waiters[v].Waiting?
      ensures Reachable(t, v, t.waiters[v].call, t.waiters[v].run)
    {
      var call := s.waiters[v].call;
      ReachableHasChannel(s, v, call, s.waiters[v].run);
      ClearedIsClosed(s, run, call);
      StaysReachable(s, t, v, call, s.waiters[v].run);
    }
  }

  lemma ClearedIsClosed(s: State, run: RunId, call: CallId)
    ensures var t := ClearRunLocked(s, run);
      && t.channels.Keys == s.channels.Keys
      && (call in s.pending && call !in t.pending && s.pending[call].waiter in s.channels ==>
            !t.channels[s.pending[call].waiter].Empty?)
  {
  }

  lemma StepKeepsWakeUps(s: State, step: Step)
    requires NoLostWakeUp(s) && Enabled(s, step)
    ensures NoLostWakeUp(Next(s, step))
  {
    hide NoLostWakeUp, DecideLocked, CancelLocked, WakeUp, ResolveLocked, SendHeld, ClearRunLocked;
    match step
    case Decide(w, call, run) => DecideKeepsWakeUps(s, w, call, run);
    case CancelDecide(w) => CancelKeepsWakeUps(s, w);
    case Wake(w) => WakeKeepsWakeUps(s, w);
    case Resolve(r, call, run, decision) => ResolveKeepsWakeUps(s, r, call, run, decision);
    case Send(r) => SendKeepsWakeUps(s, r);
    case ClearRun(run) => ClearKeepsWakeUps(s, run);
  }

  /**
   * Over every run of any number of threads: `pending` and `queued` share no key,
   * and no waiter is blocked without its sender being in reach.
   */
  lemma {:induction false} NeverLostWakeUp(s: State, steps: seq<Step>)
    requires NoLostWakeUp(s) && EnabledRun(s, steps)
    ensures NoLostWakeUp(Run(s, steps))
    decreases |steps|
  {
    if steps != [] {
      StepKeepsWakeUps(s, steps[0]);
      NeverLostWakeUp(Next(s, steps[0]), steps[1..]);
    }
  }

  /** A blocked waiter whose sender nobody holds is woken by the next `resolve` for its call and run. */
  lemma NextResolveWakes(s: State, w: Waiter, r: Resolver, decision: Decision)
    requires NoLostWakeUp(s) && w in s.waiters && s.waiters[w].Waiting? && s.channels[w].Empty?
    requires r !in s.resolvers && forall h | h in s.holding :: s.holding[h].0 != w
    ensures var p := s.waiters[w];
      var steps := [Resolve(r, p.call, p.run, decision), Send(r), Wake(w)];
      && EnabledRun(s, steps)
      && w in Run(s, steps).waiters
      && Run(s, steps).waiters[w] == Returned(p.call, p.run, Some(Accepted(r, p.call, p.run, decision, true)))
  {
    var p := s.waiters[w];
    assert Reachable(s, w, p.call, p.run);
    var a := Resolve(r, p.call, p.run, decision);
    var steps := [a, Send(r), Wake(w)];
    var s1 := Next(s, a);
    assert s1.holding[r] == (w, Accepted(r, p.call, p.run, decision, true));
    var s2 := Next(s1, Send(r));
    var s3 := Next(s2, Wake(w));
    assert steps[1..] == [Send(r), Wake(w)] && steps[1..][1..] == [Wake(w)] && steps[1..][1..][1..] == [];
    assert EnabledRun(s3, []) && Run(s3, []) == s3;
    assert EnabledRun(s2, [Wake(w)]) && Run(s2, [Wake(w)]) == s3;
    assert EnabledRun(s1, [Send(r), Wake(w)]) && Run(s1, [Send(r), Wake(w)]) == s3;
  }

  /** A blocked waiter whose sender a resolver holds can wake as soon as that resolver sends. */
  lemma HeldSendWakes(s: State, r: Resolver)
    requires NoLostWakeUp(s) && r in s.holding
    requires s.holding[r].0 in s.waiters && s.waiters[s.holding[r].0].Waiting?
    ensures Enabled(SendHeld(s, r), Wake(s.holding[r].0))
  {
    var w := s.holding[r].0;
    assert Reachable(s, w, s.waiters[w].call, s.waiters[w].run);
  }

  // ----------------------------------------------------- each decision is used once

  /** The acceptance that a waiter has been given, received or not. */
  function AnswerOf(s: State, w: Waiter): Option<Accepted> {
    if w in s.channels && s.channels[w].Filled? then Some(s.channels[w].accepted)
    else if w in s.waiters && s.waiters[w].Returned? then s.waiters[w].answer
    else None
  }

  function Answers(s: State): map<Waiter, Accepted> {
    map w | w in s.waiters && AnswerOf(s, w).Some? :: AnswerOf(s, w).value
  }

  /** `a` was accepted for call `call`, and, if for a live waiter, for run `run`. */
  ghost predicate Recorded(log: map<Resolver, Accepted>, a: Accepted, call: CallId, run: RunId) {
    a.resolver in log && log[a.resolver] == a && a.call == call && (a.live ==> a.run == run)
  }

  ghost predicate Recording(log: map<Resolver, Accepted>, queued: map<CallId, Accepted>) {
    forall call | call in queued :: Recorded(log, queued[call], call, queued[call].run) && !queued[call].live
  }

  /** What waiters are given, or are about to be given, was accepted for their own call. */
  ghost predicate GivenOwn(log: map<Resolver, Accepted>, waiters: map<Waiter, Phase>,
                           holding: map<Resolver, (Waiter, Accepted)>, answers: map<Waiter, Accepted>)
  {
    && (forall r | r in holding :: holding[r].1.resolver == r && holding[r].0 in waiters
          && Recorded(log, holding[r].1, waiters[holding[r].0].call, waiters[holding[r].0].run)
          && holding[r].1.live)
    && (forall w | w in answers :: w in waiters && Recorded(log, answers[w], waiters[w].call, waiters[w].run))
  }

  ghost predicate PendingOwn(pending: map<CallId, Entry>, waiters: map<Waiter, Phase>) {
    forall call | call in pending ::
      var e := pending[call];
      e.waiter in waiters && waiters[e.waiter].call == call && waiters[e.waiter].run == e.run
  }

  ghost predicate Genuine(s: State) {
    && s.log.Keys <= s.resolvers
    && Recording(s.log, s.queued)
    && GivenOwn(s.log, s.waiters, s.holding, Answers(s))
    && PendingOwn(s.pending, s.waiters)
    && Tidy(s)
  }

  /** No acceptance is in two places: queued, on its way, or given to a waiter. */
  ghost predicate Apart(queued: map<CallId, Accepted>, holding: map<Resolver, (Waiter, Accepted)>,
                        answers: map<Waiter, Accepted>)
  {
    && (forall c, d | c in queued && d in queued && queued[c].resolver == queued[d].resolver :: c == d)
    && (forall v, w | v in answers && w in answers && answers[v].resolver == answers[w].resolver :: v == w)
    && (forall c | c in queued :: queued[c].resolver !in holding)
    && (forall w | w in answers :: answers[w].resolver !in holding)
    && (forall c, w | c in queued && w in answers :: queued[c].resolver != answers[w].resolver)
  }

  ghost predicate UsedOnce(s: State) {
    Apart(s.queued, s.holding, Answers(s))
  }

  lemma DropKeepsAnswers(channels: map<Waiter, Channel>, w: Waiter)
    ensures var dropped := DropSender(channels, w);
      && dropped.Keys == channels.Keys
      && (forall v | v in channels :: dropped[v] == channels[v] || !(dropped[v].Filled? || channels[v].Filled?))
  {
  }

  lemma AnswerAfterDecide(s: State, w: Waiter, call: CallId, run: RunId, v: Waiter)
    requires Tidy(s) && w !in s.waiters
    ensures AnswerOf(DecideLocked(s, w, call, run), v) ==
      if v == w && call in s.queued then Some(s.queued[call])
      else if v == w then None else AnswerOf(s, v)
  {
    if call in s.pending { DropKeepsAnswers(s.channels, s.pending[call].waiter); }
    hide DropSender;
  }

  /** One step moves at most one acceptance: in, from queue to waiter, from hand to waiter, or away. */
  lemma AnswersAfterDecide(s: State, w: Waiter, call: CallId, run: RunId)
    requires Tidy(s) && w !in s.waiters
    ensures Answers(DecideLocked(s, w, call, run)) ==
      if call in s.queued then Answers(s)[w := s.queued[call]] else Answers(s)
  {
    hide AnswerOf, Tidy;
    forall v { AnswerAfterDecide(s, w, call, run, v); }
    assert DecideLocked(s, w, call, run).waiters.Keys == s.waiters.Keys + {w};
  }

  lemma AnswersAfterCancel(s: State, w: Waiter)
    requires Tidy(s) && w in s.waiters && s.waiters[w].Waiting?
    ensures Answers(CancelLocked(s, w)) == Answers(s) - {w}
  {
    var t := CancelLocked(s, w);
    forall v | v != w ensures AnswerOf(t, v) == AnswerOf(s, v) {}
  }

  lemma AnswersAfterWake(s: State, w: Waiter)
    requires Tidy(s) && Enabled(s, Wake(w))
    ensures Answers(WakeUp(s, w)) == Answers(s)
  {
    var t := WakeUp(s, w);
    forall v ensures AnswerOf(t, v) == AnswerOf(s, v) {}
  }

  lemma AnswersAfterResolve(s: State, r: Resolver, call: CallId, run: RunId, decision: Decision)
    ensures Answers(ResolveLocked(s, r, call, run, decision)) == Answers(s)
  {
    var t := ResolveLocked(s, r, call, run, decision);
    forall v ensures AnswerOf(t, v) == AnswerOf(s, v) {}
  }

  lemma AnswersAfterSend(s: State, r: Resolver)
    requires Tidy(s) && r in s.holding
    ensures var (w, a) := s.holding[r];
      Answers(SendHeld(s, r)) ==
        if w in s.channels && s.channels[w].Empty? then Answers(s)[w := a] else Answers(s)
  {
    var t := SendHeld(s, r);
    var w := s.holding[r].0;
    forall v | v != w ensures AnswerOf(t, v) == AnswerOf(s, v) {}
  }

  lemma AnswersAfterClear(s: State, run: RunId)
    ensures Answers(ClearRunLocked(s, run)) == Answers(s)
  {
    var t := ClearRunLocked(s, run);
    forall v ensures AnswerOf(t, v) == AnswerOf(s, v) {}
  }

  lemma TakeQueuedKeepsApart(q: map<CallId, Accepted>, h: map<Resolver, (Waiter, Accepted)>,
                              a: map<Waiter, Accepted>, w: Waiter, call: CallId)
    requires Apart(q, h, a) && w !in a && call in q
    ensures Apart(q - {call}, h, a[w := q[call]])
  {
  }

  lemma DecideKeepsApart(s: State, w: Waiter, call: CallId, run: RunId)
    requires UsedOnce(s) && Tidy(s) && w !in s.waiters
    ensures UsedOnce(DecideLocked(s, w, call, run))
  {
    hide Answers, Tidy, Apart;
    AnswersAfterDecide(s, w, call, run);
    NoAnswerYet(s, w);
    if call in s.queued {
      TakeQueuedKeepsApart(s.queued, s.holding, Answers(s), w, call);
    }
  }

  lemma NoAnswerYet(s: State, w: Waiter)
    requires w !in s.waiters
    ensures w !in Answers(s)
  {
  }

  /** An acceptance that is not on record is in no place. */
  lemma UnrecordedIsNowhere(s: State, r: Resolver)
    requires Genuine(s) && r !in s.resolvers
    ensures r !in s.holding && r !in s.log
    ensures forall c | c in s.queued :: s.queued[c].resolver != r
    ensures forall w | w in Answers(s) :: Answers(s)[w].resolver != r
  {
    hide Answers;
    forall c | c in s.queued ensures s.queued[c].resolver != r {
      assert Recorded(s.log, s.queued[c], c, s.queued[c].run);
    }
  }

  lemma NewKeepsApart(q: map<CallId, Accepted>, h: map<Resolver, (Waiter, Accepted)>,
                      a: map<Waiter, Accepted>, call: CallId, x: Accepted, w: Waiter)
    requires Apart(q, h, a) && x.resolver !in h
    requires forall c | c in q :: q[c].resolver != x.resolver
    requires forall v | v in a :: a[v].resolver != x.resolver
    ensures Apart(q[call := x], h, a) && Apart(q, h[x.resolver := (w, x)], a)
  {
  }

  lemma ResolveKeepsApart(s: State, r: Resolver, call: CallId, run: RunId, decision: Decision)
    requires Genuine(s) && UsedOnce(s) && r !in s.resolvers
    ensures UsedOnce(ResolveLocked(s, r, call, run, decision))
  {
    hide Answers, Genuine, Apart;
    AnswersAfterResolve(s, r, call, run, decision);
    UnrecordedIsNowhere(s, r);
    NewKeepsApart(s.queued, s.holding, Answers(s), call,
      Accepted(r, call, run, decision, call in s.pending), if call in s.pending then s.pending[call].waiter else 0);
  }

  lemma ResolveKeepsGenuine(s: State, r: Resolver, call: CallId, run: RunId, decision: Decision)
    requires Genuine(s) && r !in s.resolvers
    ensures Genuine(ResolveLocked(s, r, call, run, decision))
  {
    UnrecordedIsNowhere(s, r);
    hide Answers, Tidy;
    AnswersAfterResolve(s, r, call, run, decision);
    ResolveKeepsTidy(s, r, call, run, decision);
    var t := ResolveLocked(s, r, call, run, decision);
    var accepted := Accepted(r, call, run, decision, call in s.pending);
    RecordingGrows(s.log, s.queued, r, accepted, call);
    GivenGrows(s.log, s.waiters, s.holding, Answers(s), r, accepted);
  }

  lemma RecordingGrows(log: map<Resolver, Accepted>, q: map<CallId, Accepted>, r: Resolver, a: Accepted, call: CallId)
    requires Recording(log, q) && r !in log && a.resolver == r && a.call == call
    ensures Recording(log[r := a], q) && (!a.live ==> Recording(log[r := a], q[call := a]))
  {
  }

  lemma GivenGrows(log: map<Resolver, Accepted>, waiters: map<Waiter, Phase>,
                   h: map<Resolver, (Waiter, Accepted)>, answers: map<Waiter, Accepted>, r: Resolver, a: Accepted)
    requires GivenOwn(log, waiters, h, answers) && r !in log && a.resolver == r
    ensures GivenOwn(log[r := a], waiters, h, answers)
    ensures forall w | w in waiters && waiters[w].call == a.call && waiters[w].run == a.run && a.live ::
      GivenOwn(log[r := a], waiters, h[r := (w, a)], answers)
  {
  }

  lemma DecideKeepsGenuine(s: State, w: Waiter, call: CallId, run: RunId)
    requires Genuine(s) && w !in s.waiters
    ensures Genuine(DecideLocked(s, w, call, run))
  {
    hide Answers, Tidy, Recorded;
    AnswersAfterDecide(s, w, call, run);
    DecideKeepsTidy(s, w, call, run);
    NoAnswerYet(s, w);
    var t := DecideLocked(s, w, call, run);
    if call in s.queued {
      WaiterJoins(s.log, s.waiters, s.holding, Answers(s), w, t.waiters[w]);
      QueuedIsOwn(s.log, s.queued, call, run);
      assert GivenOwn(t.log, t.waiters, t.holding, Answers(t));
    } else {
      WaiterJoins(s.log, s.waiters, s.holding, Answers(s), w, t.waiters[w]);
    }
    hide GivenOwn, DropSender;
  }

  lemma WaiterJoins(log: map<Resolver, Accepted>, waiters: map<Waiter, Phase>,
                    h: map<Resolver, (Waiter, Accepted)>, answers: map<Waiter, Accepted>, w: Waiter, p: Phase)
    requires GivenOwn(log, waiters, h, answers) && w !in waiters
    ensures GivenOwn(log, waiters[w := p], h, answers)
  {
    hide Recorded;
  }

  lemma QueuedIsOwn(log: map<Resolver, Accepted>, queued: map<CallId, Accepted>, call: CallId, run: RunId)
    requires Recording(log, queued) && call in queued
    ensures Recorded(log, queued[call], call, run)
  {
    assert Recorded(log, queued[call], call, queued[call].run);
  }

  lemma DecideKeepsUse(s: State, w: Waiter, call: CallId, run: RunId)
    requires Genuine(s) && UsedOnce(s) && w !in s.waiters
    ensures Genuine(DecideLocked(s, w, call, run)) && UsedOnce(DecideLocked(s, w, call, run))
  {
    DecideKeepsApart(s, w, call, run);
    DecideKeepsGenuine(s, w, call, run);
  }

  lemma CancelKeepsUse(s: State, w: Waiter)
    requires Genuine(s) && UsedOnce(s) && w in s.waiters && s.waiters[w].Waiting?
    ensures Genuine(CancelLocked(s, w)) && UsedOnce(CancelLocked(s, w))
  {
    hide Answers, Tidy;
    AnswersAfterCancel(s, w);
    CancelKeepsTidy(s, w);
  }

  lemma WakeKeepsUse(s: State, w: Waiter)
    requires Genuine(s) && UsedOnce(s) && Enabled(s, Wake(w))
    ensures Genuine(WakeUp(s, w)) && UsedOnce(WakeUp(s, w))
  {
    hide Answers, Tidy;
    AnswersAfterWake(s, w);
    WakeKeepsTidy(s, w);
  }

  lemma ResolveKeepsUse(s: State, r: Resolver, call: CallId, run: RunId, decision: Decision)
    requires Genuine(s) && UsedOnce(s) && r !in s.resolvers
    ensures Genuine(ResolveLocked(s, r, call, run, decision)) && UsedOnce(ResolveLocked(s, r, call, run, decision))
  {
    ResolveKeepsApart(s, r, call, run, decision);
    ResolveKeepsGenuine(s, r, call, run, decision);
  }

  lemma SendKeepsUse(s: State, r: Resolver)
    requires Genuine(s) && UsedOnce(s) && r in s.holding
    ensures Genuine(SendHeld(s, r)) && UsedOnce(SendHeld(s, r))
  {
    hide Answers, Tidy;
    AnswersAfterSend(s, r);
    SendKeepsTidy(s, r);
  }

  lemma ClearKeepsUse(s: State, run: RunId)
    requires Genuine(s) && UsedOnce(s)
    ensures Genuine(ClearRunLocked(s, run)) && UsedOnce(ClearRunLocked(s, run))
  {
    hide Answers, Tidy;
    AnswersAfterClear(s, run);
    ClearKeepsTidy(s, run);
  }

  lemma StepKeepsUse(s: State, step: Step)
    requires Genuine(s) && UsedOnce(s) && Enabled(s, step)
    ensures Genuine(Next(s, step)) && UsedOnce(Next(s, step))
  {
    hide Genuine, UsedOnce, DecideLocked, CancelLocked, WakeUp, ResolveLocked, SendHeld, ClearRunLocked;
    match step
    case Decide(w, call, run) => DecideKeepsUse(s, w, call, run);
    case CancelDecide(w) => CancelKeepsUse(s, w);
    case Wake(w) => WakeKeepsUse(s, w);
    case Resolve(r, call, run, decision) => ResolveKeepsUse(s, r, call, run, decision);
    case Send(r) => SendKeepsUse(s, r);
    case ClearRun(run) => ClearKeepsUse(s, run);
  }

  lemma {:induction false} AlwaysUsedOnce(s: State, steps: seq<Step>)
    requires Genuine(s) && UsedOnce(s) && EnabledRun(s, steps)
    ensures Genuine(Run(s, steps)) && UsedOnce(Run(s, steps))
    decreases |steps|
  {
    hide Genuine, UsedOnce, Next;
    if steps != [] {
      StepKeepsUse(s, steps[0]);
      AlwaysUsedOnce(Next(s, steps[0]), steps[1..]);
    }
  }

  lemma SameAnswerSameWaiter(t: State, v: Waiter, w: Waiter)
    requires Tidy(t) && UsedOnce(t) && v in t.waiters && w in t.waiters
    requires t.waiters[v].Returned? && t.waiters[w].Returned?
    requires t.waiters[v].answer == t.waiters[w].answer && t.waiters[v].answer.Some?
    ensures v == w
  {
    assert v !in t.channels && AnswerOf(t, v) == t.waiters[v].answer;
    assert w !in t.channels && AnswerOf(t, w) == t.waiters[w].answer;
    assert v in Answers(t) && w in Answers(t) && Answers(t)[v].resolver == Answers(t)[w].resolver;
  }

  /**
   * Over every run from the start: a `decide` that returns a decision returns one
   * that some `resolve` brought for that very call - and for its own run, if it was
   * brought to a waiter - and no two return the same one.
   */
  lemma DecisionsAreGenuineAndUsedOnce(steps: seq<Step>, v: Waiter, w: Waiter)
    requires EnabledRun(INITIAL, steps)
    requires v in Run(INITIAL, steps).waiters
    requires var p := Run(INITIAL, steps).waiters; p[v].Returned? && p[v].answer.Some?
    ensures var t := Run(INITIAL, steps);
      && t.waiters[v].answer.value.call == t.waiters[v].call
      && (t.waiters[v].answer.value.live ==> t.waiters[v].answer.value.run == t.waiters[v].run)
      && t.waiters[v].answer.value in t.log.Values
      && (w in t.waiters && w != v && t.waiters[w].Returned? ==> t.waiters[w].answer != t.waiters[v].answer)
  {
    assert Answers(INITIAL) == map[];
    AlwaysUsedOnce(INITIAL, steps);
    var t := Run(INITIAL, steps);
    assert v !in t.channels && AnswerOf(t, v) == t.waiters[v].answer;
    assert v in Answers(t) && Recorded(t.log, Answers(t)[v], t.waiters[v].call, t.waiters[v].run);
    if w in t.waiters && t.waiters[w].Returned? && t.waiters[w].answer == t.waiters[v].answer {
      SameAnswerSameWaiter(t, v, w);
    }
  }

  /** The waiter was given a decision that was brought for another run. */
  ghost predicate Foreign(s: State, w: Waiter) {
    w in Answers(s) && w in s.waiters && Answers(s)[w].run != s.waiters[w].run
  }

  /** That happens exactly when a `decide` finds a decision queued under its call for another run. */
  lemma ForeignIff(s: State, step: Step, w: Waiter)
    requires Genuine(s) && Enabled(s, step)
    ensures Foreign(Next(s, step), w) <==>
      || (Foreign(s, w) && step != CancelDecide(w))
      || (step.Decide? && step.waiter == w && step.call in s.queued && s.queued[step.call].run != step.run)
  {
    match step
    case Decide(v, call, run) => AnswersAfterDecide(s, v, call, run); NoAnswerYet(s, v);
    case CancelDecide(v) => AnswersAfterCancel(s, v);
    case Wake(v) => AnswersAfterWake(s, v);
    case Resolve(r, call, run, decision) => AnswersAfterResolve(s, r, call, run, decision);
    case Send(r) => AnswersAfterSend(s, r); HeldIsOwn(s, r);
    case ClearRun(run) => AnswersAfterClear(s, run);
    hide Answers, Genuine, DropSender;
  }

  /** Along the run, the waiter's `decide` finds a decision queued under its call for another run. */
  ghost predicate FoundForeign(s: State, steps: seq<Step>, w: Waiter)
    requires EnabledRun(s, steps)
    decreases |steps|
  {
    steps != [] &&
    (var step := steps[0];
     || (step.Decide? && step.waiter == w && step.call in s.queued && s.queued[step.call].run != step.run)
     || FoundForeign(Next(s, step), steps[1..], w))
  }

  /** A foreign decision is taken on the spot, so its waiter is past cancelling. */
  ghost predicate ForeignTaken(s: State, w: Waiter) {
    Foreign(s, w) ==> s.waiters[w].Returned?
  }

  lemma StepKeepsForeignTaken(s: State, step: Step, w: Waiter)
    requires Genuine(s) && Enabled(s, step) && ForeignTaken(s, w)
    ensures ForeignTaken(Next(s, step), w)
  {
    ForeignIff(s, step, w);
    if Foreign(s, w) { StepKeepsCalls(s, step, w); }
    hide Foreign, Genuine, DropSender;
  }

  lemma {:induction false} AlwaysForeignIff(s: State, steps: seq<Step>, w: Waiter)
    requires Genuine(s) && UsedOnce(s) && ForeignTaken(s, w) && EnabledRun(s, steps)
    ensures Foreign(Run(s, steps), w) <==> Foreign(s, w) || FoundForeign(s, steps, w)
    decreases |steps|
  {
    if steps != [] {
      assert Foreign(s, w) ==> steps[0] != CancelDecide(w);
      ForeignIff(s, steps[0], w);
      StepKeepsForeignTaken(s, steps[0], w);
      StepKeepsUse(s, steps[0]);
      hide Genuine, UsedOnce, Foreign, ForeignTaken, Next, Enabled;
      AlwaysForeignIff(Next(s, steps[0]), steps[1..], w);
    }
  }

  /**
   * Over every run from the start: a returned decision was brought for another run
   * exactly if the waiter's `decide` found it queued.
   */
  lemma ForeignOnlyFromQueue(steps: seq<Step>, w: Waiter)
    requires EnabledRun(INITIAL, steps) && w in Run(INITIAL, steps).waiters
    requires var p := Run(INITIAL, steps).waiters[w]; p.Returned? && p.answer.Some?
    ensures var p := Run(INITIAL, steps).waiters[w]; p.answer.value.run != p.run <==> FoundForeign(INITIAL, steps, w)
  {
    assert Answers(INITIAL) == map[];
    AlwaysUsedOnce(INITIAL, steps);
    AlwaysForeignIff(INITIAL, steps, w);
    var t := Run(INITIAL, steps);
    assert w !in t.channels && AnswerOf(t, w) == t.waiters[w].answer;
    assert Answers(t)[w] == t.waiters[w].answer.value;
  }

  lemma HeldIsOwn(s: State, r: Resolver)
    requires Genuine(s) && r in s.holding
    ensures s.holding[r].0 in s.waiters && s.holding[r].1.run == s.waiters[s.holding[r].0].run
  {
    assert Recorded(s.log, s.holding[r].1, s.waiters[s.holding[r].0].call, s.waiters[s.holding[r].0].run);
  }

  // ------------------------------------------------- a decision that comes before its asker

  ghost predicate LeavesQueued(step: Step, call: CallId) {
    && !(step.Decide? && step.call == call)
    && !(step.Resolve? && step.call == call)
  }

  lemma StepKeepsQueued(s: State, step: Step, call: CallId)
    requires Enabled(s, step) && call in s.queued && LeavesQueued(step, call)
    ensures call in Next(s, step).queued && Next(s, step).queued[call] == s.queued[call]
  {
    hide DropSender;
  }

  lemma {:induction false} QueuedIsKept(s: State, steps: seq<Step>, call: CallId)
    requires EnabledRun(s, steps) && call in s.queued
    requires forall i | 0 <= i < |steps| :: LeavesQueued(steps[i], call)
    ensures call in Run(s, steps).queued && Run(s, steps).queued[call] == s.queued[call]
    decreases |steps|
  {
    if steps != [] {
      StepKeepsQueued(s, steps[0], call);
      hide Next;
      QueuedIsKept(Next(s, steps[0]), steps[1..], call);
    }
  }

  lemma {:induction false} RunAppend(s: State, a: seq<Step>, b: seq<Step>)
    requires EnabledRun(s, a + b)
    ensures EnabledRun(s, a) && EnabledRun(Run(s, a), b) && Run(s, a + b) == Run(Run(s, a), b)
    decreases |a|
  {
    if a == [] {
      assert a + b == b;
    } else {
      assert (a + b)[0] == a[0] && (a + b)[1..] == a[1..] + b;
      hide Next;
      RunAppend(Next(s, a[0]), a[1..], b);
    }
  }

  /**
   * A decision brought while nobody asks is kept, whatever happens to other calls,
   * until the next `decide` of its call, which returns it at once. Only a later
   * `resolve` of that call replaces it.
   */
  lemma EarlyDecisionIsReturned(
      s: State, r: Resolver, call: CallId, run: RunId, decision: Decision, between: seq<Step>, w: Waiter, asking: RunId)
    requires call !in s.pending
    requires EnabledRun(s, [Resolve(r, call, run, decision)] + between + [Decide(w, call, asking)])
    requires forall i | 0 <= i < |between| :: LeavesQueued(between[i], call)
    ensures var t := Run(s, [Resolve(r, call, run, decision)] + between + [Decide(w, call, asking)]);
      && w in t.waiters
      && t.waiters[w] == Returned(call, asking, Some(Accepted(r, call, run, decision, false)))
      && call !in t.queued
  {
    var first, last := Resolve(r, call, run, decision), Decide(w, call, asking);
    RunAppend(s, [first] + between, [last]);
    RunAppend(s, [first], between);
    var s1 := Run(s, [first]);
    OneStep(s, first);
    assert s1.queued[call] == Accepted(r, call, run, decision, false);
    hide ResolveLocked;
    QueuedIsKept(s1, between, call);
    var s2 := Run(s, [first] + between);
    OneStep(s2, last);
  }

  lemma OneStep(s: State, step: Step)
    requires EnabledRun(s, [step])
    ensures Enabled(s, step) && Run(s, [step]) == Next(s, step)
  {
    assert [step][1..] == [];
    assert Run(Next(s, step), []) == Next(s, step);
  }

  /** And such a `decide` can begin: nothing has to be waited for. */
  lemma EarlyDecisionCanBeTaken(
      s: State, r: Resolver, call: CallId, run: RunId, decision: Decision, w: Waiter, asking: RunId)
    requires r !in s.resolvers && call !in s.pending && w !in s.waiters
    ensures EnabledRun(s, [Resolve(r, call, run, decision), Decide(w, call, asking)])
  {
    var steps := [Resolve(r, call, run, decision), Decide(w, call, asking)];
    assert steps[1..] == [steps[1]] && steps[1..][1..] == [];
    var s1 := Next(s, steps[0]);
    assert EnabledRun(Next(s1, steps[1]), []);
    assert EnabledRun(s1, [steps[1]]);
  }

  // -------------------------------------------------- what Cancelled can come from

  ghost predicate Owned(s: State, call: CallId, e: Entry) {
    && e.waiter in s.waiters && s.waiters[e.waiter] == Waiting(call, e.run)
    && e.waiter in s.channels && s.channels[e.waiter].Empty?
  }

  /** An entry belongs to a waiter still waiting for it, whose sender nobody else holds. */
  ghost predicate OwnEntry(s: State) {
    && (forall call | call in s.pending :: Owned(s, call, s.pending[call]))
    && (forall call, r | call in s.pending && r in s.holding :: s.holding[r].0 != s.pending[call].waiter)
  }

  ghost predicate Orderly(s: State) {
    OwnEntry(s) && Tidy(s)
  }

  lemma DecideKeepsOrderly(s: State, w: Waiter, call: CallId, run: RunId)
    requires Orderly(s) && w !in s.waiters
    ensures Orderly(DecideLocked(s, w, call, run))
  {
    ChannelsAfterDecide(s, w, call, run);
    DecideKeepsTidy(s, w, call, run);
    hide Tidy;
    DecideKeepsOwnEntry(s, w, call, run);
  }

  lemma DecideKeepsOwned(s: State, w: Waiter, call: CallId, run: RunId, c: CallId)
    requires OwnEntry(s) && w !in s.waiters
    requires c in DecideLocked(s, w, call, run).pending
    ensures Owned(DecideLocked(s, w, call, run), c, DecideLocked(s, w, call, run).pending[c])
  {
    if c != call || call in s.queued {
      assert Owned(s, c, s.pending[c]);
      if call in s.pending { assert Owned(s, call, s.pending[call]); }
    }
  }

  lemma DecideKeepsOwnEntry(s: State, w: Waiter, call: CallId, run: RunId)
    requires OwnEntry(s) && w !in s.waiters && forall r | r in s.holding :: s.holding[r].0 != w
    ensures OwnEntry(DecideLocked(s, w, call, run))
  {
    var t := DecideLocked(s, w, call, run);
    hide Owned, DropSender;
    forall c | c in t.pending ensures Owned(t, c, t.pending[c]) { DecideKeepsOwned(s, w, call, run, c); }
  }

  lemma CancelKeepsOrderly(s: State, w: Waiter)
    requires Orderly(s) && w in s.waiters && s.waiters[w].Waiting?
    ensures Orderly(CancelLocked(s, w))
  {
    CancelKeepsTidy(s, w);
    hide Tidy;
  }

  lemma WakeKeepsOrderly(s: State, w: Waiter)
    requires Orderly(s) && Enabled(s, Wake(w))
    ensures Orderly(WakeUp(s, w))
  {
    WakeKeepsTidy(s, w);
    hide Tidy;
  }

  lemma ResolveKeepsOrderly(s: State, r: Resolver, call: CallId, run: RunId, decision: Decision)
    requires Orderly(s) && r !in s.resolvers
    ensures Orderly(ResolveLocked(s, r, call, run, decision))
  {
    ResolveKeepsTidy(s, r, call, run, decision);
    hide Tidy;
    if call in s.pending { EntriesAreApart(s, call); }
  }

  /** No two entries share a waiter. */
  lemma EntriesAreApart(s: State, call: CallId)
    requires OwnEntry(s) && call in s.pending
    ensures forall c | c in s.pending && c != call :: s.pending[c].waiter != s.pending[call].waiter
  {
  }

  lemma SendKeepsOrderly(s: State, r: Resolver)
    requires Orderly(s) && r in s.holding
    ensures Orderly(SendHeld(s, r))
  {
    SendKeepsTidy(s, r);
    hide Tidy;
  }

  lemma ClearKeepsOrderly(s: State, run: RunId)
    requires Orderly(s)
    ensures Orderly(ClearRunLocked(s, run))
  {
    ClearKeepsTidy(s, run);
    hide Tidy;
  }

  lemma StepKeepsOrderly(s: State, step: Step)
    requires Orderly(s) && Enabled(s, step)
    ensures Orderly(Next(s, step))
  {
    hide Orderly, DecideLocked, CancelLocked, WakeUp, ResolveLocked, SendHeld, ClearRunLocked;
    match step
    case Decide(w, call, run) => DecideKeepsOrderly(s, w, call, run);
    case CancelDecide(w) => CancelKeepsOrderly(s, w);
    case Wake(w) => WakeKeepsOrderly(s, w);
    case Resolve(r, call, run, decision) => ResolveKeepsOrderly(s, r, call, run, decision);
    case Send(r) => SendKeepsOrderly(s, r);
    case ClearRun(run) => ClearKeepsOrderly(s, run);
  }

  /** The waiter's sender stands in `pending`, under its own call. */
  predicate Asking(s: State, w: Waiter) {
    && w in s.waiters && s.waiters[w].Waiting?
    && s.waiters[w].call in s.pending && s.pending[s.waiters[w].call].waiter == w
  }

  /**
   * What takes a waiter's sender away unused: its run is cleared; another `decide`
   * leaves its own sender under the same call; another waiter of that call cancels.
   */
  predicate CutsOff(s: State, step: Step, w: Waiter) {
    && Asking(s, w)
    && var p := s.waiters[w];
       match step
       case ClearRun(run) => run == p.run
       case Decide(_, call, _) => call == p.call && call !in s.queued
       case CancelDecide(v) => v != w && v in s.waiters && s.waiters[v].call == p.call
       case _ => false
  }

  /** The waiter has returned without a decision, or its channel is closed and it can only return so. */
  predicate Doomed(s: State, w: Waiter) {
    && w in s.waiters
    && match s.waiters[w]
       case Returned(_, _, answer) => answer.None?
       case Waiting(_, _) => w in s.channels && s.channels[w].Closed?
  }

  lemma DecideDooms(s: State, v: Waiter, call: CallId, run: RunId, w: Waiter)
    requires Orderly(s) && v !in s.waiters
    ensures Doomed(DecideLocked(s, v, call, run), w) <==> Doomed(s, w) || CutsOff(s, Decide(v, call, run), w)
  {
  }

  lemma CancelDooms(s: State, v: Waiter, w: Waiter)
    requires Orderly(s) && v in s.waiters && s.waiters[v].Waiting?
    ensures Doomed(CancelLocked(s, v), w) <==> Doomed(s, w) || v == w || CutsOff(s, CancelDecide(v), w)
  {
  }

  lemma WakeDooms(s: State, v: Waiter, w: Waiter)
    requires Orderly(s) && Enabled(s, Wake(v))
    ensures Doomed(WakeUp(s, v), w) <==> Doomed(s, w)
  {
  }

  lemma ResolveAndSendDoomNobody(s: State, r: Resolver, call: CallId, run: RunId, decision: Decision, w: Waiter)
    ensures Doomed(ResolveLocked(s, r, call, run, decision), w) <==> Doomed(s, w)
    ensures r in s.holding ==> (Doomed(SendHeld(s, r), w) <==> Doomed(s, w))
  {
  }

  lemma ClearDooms(s: State, run: RunId, w: Waiter)
    requires Orderly(s)
    ensures Doomed(ClearRunLocked(s, run), w) <==> Doomed(s, w) || CutsOff(s, ClearRun(run), w)
  {
    if Asking(s, w) { assert Owned(s, s.waiters[w].call, s.pending[s.waiters[w].call]); }
  }

  /** One step: a waiter is left without a decision exactly by its own cancellation or by being cut off. */
  lemma DoomedIff(s: State, step: Step, w: Waiter)
    requires Orderly(s) && Enabled(s, step)
    ensures Doomed(Next(s, step), w) <==> Doomed(s, w) || step == CancelDecide(w) || CutsOff(s, step, w)
  {
    hide Orderly, Doomed, DecideLocked, CancelLocked, WakeUp, ResolveLocked, SendHeld, ClearRunLocked;
    match step
    case Decide(v, call, run) => DecideDooms(s, v, call, run, w);
    case CancelDecide(v) => CancelDooms(s, v, w);
    case Wake(v) => WakeDooms(s, v, w);
    case Resolve(r, call, run, decision) => ResolveAndSendDoomNobody(s, r, call, run, decision, w);
    case Send(r) => ResolveAndSendDoomNobody(s, r, "", "", Denied, w);
    case ClearRun(run) => ClearDooms(s, run, w);
  }

  /** Somewhere along the run the waiter is cut off. */
  ghost predicate CutOff(s: State, steps: seq<Step>, w: Waiter)
    requires EnabledRun(s, steps)
    decreases |steps|
  {
    steps != [] && (CutsOff(s, steps[0], w) || CutOff(Next(s, steps[0]), steps[1..], w))
  }

  /** The decision that the step puts into the waiter's hands. */
  function Brought(s: State, step: Step, w: Waiter): Option<Accepted> {
    match step
    case Decide(v, call, _) => if v == w && call in s.queued then Some(s.queued[call]) else None
    case Send(r) =>
      if r in s.holding && s.holding[r].0 == w && w in s.channels && s.channels[w].Empty?
      then Some(s.holding[r].1) else None
    case _ => None
  }

  lemma AnswerMoves(s: State, step: Step, w: Waiter)
    requires Tidy(s) && Enabled(s, step)
    ensures AnswerOf(Next(s, step), w) ==
      if Brought(s, step, w).Some? then Brought(s, step, w)
      else if step == CancelDecide(w) then None
      else AnswerOf(s, w)
  {
    if step.Decide? { AnswerAfterDecide(s, step.waiter, step.call, step.run, w); }
    hide DecideLocked, DropSender;
  }

  /** The answer of `decide`: Cancelled stands for a missing decision, and can be the decision. */
  predicate AnswersCancelled(p: Phase) {
    p.Returned? && (p.answer.None? || p.answer.value.decision == Cancelled)
  }

  predicate GivenCancelled(answer: Option<Accepted>) {
    answer.Some? && answer.value.decision == Cancelled
  }

  /** The waiter has answered Cancelled, or can answer nothing else. */
  predicate Fated(s: State, w: Waiter) {
    Doomed(s, w) || GivenCancelled(AnswerOf(s, w))
  }

  /**
   * One step: a waiter comes to answer Cancelled exactly by its own cancellation, by
   * being cut off, or by being brought that decision.
   */
  lemma FatedIff(s: State, step: Step, w: Waiter)
    requires Orderly(s) && Enabled(s, step)
    ensures Fated(Next(s, step), w) <==>
      || Fated(s, w) || step == CancelDecide(w) || CutsOff(s, step, w) || GivenCancelled(Brought(s, step, w))
  {
    DoomedIff(s, step, w);
    AnswerMoves(s, step, w);
    if Brought(s, step, w).Some? { BroughtToUndecided(s, step, w); }
    hide Orderly, Doomed, CutsOff, AnswerOf, Brought, Next;
  }

  /** Only a waiter without a decision is brought one. */
  lemma BroughtToUndecided(s: State, step: Step, w: Waiter)
    requires Orderly(s) && Enabled(s, step) && Brought(s, step, w).Some?
    ensures AnswerOf(s, w).None?
  {
  }

  /** Somewhere along the run the waiter is brought the decision Cancelled. */
  ghost predicate BroughtCancelled(s: State, steps: seq<Step>, w: Waiter)
    requires EnabledRun(s, steps)
    decreases |steps|
  {
    steps != [] &&
    (GivenCancelled(Brought(s, steps[0], w)) || BroughtCancelled(Next(s, steps[0]), steps[1..], w))
  }

  lemma {:induction false} AlwaysFatedIff(s: State, steps: seq<Step>, w: Waiter)
    requires Orderly(s) && EnabledRun(s, steps)
    ensures Fated(Run(s, steps), w) <==>
      || Fated(s, w) || CancelDecide(w) in steps || CutOff(s, steps, w) || BroughtCancelled(s, steps, w)
    ensures Orderly(Run(s, steps))
    decreases |steps|
  {
    if steps != [] {
      hide Orderly, Fated, CutsOff, Brought, Next, Enabled;
      assert steps == [steps[0]] + steps[1..];
      StepKeepsOrderly(s, steps[0]);
      FatedIff(s, steps[0], w);
      AlwaysFatedIff(Next(s, steps[0]), steps[1..], w);
    }
  }

  /**
   * Over every run of any number of threads, a `decide` that has returned answered
   * Cancelled exactly if it was cancelled itself, was cut off on the way, or was
   * brought that very decision.
   */
  lemma CancelledIff(steps: seq<Step>, w: Waiter)
    requires EnabledRun(INITIAL, steps) && w in Run(INITIAL, steps).waiters && Run(INITIAL, steps).waiters[w].Returned?
    ensures AnswersCancelled(Run(INITIAL, steps).waiters[w]) <==>
      || CancelDecide(w) in steps || CutOff(INITIAL, steps, w) || BroughtCancelled(INITIAL, steps, w)
  {
    AlwaysFatedIff(INITIAL, steps, w);
    ReturnedIsFatedIff(Run(INITIAL, steps), w);
    hide Run, Orderly, AnswersCancelled;
  }

  lemma ReturnedIsFatedIff(t: State, w: Waiter)
    requires Orderly(t) && w in t.waiters && t.waiters[w].Returned?
    ensures Fated(t, w) <==> AnswersCancelled(t.waiters[w])
  {
  }

  /** What is on record under a resolver is what its `resolve` came with. */
  ghost predicate CameWith(log: map<Resolver, Accepted>, r: Resolver, call: CallId, run: RunId, decision: Decision) {
    r in log ==> log[r].call == call && log[r].run == run && log[r].decision == decision
  }

  lemma StepLogs(s: State, step: Step, r: Resolver)
    requires Enabled(s, step) && s.log.Keys <= s.resolvers
    ensures var t := Next(s, step);
      && t.log.Keys <= t.resolvers && s.resolvers <= t.resolvers
      && (r in s.log ==> r in t.log && t.log[r] == s.log[r])
      && (r in s.resolvers && r !in s.log ==> r !in t.log)
      && (r in t.log && r !in s.log ==>
            var a := t.log[r]; step == Resolve(r, a.call, a.run, a.decision))
      && (step.Resolve? && step.resolver == r ==>
            r in t.resolvers && CameWith(t.log, r, step.call, step.run, step.decision))
  {
    hide DecideLocked, CancelLocked, DropSender, WakeUp, SendHeld, ClearRunLocked;
    if !step.Resolve? { StepLogsOnlyResolves(s, step); }
  }

  lemma StepLogsOnlyResolves(s: State, step: Step)
    requires Enabled(s, step) && !step.Resolve?
    ensures Next(s, step).log == s.log && Next(s, step).resolvers == s.resolvers
  {
  }

  /** Every record comes from a `resolve` of the run, and each `resolve` from one. */
  lemma {:induction false} LoggedIffResolved(s: State, steps: seq<Step>, r: Resolver)
    requires s.log.Keys <= s.resolvers && EnabledRun(s, steps)
    ensures var t := Run(s, steps);
      && (r in s.log ==> r in t.log && t.log[r] == s.log[r])
      && (r in s.resolvers && r !in s.log ==> r !in t.log)
      && (r in t.log && r !in s.log ==>
            var a := t.log[r]; Resolve(r, a.call, a.run, a.decision) in steps)
    decreases |steps|
  {
    if steps != [] {
      assert steps == [steps[0]] + steps[1..];
      StepLogs(s, steps[0], r);
      hide Next, Enabled;
      LoggedIffResolved(Next(s, steps[0]), steps[1..], r);
    }
  }

  /** A resolver begins once: what it came with is what is on record. */
  lemma {:induction false} ResolvedOnce(
      s: State, steps: seq<Step>, r: Resolver, call: CallId, run: RunId, decision: Decision)
    requires s.log.Keys <= s.resolvers && EnabledRun(s, steps) && Resolve(r, call, run, decision) in steps
    ensures r !in s.resolvers && CameWith(Run(s, steps).log, r, call, run, decision)
    decreases |steps|
  {
    StepLogs(s, steps[0], r);
    if steps[0] == Resolve(r, call, run, decision) {
      LoggedIffResolved(Next(s, steps[0]), steps[1..], r);
    } else {
      assert steps == [steps[0]] + steps[1..];
      hide Next;
      ResolvedOnce(Next(s, steps[0]), steps[1..], r, call, run, decision);
    }
  }

  /** And the decision it was brought, if it was, is one with which a `resolve` of the run came for its call. */
  lemma CancelledIffResolved(steps: seq<Step>, w: Waiter)
    requires EnabledRun(INITIAL, steps) && w in Run(INITIAL, steps).waiters && Run(INITIAL, steps).waiters[w].Returned?
    ensures var p := Run(INITIAL, steps).waiters[w];
      AnswersCancelled(p) <==>
        || CancelDecide(w) in steps || CutOff(INITIAL, steps, w)
        || (p.answer.Some? && Resolve(p.answer.value.resolver, p.call, p.answer.value.run, Cancelled) in steps)
  {
    var p := Run(INITIAL, steps).waiters[w];
    AlwaysDoomedIff(INITIAL, steps, w);
    if p.answer.Some? {
      var a := p.answer.value;
      AnswerWasResolved(steps, w);
      if Resolve(a.resolver, p.call, a.run, Cancelled) in steps {
        ResolvedOnce(INITIAL, steps, a.resolver, p.call, a.run, Cancelled);
      }
    }
    hide CutOff, Run, EnabledRun;
  }

  lemma AnswerWasResolved(steps: seq<Step>, w: Waiter)
    requires EnabledRun(INITIAL, steps) && w in Run(INITIAL, steps).waiters
    requires Run(INITIAL, steps).waiters[w].Returned? && Run(INITIAL, steps).waiters[w].answer.Some?
    ensures var t := Run(INITIAL, steps); var p := t.waiters[w]; var a := p.answer.value;
      && a.resolver in t.log && t.log[a.resolver] == a
      && Resolve(a.resolver, p.call, a.run, a.decision) in steps
  {
    assert Answers(INITIAL) == map[];
    AlwaysUsedOnce(INITIAL, steps);
    var t := Run(INITIAL, steps);
    var a := t.waiters[w].answer.value;
    assert w !in t.channels && AnswerOf(t, w) == Some(a);
    assert Answers(t)[w] == a;
    assert Recorded(t.log, a, t.waiters[w].call, t.waiters[w].run);
    LoggedIffResolved(INITIAL, steps, a.resolver);
  }

  /** Without a decision: exactly by cancellation or by being cut off. */
  lemma {:induction false} AlwaysDoomedIff(s: State, steps: seq<Step>, w: Waiter)
    requires Orderly(s) && EnabledRun(s, steps)
    ensures Doomed(Run(s, steps), w) <==> Doomed(s, w) || CancelDecide(w) in steps || CutOff(s, steps, w)
    decreases |steps|
  {
    if steps != [] {
      hide Orderly, Doomed, CutsOff, Next, Enabled;
      assert steps == [steps[0]] + steps[1..];
      StepKeepsOrderly(s, steps[0]);
      DoomedIff(s, steps[0], w);
      AlwaysDoomedIff(Next(s, steps[0]), steps[1..], w);
    }
  }

  // ------------------------------------------------------- one live `decide` per call

  /** A `decide` on `call` begins only while nobody waits on it. */
  ghost predicate Alone(s: State, step: Step, call: CallId) {
    step.Decide? && step.call == call ==>
      forall w | w in s.waiters && s.waiters[w].Waiting? :: s.waiters[w].call != call
  }

  ghost predicate AloneRun(s: State, steps: seq<Step>, call: CallId)
    requires EnabledRun(s, steps)
    decreases |steps|
  {
    steps == [] || (Alone(s, steps[0], call) && AloneRun(Next(s, steps[0]), steps[1..], call))
  }

  ghost predicate OneLive(s: State, call: CallId) {
    forall v, w | v in s.waiters && w in s.waiters && s.waiters[v].Waiting? && s.waiters[w].Waiting?
      && s.waiters[v].call == call == s.waiters[w].call :: v == w
  }

  /** Along the run, the waiter's run is cleared while its sender stands in `pending`. */
  ghost predicate ClearedOff(s: State, steps: seq<Step>, w: Waiter)
    requires EnabledRun(s, steps)
    decreases |steps|
  {
    steps != [] &&
    ((Asking(s, w) && steps[0] == ClearRun(s.waiters[w].run)) || ClearedOff(Next(s, steps[0]), steps[1..], w))
  }

  /** A step leaves every waiter its call, and a waiter that has returned stays so. */
  lemma StepKeepsCalls(s: State, step: Step, w: Waiter)
    requires Enabled(s, step) && w in s.waiters
    ensures w in Next(s, step).waiters && Next(s, step).waiters[w].call == s.waiters[w].call
    ensures s.waiters[w].Returned? ==> Next(s, step).waiters[w].Returned?
  {
  }

  lemma StepKeepsOneLive(s: State, step: Step, call: CallId)
    requires OneLive(s, call) && Enabled(s, step) && Alone(s, step, call)
    ensures OneLive(Next(s, step), call)
  {
    hide DropSender;
    var t := Next(s, step);
    forall w | w in t.waiters && t.waiters[w].Waiting? && w in s.waiters
      ensures s.waiters[w].Waiting? && s.waiters[w].call == t.waiters[w].call
    {
      StepKeepsCalls(s, step, w);
    }
  }

  lemma {:induction false} RunKeepsCalls(s: State, steps: seq<Step>, w: Waiter)
    requires EnabledRun(s, steps) && w in s.waiters
    ensures w in Run(s, steps).waiters && Run(s, steps).waiters[w].call == s.waiters[w].call
    decreases |steps|
  {
    if steps != [] {
      StepKeepsCalls(s, steps[0], w);
      hide Next;
      RunKeepsCalls(Next(s, steps[0]), steps[1..], w);
    }
  }

  lemma OnlyClearCutsOff(s: State, step: Step, w: Waiter)
    requires Enabled(s, step) && w in s.waiters
    requires OneLive(s, s.waiters[w].call) && Alone(s, step, s.waiters[w].call)
    ensures CutsOff(s, step, w) <==> Asking(s, w) && step == ClearRun(s.waiters[w].run)
  {
  }

  lemma {:induction false} CutOffIsClearedOff(s: State, steps: seq<Step>, w: Waiter)
    requires EnabledRun(s, steps) && w in Run(s, steps).waiters
    requires var call := Run(s, steps).waiters[w].call; OneLive(s, call) && AloneRun(s, steps, call)
    ensures CutOff(s, steps, w) <==> ClearedOff(s, steps, w)
    decreases |steps|
  {
    if steps != [] {
      var call := Run(s, steps).waiters[w].call;
      if w in s.waiters {
        RunKeepsCalls(s, steps, w);
        OnlyClearCutsOff(s, steps[0], w);
      }
      StepKeepsOneLive(s, steps[0], call);
      hide OneLive, Alone, Next;
      CutOffIsClearedOff(Next(s, steps[0]), steps[1..], w);
    }
  }

  /**
   * So where the `decide`s of one call never overlap, one of them answers Cancelled
   * exactly if it was cancelled itself, its run was cleared while it was asking, or it
   * was brought that very decision.
   */
  lemma CancelledIffCleared(steps: seq<Step>, w: Waiter)
    requires EnabledRun(INITIAL, steps) && w in Run(INITIAL, steps).waiters && Run(INITIAL, steps).waiters[w].Returned?
    requires AloneRun(INITIAL, steps, Run(INITIAL, steps).waiters[w].call)
    ensures AnswersCancelled(Run(INITIAL, steps).waiters[w]) <==>
      || CancelDecide(w) in steps || ClearedOff(INITIAL, steps, w) || BroughtCancelled(INITIAL, steps, w)
  {
    CancelledIff(steps, w);
    CutOffIsClearedOff(INITIAL, steps, w);
  }

  /** All the invariants above hold before anything has happened. */
  lemma InitiallySound(call: CallId)
    ensures NoLostWakeUp(INITIAL) && Genuine(INITIAL) && UsedOnce(INITIAL)
    ensures Orderly(INITIAL) && OneLive(INITIAL, call)
  {
    assert Answers(INITIAL) == map[];
  }

  /** Two live `decide`s for one call: the second, merely by asking, takes the first with it. */
  lemma TwoLiveDecidesInterfere(call: CallId, run: RunId)
    ensures var steps := [Decide(0, call, run), Decide(1, call, run), Wake(0)];
      && EnabledRun(INITIAL, steps)
      && 0 in Run(INITIAL, steps).waiters
      && Run(INITIAL, steps).waiters[0] == Returned(call, run, None)
  {
    var s1 := Next(INITIAL, Decide(0, call, run));
    var s2 := Next(s1, Decide(1, call, run));
    var s3 := Next(s2, Wake(0));
    var steps := [Decide(0, call, run), Decide(1, call, run), Wake(0)];
    assert steps[1..] == [Decide(1, call, run), Wake(0)];
    assert steps[1..][1..] == [Wake(0)];
    assert steps[1..][1..][1..] == [];
    assert EnabledRun(s3, []) && Run(s3, []) == s3;
    assert EnabledRun(s2, [Wake(0)]) && Run(s2, [Wake(0)]) == s3;
    assert EnabledRun(s1, steps[1..]) && Run(s1, steps[1..]) == s3;
  }

  // ------------------------------------------------------------- the host's own form

  datatype ResolveOutcome = Live(waiter: Waiter) | Queued | WrongRun

  /** The two maps behind the lock; each method is one critical section. */
  class GuiApprovalHost {
    var pending: map<CallId, Entry>
    var queued: map<CallId, Accepted>

    constructor ()
      ensures pending == map[] && queued == map[]
    {
      pending, queued := map[], map[];
    }

    /** The lock guards this much of the shared state. */
    ghost predicate Guards(s: State)
      reads this
    {
      s.pending == pending && s.queued == queued
    }

    method ResolveSection(r: Resolver, call: CallId, run: RunId, decision: Decision) returns (outcome: ResolveOutcome)
      modifies this
      ensures forall s: State | old(Guards(s)) :: Guards(ResolveLocked(s, r, call, run, decision))
      ensures forall s: State | old(Guards(s)) ::
        (ResolveLocked(s, r, call, run, decision).holding ==
          if outcome.Live? then s.holding[r := (outcome.waiter, Accepted(r, call, run, decision, true))] else s.holding)
      ensures outcome.WrongRun? <==> call in old(pending) && old(pending)[call].run != run
      ensures outcome.Queued? <==> call !in old(pending)
      ensures outcome.WrongRun? ==> pending == old(pending) && queued == old(queued)
    {
      if call in pending {
        var entry := pending[call];
        if entry.run != run {
          return WrongRun;
        }
        pending := pending - {call};
        return Live(entry.waiter);
      }
      queued := queued[call := Accepted(r, call, run, decision, false)];
      return Queued;
    }

    method DecideSection(w: Waiter, call: CallId, run: RunId) returns (answer: Option<Accepted>)
      modifies this
      ensures forall s: State | old(Guards(s)) :: Guards(DecideLocked(s, w, call, run))
      ensures answer == if call in old(queued) then Some(old(queued)[call]) else None
      ensures answer.None? ==> call in pending && pending[call] == Entry(run, w)
    {
      if call in queued {
        answer := Some(queued[call]);
        queued := queued - {call};
        return;
      }
      pending := pending[call := Entry(run, w)];
      answer := None;
    }

    method CancelSection(w: Waiter, call: CallId, run: RunId)
      modifies this
      ensures forall s: State | old(Guards(s)) && w in s.waiters && s.waiters[w] == Waiting(call, run) ::
        Guards(CancelLocked(s, w))
    {
      pending := pending - {call};
    }

    method ClearRunSection(run: RunId)
      modifies this
      ensures forall s: State | old(Guards(s)) :: Guards(ClearRunLocked(s, run))
      ensures forall call :: call in pending <==> call in old(pending) && old(pending)[call].run != run
    {
      pending := map call | call in pending && pending[call].run != run :: pending[call];
    }
  }
}
