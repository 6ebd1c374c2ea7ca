/**
 * The event hub (crates/app/src/hub.rs): a counter and a bounded ring. With
 * publishers one after the other the ring is the end of the unbounded log; with
 * publishers interleaved between counter and ring, less is true.
 */
module Hub {
  import opened Common

  /** An event with the global sequence the hub gave it. */
  datatype Sequenced<T> = Sequenced(sequence: nat, event: T)

  datatype Replay<T> = Replayed(events: seq<Sequenced<T>>) | ReplayUnavailable(from: nat, earliest: nat)

  /** The last `min(|log|, capacity)` entries. */
  function Tail<T>(log: seq<T>, capacity: nat): seq<T> {
    log[SaturatingSub(|log|, capacity)..]
  }

  /** Entries `from..to` of a log numbered from 1; positions outside it select nothing. */
  function Window<T>(log: seq<T>, from: nat, to: nat): seq<T> {
    var lo := if from == 0 then 0 else if from - 1 > |log| then |log| else from - 1;
    var hi := if to > |log| then |log| else to;
    if lo <= hi then log[lo..hi] else []
  }

  lemma WindowSnoc<T>(log: seq<T>, n: nat, from: nat, to: nat)
    requires n < |log|
    ensures Window(log[..n + 1], from, to)
      == Window(log[..n], from, to) + (if from <= n + 1 <= to then [log[n]] else [])
  {
    var a, b := log[..n], log[..n + 1];
    assert b == a + [log[n]];
    var lo := if from == 0 then 0 else from - 1;
    if lo <= n < to {
      assert b[lo..n + 1] == a[lo..n] + [log[n]];
    } else if lo <= to <= n {
      assert b[lo..to] == a[lo..to];
    }
  }

  /** The counter is 64 bits wide. */
  function Wrap(n: nat): nat {
    n % (MAX_U64 + 1)
  }

  lemma WrapNext(n: nat)
    ensures Wrap(n + 1) == if Wrap(n) == MAX_U64 then 0 else Wrap(n) + 1
  {
  }

  lemma WrapSmall(n: nat)
    ensures n <= MAX_U64 ==> Wrap(n) == n
  {
  }

  /** A log whose entries carry their position. */
  ghost predicate Numbered<T>(log: seq<Sequenced<T>>) {
    forall i | 0 <= i < |log| :: log[i].sequence == Wrap(i + 1)
  }

  /** The entries whose number lies in `from..to`, in order. */
  function InWindow<T>(q: seq<Sequenced<T>>, from: nat, to: nat): seq<Sequenced<T>> {
    if q == [] then []
    else
      var last := q[|q| - 1];
      InWindow(q[..|q| - 1], from, to) + (if from <= last.sequence <= to then [last] else [])
  }

  lemma {:induction false} InWindowIsWindowUpTo<T>(log: seq<Sequenced<T>>, dropped: nat, n: nat, from: nat, to: nat)
    requires Numbered(log) && |log| <= MAX_U64 && dropped < from && dropped <= n <= |log|
    ensures InWindow(log[dropped..n], from, to) == Window(log[..n], from, to)
    decreases n
  {
    hide *;
    if n > dropped {
      InWindowIsWindowUpTo(log, dropped, n - 1, from, to);
      assert log[dropped..n] == log[dropped..n - 1] + [log[n - 1]];
      InWindowSnoc(log[dropped..n - 1], log[n - 1], from, to);
      NumberOf(log, n - 1);
      WindowSnoc(log, n - 1, from, to);
    } else {
      assert log[dropped..n] == [];
      NothingYet(log, n, from, to);
    }
  }

  lemma NothingYet<T>(log: seq<Sequenced<T>>, n: nat, from: nat, to: nat)
    requires n <= |log| && n < from
    ensures InWindow<T>([], from, to) == [] == Window(log[..n], from, to)
  {
  }

  lemma NumberOf<T>(log: seq<Sequenced<T>>, i: nat)
    requires Numbered(log) && i < |log| <= MAX_U64
    ensures log[i].sequence == i + 1
  {
    WrapSmall(i + 1);
    hide Wrap;
  }

  lemma InWindowSnoc<T>(q: seq<Sequenced<T>>, x: Sequenced<T>, from: nat, to: nat)
    ensures InWindow(q + [x], from, to) == InWindow(q, from, to) + (if from <= x.sequence <= to then [x] else [])
  {
    assert (q + [x])[..|q|] == q;
  }

  /** In the ring of a log, and until the counter wraps, numbers select positions of the log. */
  lemma InWindowIsWindow<T>(log: seq<Sequenced<T>>, capacity: nat, from: nat, to: nat)
    requires Numbered(log) && |log| <= MAX_U64 && SaturatingSub(|log|, capacity) < from
    ensures InWindow(Tail(log, capacity), from, to) == Window(log, from, to)
  {
    var dropped := SaturatingSub(|log|, capacity);
    InWindowIsWindowUpTo(log, dropped, |log|, from, to);
    assert log[dropped..|log|] == Tail(log, capacity) && log[..|log|] == log;
  }

  class EventHub<T> {
    const capacity: nat
    var nextSequence: nat
    var ring: seq<Sequenced<T>>
    ghost var log: seq<Sequenced<T>>

    ghost predicate Valid()
      reads this
    {
      && capacity >= 1
      && nextSequence == Wrap(|log|)
      && Numbered(log)
      && ring == Tail(log, capacity)
    }

    constructor WithCapacity(capacity: nat)
      ensures Valid() && log == [] && this.capacity == (if capacity == 0 then 1 else capacity)
    {
      this.capacity := if capacity == 0 then 1 else capacity;
      nextSequence := 0;
      ring := [];
      log := [];
    }

    /** The sequence given is the position in the log, modulo the counter's width. */
    method Publish(event: T) returns (published: Sequenced<T>)
      requires Valid()
      modifies this
      ensures Valid()
      ensures published == Sequenced(Wrap(|old(log)| + 1), event) && log == old(log) + [published]
    {
      WrapNext(|log|);
      hide Wrap;
      nextSequence := if nextSequence == MAX_U64 then 0 else nextSequence + 1;
      published := Sequenced(nextSequence, event);
      if |ring| == capacity {
        ring := ring[1..];
      }
      ring := ring + [published];
      log := log + [published];
    }

    method Current() returns (sequence: nat)
      requires Valid()
      ensures sequence == Wrap(|log|)
    {
      sequence := nextSequence;
    }

    method EarliestAvailable() returns (sequence: Option<nat>)
      requires Valid()
      ensures sequence == if log == [] then None else Some(Wrap(SaturatingSub(|log|, capacity) + 1))
    {
      if ring == [] {
        return None;
      }
      return Some(ring[0].sequence);
    }

    /**
     * On an empty hub: nothing. Otherwise, until the counter wraps, refused exactly
     * when `from` is older than the ring, and else exactly that slice of the log.
     * `to` defaults to the newest.
     */
    method ReplayWindow(from: nat, to: Option<nat>) returns (result: Replay<T>)
      requires Valid()
      ensures log == [] ==> result == Replayed([])
      ensures ring != [] ==>
        result ==
          if from < ring[0].sequence then ReplayUnavailable(from, ring[0].sequence)
          else Replayed(InWindow(ring, from, if to.Some? then to.value else nextSequence))
      ensures log != [] && |log| <= MAX_U64 ==>
        result ==
          if from < SaturatingSub(|log|, capacity) + 1
          then ReplayUnavailable(from, SaturatingSub(|log|, capacity) + 1)
          else Replayed(Window(log, from, if to.Some? then to.value else |log|))
    {
      WrapSmall(|log|);
      WrapSmall(SaturatingSub(|log|, capacity) + 1);
      hide Wrap;
      var last := if to.Some? then to.value else nextSequence;
      if ring == [] {
        return Replayed([]);
      }
      if from < ring[0].sequence {
        return ReplayUnavailable(from, ring[0].sequence);
      }
      var events := Collect(from, last);
      if |log| <= MAX_U64 && from > SaturatingSub(|log|, capacity) { InWindowIsWindow(log, capacity, from, last); }
      return Replayed(events);
    }

    method Collect(from: nat, last: nat) returns (events: seq<Sequenced<T>>)
      ensures events == InWindow(ring, from, last)
    {
      events := [];
      var i := 0;
      while i < |ring|
        invariant 0 <= i <= |ring| && events == InWindow(ring[..i], from, last)
      {
        assert ring[..i + 1][..i] == ring[..i] && ring[..i + 1][i] == ring[i];
        if from <= ring[i].sequence <= last {
          events := events + [ring[i]];
        }
        i := i + 1;
      }
      assert ring[..i] == ring;
    }
  }

  /**
   * A client that saw the first `seen` events and replays from the next one has,
   * unless refused, the log itself: no gap and no duplicate.
   */
  lemma ReplayResumes<T>(log: seq<T>, seen: nat, to: nat)
    requires seen <= |log| && seen <= to
    ensures log[..seen] + Window(log, seen + 1, to) == log[..if to > |log| then |log| else to]
  {
  }

  // --------------------------------------------------------- interleaved publishers

  /** Sequence taken, ring not yet entered: the two steps of a publisher, apart. */
  datatype Shared = Shared(next: nat, inFlight: set<nat>, ring: seq<nat>, evicted: set<nat>)

  datatype Step = Take | Insert(sequence: nat)

  predicate Enabled(s: Shared, step: Step) {
    step.Insert? ==> step.sequence in s.inFlight
  }

  function Advance(s: Shared, capacity: nat, step: Step): Shared
    requires Enabled(s, step)
  {
    match step
    case Take => s.(next := s.next + 1, inFlight := s.inFlight + {s.next + 1})
    case Insert(n) =>
      if |s.ring| == capacity && s.ring != [] then
        s.(inFlight := s.inFlight - {n}, ring := s.ring[1..] + [n], evicted := s.evicted + {s.ring[0]})
      else
        s.(inFlight := s.inFlight - {n}, ring := s.ring + [n])
  }

  ghost predicate EachInOnePlace(s: Shared, capacity: nat) {
    && |s.ring| <= capacity
    && Distinct(s.ring)
    && (forall n :: 1 <= n <= s.next <==> n in s.inFlight || n in s.ring || n in s.evicted)
    && (forall n | n in s.ring :: n !in s.inFlight && n !in s.evicted)
    && s.inFlight !! s.evicted
  }

  lemma AdvanceKeepsPlaces(s: Shared, capacity: nat, step: Step)
    requires capacity >= 1 && EachInOnePlace(s, capacity) && Enabled(s, step)
    ensures EachInOnePlace(Advance(s, capacity, step), capacity)
  {
    if step.Insert? && |s.ring| == capacity {
      var t := Advance(s, capacity, step);
      assert s.ring == [s.ring[0]] + s.ring[1..];
      assert s.ring[0] !in s.ring[1..];
      forall n ensures n in t.ring <==> n in s.ring[1..] || n == step.sequence {
      }
      assert forall n :: n in s.ring <==> n == s.ring[0] || n in s.ring[1..];
    }
  }

  ghost predicate EnabledRun(s: Shared, capacity: nat, steps: seq<Step>)
    decreases |steps|
  {
    steps == [] || (Enabled(s, steps[0]) && EnabledRun(Advance(s, capacity, steps[0]), capacity, steps[1..]))
  }

  ghost function AdvanceAll(s: Shared, capacity: nat, steps: seq<Step>): Shared
    requires EnabledRun(s, capacity, steps)
    decreases |steps|
  {
    if steps == [] then s else AdvanceAll(Advance(s, capacity, steps[0]), capacity, steps[1..])
  }

  /**
   * However publishers interleave: sequences are 1..next without repetition, each
   * in flight, in the ring or evicted and in no two of them, and the ring is bounded.
   */
  lemma {:induction false} AlwaysEachInOnePlace(s: Shared, capacity: nat, steps: seq<Step>)
    requires capacity >= 1 && EachInOnePlace(s, capacity) && EnabledRun(s, capacity, steps)
    ensures EachInOnePlace(AdvanceAll(s, capacity, steps), capacity)
    decreases |steps|
  {
    if steps != [] {
      AdvanceKeepsPlaces(s, capacity, steps[0]);
      AlwaysEachInOnePlace(Advance(s, capacity, steps[0]), capacity, steps[1..]);
    }
  }

  function Select(ring: seq<nat>, from: nat, to: nat): seq<nat> {
    if ring == [] then []
    else
      var last := ring[|ring| - 1];
      Select(ring[..|ring| - 1], from, to) + (if from <= last <= to then [last] else [])
  }

  /** `None` where the hub answers that the range is unavailable. */
  function ReplayShared(s: Shared, from: nat, to: nat): Option<seq<nat>> {
    if s.ring == [] then Some([])
    else if from < s.ring[0] then None
    else Some(Select(s.ring, from, to))
  }

  lemma {:induction false} SelectSelects(ring: seq<nat>, from: nat, to: nat)
    requires Distinct(ring)
    ensures Distinct(Select(ring, from, to))
    ensures forall n :: n in Select(ring, from, to) <==> n in ring && from <= n <= to
  {
    if ring != [] {
      var k := |ring| - 1;
      var rest := Select(ring[..k], from, to);
      SelectSelects(ring[..k], from, to);
      assert ring == ring[..k] + [ring[k]];
      assert ring[k] !in ring[..k];
      assert ring[k] !in rest;
    }
  }

  /**
   * Without serialised publishers a replay that is answered is still free of
   * duplicates and inside its window, and it is complete exactly when nothing
   * in the window is still in flight or already evicted.
   */
  lemma ReplayIsCompleteIff(s: Shared, capacity: nat, from: nat, to: nat)
    requires EachInOnePlace(s, capacity) && from >= 1 && ReplayShared(s, from, to).Some?
    ensures var events := ReplayShared(s, from, to).value;
      && Distinct(events) && (forall n | n in events :: from <= n <= to && n in s.ring)
      && ((forall n | from <= n <= to && n <= s.next :: n in events)
            <==> (forall n | from <= n <= to :: n !in s.inFlight && n !in s.evicted))
  {
    SelectSelects(s.ring, from, to);
  }

  /** A window of which the ring still holds every event. */
  ghost predicate Retained(s: Shared, from: nat, to: nat) {
    1 <= from <= to <= s.next && forall n | from <= n <= to :: n in s.ring
  }

  /** The front of the ring is the oldest event in it. */
  ghost predicate FrontIsOldest(ring: seq<nat>) {
    forall n | n in ring :: ring[0] <= n
  }

  /** Some wholly retained window is refused exactly when the front of the ring is not its oldest event. */
  lemma RetainedIsRefusedIff(s: Shared, capacity: nat)
    requires EachInOnePlace(s, capacity)
    ensures (exists from, to :: Retained(s, from, to) && ReplayShared(s, from, to).None?) <==> !FrontIsOldest(s.ring)
  {
    if !FrontIsOldest(s.ring) {
      var n :| n in s.ring && n < s.ring[0];
      assert Retained(s, n, n) && ReplayShared(s, n, n).None?;
    }
    if from, to :| Retained(s, from, to) && ReplayShared(s, from, to).None? {
      assert from in s.ring && from < s.ring[0];
    }
  }

  /** Publishers enter the ring in the order in which they took their sequences. */
  predicate InTurn(s: Shared, step: Step) {
    step.Insert? ==> forall n | n in s.inFlight :: step.sequence <= n
  }

  ghost predicate InTurnRun(s: Shared, capacity: nat, steps: seq<Step>)
    requires EnabledRun(s, capacity, steps)
    decreases |steps|
  {
    steps == [] || (InTurn(s, steps[0]) && InTurnRun(Advance(s, capacity, steps[0]), capacity, steps[1..]))
  }

  ghost predicate Increasing(q: seq<nat>) {
    forall i, j | 0 <= i < j < |q| :: q[i] < q[j]
  }

  /** Evicted, then the ring from front to back, then in flight. */
  ghost predicate InOrder(s: Shared) {
    && Increasing(s.ring)
    && (forall n, m | n in s.ring && m in s.inFlight :: n < m)
    && (forall n, m | n in s.evicted && m in s.ring :: n < m)
    && (forall n, m | n in s.evicted && m in s.inFlight :: n < m)
  }

  lemma TakeKeepsOrder(s: Shared, capacity: nat)
    requires EachInOnePlace(s, capacity) && InOrder(s)
    ensures InOrder(Advance(s, capacity, Take))
  {
    assert forall n | n in s.ring || n in s.evicted :: n <= s.next;
    hide EachInOnePlace;
  }

  /** Behind a ring in order, a new back that exceeds it keeps it in order; so does losing the front. */
  lemma PushKeepsOrder(ring: seq<nat>, n: nat)
    requires Increasing(ring) && forall m | m in ring :: m < n
    ensures Increasing(ring + [n]) && (forall m :: m in ring + [n] <==> m in ring || m == n)
    ensures ring != [] ==> Increasing(ring[1..] + [n])
    ensures ring != [] ==> forall m | m in ring[1..] + [n] :: ring[0] < m && (m in ring || m == n)
  {
    assert forall i | 0 <= i < |ring| :: ring[i] in ring;
  }

  lemma InsertKeepsOrder(s: Shared, capacity: nat, n: nat)
    requires capacity >= 1 && InOrder(s) && n in s.inFlight && InTurn(s, Insert(n))
    ensures InOrder(Advance(s, capacity, Insert(n)))
  {
    PushKeepsOrder(s.ring, n);
    var t := Advance(s, capacity, Insert(n));
    assert forall m | m in t.inFlight :: n < m && m in s.inFlight;
    assert forall m | m in t.ring :: m in s.ring || m == n;
    assert s.ring != [] ==> s.ring[0] in s.ring;
    hide Increasing;
  }

  lemma AdvanceKeepsOrder(s: Shared, capacity: nat, step: Step)
    requires capacity >= 1 && EachInOnePlace(s, capacity) && InOrder(s) && Enabled(s, step) && InTurn(s, step)
    ensures InOrder(Advance(s, capacity, step))
  {
    match step
    case Take => TakeKeepsOrder(s, capacity);
    case Insert(n) => InsertKeepsOrder(s, capacity, n);
  }

  lemma {:induction false} AlwaysInOrder(s: Shared, capacity: nat, steps: seq<Step>)
    requires capacity >= 1 && EachInOnePlace(s, capacity) && InOrder(s)
    requires EnabledRun(s, capacity, steps) && InTurnRun(s, capacity, steps)
    ensures EachInOnePlace(AdvanceAll(s, capacity, steps), capacity) && InOrder(AdvanceAll(s, capacity, steps))
    decreases |steps|
  {
    if steps != [] {
      AdvanceKeepsPlaces(s, capacity, steps[0]);
      AdvanceKeepsOrder(s, capacity, steps[0]);
      hide InOrder, EachInOnePlace;
      AlwaysInOrder(Advance(s, capacity, steps[0]), capacity, steps[1..]);
    }
  }

  const EMPTY_HUB: Shared := Shared(0, {}, [], {})

  lemma InitiallyInOrder(capacity: nat)
    ensures EachInOnePlace(EMPTY_HUB, capacity) && InOrder(EMPTY_HUB)
  {
  }

  /** `from`, `from + 1`, ... up to `to`. */
  function Upto(from: nat, to: nat): (r: seq<nat>)
    ensures |r| == if from <= to then to - from + 1 else 0
    ensures forall i | 0 <= i < |r| :: r[i] == from + i
  {
    if from <= to then seq(to - from + 1, i requires 0 <= i => from + i) else []
  }

  lemma UptoHolds(from: nat, to: nat)
    ensures Increasing(Upto(from, to)) && forall n :: n in Upto(from, to) <==> from <= n <= to
  {
    var r := Upto(from, to);
    forall n | from <= n <= to ensures n in r { assert r[n - from] == n; }
  }

  /** While publishers enter in turn, every wholly retained window is answered, in full and in order. */
  lemma InTurnRetainedIsReplayed(capacity: nat, steps: seq<Step>, from: nat, to: nat)
    requires capacity >= 1 && EnabledRun(EMPTY_HUB, capacity, steps) && InTurnRun(EMPTY_HUB, capacity, steps)
    requires Retained(AdvanceAll(EMPTY_HUB, capacity, steps), from, to)
    ensures ReplayShared(AdvanceAll(EMPTY_HUB, capacity, steps), from, to) == Some(Upto(from, to))
  {
    InitiallyInOrder(capacity);
    AlwaysInOrder(EMPTY_HUB, capacity, steps);
    var s := AdvanceAll(EMPTY_HUB, capacity, steps);
    var r := Select(s.ring, from, to);
    SelectSelects(s.ring, from, to);
    SelectKeepsOrder(s.ring, from, to);
    assert from in s.ring;
    UptoHolds(from, to);
    IncreasingIsUnique(r, Upto(from, to));
  }

  lemma {:induction false} SelectKeepsOrder(ring: seq<nat>, from: nat, to: nat)
    requires Increasing(ring)
    ensures Increasing(Select(ring, from, to))
    ensures forall n | n in Select(ring, from, to) :: n in ring
  {
    if ring != [] {
      var k := |ring| - 1;
      SelectKeepsOrder(ring[..k], from, to);
      var r := Select(ring[..k], from, to);
      assert forall i | 0 <= i < |r| :: r[i] in r && r[i] in ring[..k];
    }
  }

  ghost predicate SameElements(a: seq<nat>, b: seq<nat>) {
    forall n :: n in a <==> n in b
  }

  lemma BackIsGreatest(q: seq<nat>, x: nat)
    requires Increasing(q + [x])
    ensures Increasing(q) && forall n | n in q :: n < x
  {
    var t := q + [x];
    assert forall i | 0 <= i < |q| :: t[i] == q[i] && t[i] < t[|q|];
  }

  lemma SameBack(a: seq<nat>, x: nat, b: seq<nat>, y: nat)
    requires Increasing(a + [x]) && Increasing(b + [y]) && SameElements(a + [x], b + [y])
    ensures x == y && Increasing(a) && Increasing(b) && SameElements(a, b)
  {
    BackIsGreatest(a, x);
    BackIsGreatest(b, y);
    hide Increasing;
    assert x in a + [x] && y in b + [y];
    assert x in b + [y] && y in a + [x];
    forall n ensures n in a <==> n in b {
      assert n in a + [x] <==> n in b + [y];
    }
  }

  /** Increasing sequences of the same elements are the same sequence. */
  lemma {:induction false} IncreasingIsUnique(a: seq<nat>, b: seq<nat>)
    requires Increasing(a) && Increasing(b) && SameElements(a, b)
    ensures a == b
  {
    EmptyOrNot(a);
    EmptyOrNot(b);
    if a != [] && b != [] {
      hide Increasing, SameElements;
      var i, j := |a| - 1, |b| - 1;
      assert a == a[..i] + [a[i]] && b == b[..j] + [b[j]];
      SameBack(a[..i], a[i], b[..j], b[j]);
      IncreasingIsUnique(a[..i], b[..j]);
    }
  }

  lemma EmptyOrNot(q: seq<nat>)
    ensures q == [] || exists n :: n in q
  {
    if q != [] { assert q[0] in q; }
  }

  /** Two publishers suffice for a refusal of a range the ring holds in full. */
  lemma OvertakenReplayIsRefused()
    ensures var steps := [Take, Take, Insert(2), Insert(1)];
      && EnabledRun(EMPTY_HUB, 4, steps)
      && var s := AdvanceAll(EMPTY_HUB, 4, steps);
         s.ring == [2, 1] && ReplayShared(s, 1, 2).None?
  {
    var s1 := Advance(EMPTY_HUB, 4, Take);
    var s2 := Advance(s1, 4, Take);
    var s3 := Advance(s2, 4, Insert(2));
    var s4 := Advance(s3, 4, Insert(1));
    var steps := [Take, Take, Insert(2), Insert(1)];
    assert steps[1..] == [Take, Insert(2), Insert(1)];
    assert steps[1..][1..] == [Insert(2), Insert(1)];
    assert steps[1..][1..][1..] == [Insert(1)];
    assert steps[1..][1..][1..][1..] == [];
    assert AdvanceAll(s4, 4, []) == s4 && EnabledRun(s4, 4, []);
    assert AdvanceAll(s3, 4, [Insert(1)]) == s4 && EnabledRun(s3, 4, [Insert(1)]);
    assert AdvanceAll(s2, 4, [Insert(2), Insert(1)]) == s4;
    assert AdvanceAll(s1, 4, [Take, Insert(2), Insert(1)]) == s4;
  }
}
