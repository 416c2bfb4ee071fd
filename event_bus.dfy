/**
 * The in-memory event bus: a registry from event type tag to one shared
 * multicast sink. `Subscribe` creates the sink for a tag on first use and
 * subscribes to it at once; `Publish` emits the event into the sink of
 * every registered tag the event is assignable to.
 *
 * A sink is modelled by the sequence of events emitted into it. A
 * subscription records how much of that sequence already existed when it
 * subscribed, and sees only what is emitted after that. An emission that
 * fails (the sink's buffer is full) terminates the sink for good: that
 * event and every later one of its type are dropped.
 */
module Messaging {
  import opened DomainEvents

  type Sinks = map<EventType, seq<Event>>

  /** The bus: one sink per registered tag, and the tags whose sink has terminated. */
  datatype Bus = Bus(sinks: Sinks, terminated: set<EventType>)

  /** A subscription to `eventType`, taken when its sink held `from` events. */
  datatype Subscription = Subscription(eventType: EventType, from: nat)

  /** `ofType(t)`: the events of `s` assignable to `t`, in their order. */
  function OfType(s: seq<Event>, t: EventType): (r: seq<Event>)
    ensures |r| <= |s|
    ensures forall i :: 0 <= i < |r| ==> AssignableTo(r[i], t)
    decreases |s|
  {
    if s == [] then []
    else if AssignableTo(s[0], t) then [s[0]] + OfType(s[1..], t)
    else OfType(s[1..], t)
  }

  /** Every emitted event is assignable to the tag of the sink that holds it. */
  ghost predicate Typed(sinks: Sinks) {
    forall t, i :: t in sinks && 0 <= i < |sinks[t]| ==> AssignableTo(sinks[t][i], t)
  }

  /** Sinks are typed, and only a registered tag can have a terminated sink. */
  ghost predicate WellFormed(b: Bus) {
    Typed(b.sinks) && b.terminated <= b.sinks.Keys
  }

  /** Each subscription's tag is registered and its start lies within its sink. */
  ghost predicate Covers(b: Bus, subs: seq<Subscription>) {
    forall k :: 0 <= k < |subs| ==> subs[k].eventType in b.sinks && subs[k].from <= |b.sinks[subs[k].eventType]|
  }

  /** `computeIfAbsent`: a new tag starts with an empty sink; a registered tag keeps its own. */
  function Register(sinks: Sinks, t: EventType): (r: Sinks)
    ensures r.Keys == sinks.Keys + {t}
    ensures t !in sinks ==> r[t] == []
    ensures forall u :: u in sinks ==> r[u] == sinks[u]
  {
    if t in sinks then sinks else sinks[t := []]
  }

  /**
   * One emission of `e` into every registered compatible sink, except the
   * `blocked` ones. No sink loses or reorders what it held; a sink grows
   * by one event exactly when it is compatible and not blocked, and then
   * that event is `e`.
   */
  function Emit(sinks: Sinks, e: Event, blocked: set<EventType>): (r: Sinks)
    ensures r.Keys == sinks.Keys
    ensures forall t :: t in sinks ==>
      |r[t]| == |sinks[t]| + (if AssignableTo(e, t) && t !in blocked then 1 else 0) &&
      r[t][..|sinks[t]|] == sinks[t]
    ensures forall t :: t in sinks && |r[t]| > |sinks[t]| ==> r[t][|sinks[t]|] == e
  {
    map t | t in sinks :: if AssignableTo(e, t) && t !in blocked then sinks[t] + [e] else sinks[t]
  }

  /** `Emit` part-way through its loop: only the tags in `done` have been handled. */
  function EmitTo(sinks: Sinks, e: Event, blocked: set<EventType>, done: set<EventType>): Sinks {
    map t | t in sinks :: if t in done && t !in blocked then sinks[t] + [e] else sinks[t]
  }

  /** Handling one more tag appends to just that tag's sink, unless it is blocked. */
  lemma EmitToStep(sinks: Sinks, e: Event, blocked: set<EventType>, done: set<EventType>, t: EventType)
    requires t in sinks && t !in done
    ensures var cur := EmitTo(sinks, e, blocked, done);
      EmitTo(sinks, e, blocked, done + {t}) == if t in blocked then cur else cur[t := cur[t] + [e]]
  {
  }

  /** Once every compatible registered tag is handled, the loop has done one `Emit`. */
  lemma EmitToAll(sinks: Sinks, e: Event, blocked: set<EventType>, done: set<EventType>)
    requires done == set t | t in sinks && AssignableTo(e, t)
    ensures EmitTo(sinks, e, blocked, done) == Emit(sinks, e, blocked)
  {
  }

  /** The compatible live sinks whose emission of `e` fails. */
  function Overflowing(b: Bus, e: Event, failing: set<EventType>): set<EventType> {
    set t | t in failing && t in b.sinks && AssignableTo(e, t) && t !in b.terminated
  }

  /**
   * One `publish`: a terminated sink drops `e`; a live sink whose emission
   * fails drops `e` and terminates; every other compatible sink receives it.
   */
  function PublishStep(b: Bus, e: Event, failing: set<EventType>): (r: Bus)
    ensures r.sinks.Keys == b.sinks.Keys && b.terminated <= r.terminated
    ensures forall t :: t in b.terminated && t in b.sinks ==> r.sinks[t] == b.sinks[t]
    ensures forall t :: t in r.terminated && t !in b.terminated ==>
      t in b.sinks && AssignableTo(e, t) && t in failing && r.sinks[t] == b.sinks[t]
  {
    Bus(Emit(b.sinks, e, b.terminated + failing), b.terminated + Overflowing(b, e, failing))
  }

  /** `publishAll`: one publish per event, in list order. */
  function EmitAll(b: Bus, es: seq<Event>, failing: seq<set<EventType>>): (r: Bus)
    requires |failing| == |es|
    ensures r.sinks.Keys == b.sinks.Keys && b.terminated <= r.terminated
    decreases |es|
  {
    if es == [] then b else EmitAll(PublishStep(b, es[0], failing[0]), es[1..], failing[1..])
  }

  /** What a subscription has been offered: its sink's events since it subscribed. */
  function Delivered(sinks: Sinks, sub: Subscription): seq<Event>
    requires sub.eventType in sinks && sub.from <= |sinks[sub.eventType]|
  {
    sinks[sub.eventType][sub.from..]
  }

  /** `ofType` is a no-op on a sequence whose events all fit its tag. */
  lemma {:induction false} OfTypeKeepsTyped(s: seq<Event>, t: EventType)
    requires forall i :: 0 <= i < |s| ==> AssignableTo(s[i], t)
    ensures OfType(s, t) == s
    decreases |s|
  {
    if s != [] {
      OfTypeKeepsTyped(s[1..], t);
    }
  }

  /** A publish keeps the bus well formed. */
  lemma PublishStepKeepsWellFormed(b: Bus, e: Event, failing: set<EventType>)
    requires WellFormed(b)
    ensures WellFormed(PublishStep(b, e, failing))
  {
    var r := PublishStep(b, e, failing).sinks;
    forall t, i | t in r && 0 <= i < |r[t]|
      ensures AssignableTo(r[t][i], t)
    {
      if i < |b.sinks[t]| {
        assert r[t][i] == r[t][..|b.sinks[t]|][i];
      }
    }
  }

  /** A publish only extends sinks, so every subscription still points into its sink. */
  lemma PublishStepKeepsCovers(b: Bus, e: Event, failing: set<EventType>, subs: seq<Subscription>)
    requires Covers(b, subs)
    ensures Covers(PublishStep(b, e, failing), subs)
  {
  }

  /** `publishAll` keeps the bus well formed. */
  lemma {:induction false} EmitAllKeepsWellFormed(b: Bus, es: seq<Event>, failing: seq<set<EventType>>)
    requires |failing| == |es| && WellFormed(b)
    ensures WellFormed(EmitAll(b, es, failing))
    decreases |es|
  {
    if es != [] {
      PublishStepKeepsWellFormed(b, es[0], failing[0]);
      EmitAllKeepsWellFormed(PublishStep(b, es[0], failing[0]), es[1..], failing[1..]);
    }
  }

  /** With no compatible registered tag, publishing changes nothing. */
  lemma EmitWithoutSubscriberIsNoop(b: Bus, e: Event, failing: set<EventType>)
    requires forall t :: t in b.sinks ==> !AssignableTo(e, t)
    ensures PublishStep(b, e, failing) == b
  {
    assert Overflowing(b, e, failing) == {};
    assert Emit(b.sinks, e, b.terminated + failing) == b.sinks;
  }

  /** `ofType` on a non-empty list: the head if it fits, then the filtered tail. */
  lemma OfTypeFirst(es: seq<Event>, t: EventType)
    requires es != []
    ensures OfType(es, t) == (if AssignableTo(es[0], t) then [es[0]] else []) + OfType(es[1..], t)
  {
  }

  lemma Associative(a: seq<Event>, b: seq<Event>, c: seq<Event>)
    ensures (a + b) + c == a + (b + c)
  {
  }

  /** A buffer extended by the first event's share and then the rest's is extended by the whole list's share. */
  lemma AppendFirst(buffer: seq<Event>, es: seq<Event>, t: EventType)
    requires es != []
    ensures (buffer + (if AssignableTo(es[0], t) then [es[0]] else [])) + OfType(es[1..], t) == buffer + OfType(es, t)
  {
    var head := if AssignableTo(es[0], t) then [es[0]] else [];
    OfTypeFirst(es, t);
    Associative(buffer, head, OfType(es[1..], t));
  }

  /**
   * While a sink stays live and none of its emissions fails, it receives
   * exactly the published events assignable to its tag, each once, in
   * publish order.
   */
  lemma {:induction false} EmitAllDeliversInOrder(b: Bus, es: seq<Event>, failing: seq<set<EventType>>, t: EventType)
    requires |failing| == |es| && forall i :: 0 <= i < |failing| ==> t !in failing[i]
    requires t in b.sinks && t !in b.terminated
    ensures t in EmitAll(b, es, failing).sinks && t !in EmitAll(b, es, failing).terminated
    ensures EmitAll(b, es, failing).sinks[t] == b.sinks[t] + OfType(es, t)
    decreases |es|
  {
    if es != [] {
      var b1 := PublishStep(b, es[0], failing[0]);
      assert b1.sinks[t] == b.sinks[t] + (if AssignableTo(es[0], t) then [es[0]] else []);
      AppendFirst(b.sinks[t], es, t);
      EmitAllDeliversInOrder(b1, es[1..], failing[1..], t);
    }
  }

  /** A terminated sink receives nothing more, whatever is published. */
  lemma {:induction false} TerminatedSinkStaysSilent(b: Bus, es: seq<Event>, failing: seq<set<EventType>>, t: EventType)
    requires |failing| == |es|
    requires t in b.sinks && t in b.terminated
    ensures t in EmitAll(b, es, failing).terminated
    ensures EmitAll(b, es, failing).sinks[t] == b.sinks[t]
    decreases |es|
  {
    if es != [] {
      TerminatedSinkStaysSilent(PublishStep(b, es[0], failing[0]), es[1..], failing[1..], t);
    }
  }

  /**
   * A failed emission is not a one-off loss: the event and everything
   * published after it to that tag are lost, and the sink stays terminated.
   */
  lemma FailedEmissionLosesTheRest(b: Bus, es: seq<Event>, failing: seq<set<EventType>>, t: EventType)
    requires |failing| == |es| && es != []
    requires t in b.sinks && AssignableTo(es[0], t) && t in failing[0]
    ensures t in EmitAll(b, es, failing).terminated
    ensures EmitAll(b, es, failing).sinks[t] == b.sinks[t]
  {
    var b1 := PublishStep(b, es[0], failing[0]);
    assert t in b1.terminated && b1.sinks[t] == b.sinks[t];
    TerminatedSinkStaysSilent(b1, es[1..], failing[1..], t);
  }

  /**
   * A subscription sees exactly the events of its type published after it
   * subscribed, in order, as long as its sink stays live.
   */
  lemma SubscriptionSeesLaterEvents(b: Bus, t: EventType, es: seq<Event>, failing: seq<set<EventType>>)
    requires |failing| == |es| && forall i :: 0 <= i < |failing| ==> t !in failing[i]
    requires t !in b.terminated
    ensures var b1 := Bus(Register(b.sinks, t), b.terminated);
      var sub := Subscription(t, |b1.sinks[t]|);
      var b2 := EmitAll(b1, es, failing);
      t in b2.sinks && sub.from <= |b2.sinks[t]| && Delivered(b2.sinks, sub) == OfType(es, t)
  {
    var b1 := Bus(Register(b.sinks, t), b.terminated);
    EmitAllDeliversInOrder(b1, es, failing, t);
    var b2 := EmitAll(b1, es, failing);
    assert b2.sinks[t][|b1.sinks[t]|..] == OfType(es, t);
  }

  /** What follows a prefix of a concatenation. */
  lemma SliceAfter(a: seq<Event>, x: seq<Event>, y: seq<Event>)
    ensures ((a + x) + y)[|a|..] == x + y
    ensures ((a + x) + y)[|a + x|..] == y
  {
    assert ((a + x) + y)[|a|..] == x + y;
  }

  /**
   * Two subscriptions to the same registered tag, the second taken after
   * `earlier` was published: the first sees `earlier` and `later`, the
   * second only `later`.
   */
  lemma SecondSubscriberMissesEarlierEvents(b: Bus, t: EventType, earlier: seq<Event>, f1: seq<set<EventType>>,
                                           later: seq<Event>, f2: seq<set<EventType>>)
    requires |f1| == |earlier| && forall i :: 0 <= i < |f1| ==> t !in f1[i]
    requires |f2| == |later| && forall i :: 0 <= i < |f2| ==> t !in f2[i]
    requires t in b.sinks && t !in b.terminated
    ensures var b2 := EmitAll(b, earlier, f1);
      var b3 := EmitAll(b2, later, f2);
      t in b2.sinks && t in b3.sinks && |b.sinks[t]| <= |b2.sinks[t]| <= |b3.sinks[t]| &&
      Delivered(b3.sinks, Subscription(t, |b.sinks[t]|)) == OfType(earlier, t) + OfType(later, t) &&
      Delivered(b3.sinks, Subscription(t, |b2.sinks[t]|)) == OfType(later, t)
  {
    EmitAllDeliversInOrder(b, earlier, f1, t);
    var b2 := EmitAll(b, earlier, f1);
    EmitAllDeliversInOrder(b2, later, f2, t);
    var b3 := EmitAll(b2, later, f2);
    SliceAfter(b.sinks[t], OfType(earlier, t), OfType(later, t));
  }

  /** An empty `publishAll` is a no-op. */
  lemma EmitAllEmptyIsNoop(b: Bus)
    ensures EmitAll(b, [], []) == b
  {
  }

  /**
   * A tag registered only after some events were published starts with an
   * empty sink: none of those earlier events ever reaches it.
   */
  lemma LateSubscriberMissesEarlierEvents(b: Bus, es: seq<Event>, failing: seq<set<EventType>>, t: EventType)
    requires |failing| == |es|
    requires t !in b.sinks
    ensures Register(EmitAll(b, es, failing).sinks, t)[t] == []
  {
  }

  /** Registering twice is the same as registering once: one sink per tag. */
  lemma RegisterIdempotent(sinks: Sinks, t: EventType)
    ensures Register(Register(sinks, t), t) == Register(sinks, t)
  {
  }

  class InMemoryEventBus {
    var sinks: Sinks
    var terminated: set<EventType>
    var subscriptions: seq<Subscription>

    function State(): Bus
      reads this
    {
      Bus(sinks, terminated)
    }

    /** The bus is well formed, and each subscription points into its sink. */
    ghost predicate Valid()
      reads this
    {
      WellFormed(State()) && Covers(State(), subscriptions)
    }

    constructor ()
      ensures Valid() && sinks == map[] && terminated == {} && subscriptions == []
    {
      sinks := map[];
      terminated := {};
      subscriptions := [];
    }

    /**
     * What subscription `k` carries: the events emitted into its sink since
     * it subscribed, filtered by `ofType`; each is of its type. If that sink
     * has terminated, the stream then ends with an error.
     */
    function Stream(k: nat): (s: seq<Event>)
      reads this
      requires Valid() && k < |subscriptions|
      ensures s == Delivered(sinks, subscriptions[k])
      ensures forall i :: 0 <= i < |s| ==> AssignableTo(s[i], subscriptions[k].eventType)
    {
      var sub := subscriptions[k];
      assert forall i :: 0 <= i < |Delivered(sinks, sub)| ==>
        Delivered(sinks, sub)[i] == sinks[sub.eventType][sub.from + i];
      OfTypeKeepsTyped(Delivered(sinks, sub), sub.eventType);
      OfType(Delivered(sinks, sub), sub.eventType)
    }

    /**
     * `subscribe`: registers a sink for `t` unless one exists, and
     * subscribes to it; the new subscription `k` has seen nothing yet.
     */
    method Subscribe(t: EventType) returns (k: nat)
      requires Valid()
      modifies this
      ensures Valid()
      ensures sinks == Register(old(sinks), t) && terminated == old(terminated)
      ensures k == |old(subscriptions)|
      ensures subscriptions == old(subscriptions) + [Subscription(t, |sinks[t]|)]
      ensures Stream(k) == []
    {
      if t !in sinks {
        sinks := sinks[t := []];
      }
      k := |subscriptions|;
      subscriptions := subscriptions + [Subscription(t, |sinks[t]|)];
    }

    /**
     * `publish`: emits `e` into the sink of each registered tag it is
     * assignable to, one tag at a time. A terminated sink drops it; a sink
     * in `failing` rejects it and terminates.
     */
    method Publish(e: Event, failing: set<EventType>)
      requires Valid()
      modifies this
      ensures Valid()
      ensures State() == PublishStep(old(State()), e, failing)
      ensures subscriptions == old(subscriptions)
    {
      var before := State();
      var blocked := terminated + failing;
      var eventTypes := set t | t in sinks && AssignableTo(e, t);
      var next := sinks;
      var done: set<EventType> := {};
      while done != eventTypes
        invariant done <= eventTypes
        invariant next == EmitTo(before.sinks, e, blocked, done)
        modifies {}
        decreases eventTypes - done
      {
        var t :| t in eventTypes - done;
        EmitToStep(before.sinks, e, blocked, done, t);
        if t !in blocked {
          next := next[t := next[t] + [e]];
        }
        done := done + {t};
      }
      EmitToAll(before.sinks, e, blocked, eventTypes);
      PublishStepKeepsWellFormed(before, e, failing);
      PublishStepKeepsCovers(before, e, failing, subscriptions);
      sinks, terminated := next, terminated + Overflowing(before, e, failing);
    }

    /** `publishAll`: publishes each event in list order; an empty list changes nothing. */
    method PublishAll(es: seq<Event>, failing: seq<set<EventType>>)
      requires Valid()
      requires |failing| == |es|
      modifies this
      ensures Valid()
      ensures State() == EmitAll(old(State()), es, failing)
      ensures subscriptions == old(subscriptions)
    {
      var i := 0;
      while i < |es|
        invariant 0 <= i <= |es|
        invariant Valid() && subscriptions == old(subscriptions)
        invariant EmitAll(State(), es[i..], failing[i..]) == EmitAll(old(State()), es, failing)
      {
        assert es[i..][1..] == es[i + 1..] && failing[i..][1..] == failing[i + 1..];
        Publish(es[i], failing[i]);
        i := i + 1;
      }
    }
  }
}
