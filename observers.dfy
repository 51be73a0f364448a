/**
 * The observer protocol of a test set: the events an observer can be told
 * about, and the order in which a test set delivers them.
 *
 * Observers are passive here: each callback invocation is recorded as a
 * `Delivery` (which observer, which event) in the test set's log, and no
 * observer reacts by changing the test set.
 */
module Observers {
  import opened ObservableSets
  import opened Entities

  /** An observer object, identified by its position in some allocation order. */
  type ObserverId = nat

  /**
   * One call of a `TestSetObserver` callback (the test set the callback is
   * about is the one whose log holds it). The environment-variable and
   * system-property callbacks are never fired by the modelled code.
   */
  datatype Event =
    | DirNameChanged(oldDirName: string, newDirName: string)
    | ExtendsFromAdded(added: Entity)
    | ExtendsFromRemoved(removed: Entity)
    | ImportAdded(added: Entity)
    | ImportRemoved(removed: Entity)

  datatype Delivery = Delivery(observer: ObserverId, event: Event)

  /** The callback fired when an element enters the relationship set `rel`. */
  function AddedEvent(rel: Relation, x: Entity): (e: Event) {
    match rel
    case Extension => ExtendsFromAdded(x)
    case Import => ImportAdded(x)
  }

  /** The callback fired when an element leaves the relationship set `rel`. */
  function RemovedEvent(rel: Relation, x: Entity): (e: Event) {
    match rel
    case Extension => ExtendsFromRemoved(x)
    case Import => ImportRemoved(x)
  }

  /** One `added` event per element, in order. */
  function AddedEvents(rel: Relation, xs: seq<Entity>): (es: seq<Event>)
    ensures |es| == |xs|
    decreases |xs|
  {
    if xs == [] then [] else AddedEvents(rel, xs[..|xs| - 1]) + [AddedEvent(rel, xs[|xs| - 1])]
  }

  /** One `removed` event per element, in order. */
  function RemovedEvents(rel: Relation, xs: seq<Entity>): (es: seq<Event>)
    ensures |es| == |xs|
    decreases |xs|
  {
    if xs == [] then [] else RemovedEvents(rel, xs[..|xs| - 1]) + [RemovedEvent(rel, xs[|xs| - 1])]
  }

  lemma {:induction false} AddedEventsAt(rel: Relation, xs: seq<Entity>)
    ensures forall i :: 0 <= i < |xs| ==> AddedEvents(rel, xs)[i] == AddedEvent(rel, xs[i])
    decreases |xs|
  {
    if xs != [] {
      AddedEventsAt(rel, xs[..|xs| - 1]);
    }
  }

  lemma {:induction false} RemovedEventsAt(rel: Relation, xs: seq<Entity>)
    ensures forall i :: 0 <= i < |xs| ==> RemovedEvents(rel, xs)[i] == RemovedEvent(rel, xs[i])
    decreases |xs|
  {
    if xs != [] {
      RemovedEventsAt(rel, xs[..|xs| - 1]);
    }
  }

  lemma AddedEventsSnoc(rel: Relation, xs: seq<Entity>, x: Entity)
    ensures AddedEvents(rel, xs + [x]) == AddedEvents(rel, xs) + [AddedEvent(rel, x)]
  {
    assert (xs + [x])[..|xs|] == xs;
  }

  lemma RemovedEventsSnoc(rel: Relation, xs: seq<Entity>, x: Entity)
    ensures RemovedEvents(rel, xs + [x]) == RemovedEvents(rel, xs) + [RemovedEvent(rel, x)]
  {
    assert (xs + [x])[..|xs|] == xs;
  }

  /**
   * `notifyObservers`: the event goes to every registered observer, one
   * delivery per registration, in registration order: the `i`-th delivery
   * goes to the `i`-th registered observer.
   */
  function Broadcast(observers: seq<ObserverId>, e: Event): (r: seq<Delivery>)
    ensures |r| == |observers|
    ensures forall i :: 0 <= i < |observers| ==> r[i] == Delivery(observers[i], e)
    decreases |observers|
  {
    if observers == [] then []
    else Broadcast(observers[..|observers| - 1], e) + [Delivery(observers[|observers| - 1], e)]
  }

  /** Several events, each broadcast to all observers before the next one. */
  function BroadcastAll(observers: seq<ObserverId>, es: seq<Event>): (r: seq<Delivery>)
    decreases |es|
  {
    if es == [] then [] else BroadcastAll(observers, es[..|es| - 1]) + Broadcast(observers, es[|es| - 1])
  }

  lemma BroadcastAllSnoc(observers: seq<ObserverId>, es: seq<Event>, e: Event)
    ensures BroadcastAll(observers, es + [e]) == BroadcastAll(observers, es) + Broadcast(observers, e)
  {
    assert (es + [e])[..|es|] == es;
  }

  lemma {:induction false} BroadcastAllAppend(observers: seq<ObserverId>, es1: seq<Event>, es2: seq<Event>)
    ensures BroadcastAll(observers, es1 + es2) == BroadcastAll(observers, es1) + BroadcastAll(observers, es2)
    decreases |es2|
  {
    if es2 == [] {
      assert es1 + es2 == es1;
    } else {
      var init := es2[..|es2| - 1];
      var last := es2[|es2| - 1];
      assert es1 + es2 == (es1 + init) + [last];
      BroadcastAllSnoc(observers, es1 + init, last);
      BroadcastAllAppend(observers, es1, init);
      AppendAssociates(BroadcastAll(observers, es1), BroadcastAll(observers, init), Broadcast(observers, last));
    }
  }

  /** The events a given observer received, in the order it received them. */
  function DeliveredTo(log: seq<Delivery>, o: ObserverId): (r: seq<Event>)
    ensures |r| <= |log|
    decreases |log|
  {
    if log == [] then []
    else
      var last := log[|log| - 1];
      DeliveredTo(log[..|log| - 1], o) + (if last.observer == o then [last.event] else [])
  }

  lemma {:induction false} DeliveredToAppend(a: seq<Delivery>, b: seq<Delivery>, o: ObserverId)
    ensures DeliveredTo(a + b, o) == DeliveredTo(a, o) + DeliveredTo(b, o)
    decreases |b|
  {
    if b == [] {
      assert a + b == a;
    } else {
      var init := b[..|b| - 1];
      assert b == init + [b[|b| - 1]];
      assert a + b == (a + init) + [b[|b| - 1]];
      assert (a + b)[..|a + b| - 1] == a + init;
      DeliveredToAppend(a, init, o);
    }
  }

  /**
   * An observer registered `k` times receives a broadcast event `k` times:
   * one delivery per registration, and nothing else.
   */
  lemma {:induction false} BroadcastReachesEachRegistration(observers: seq<ObserverId>, e: Event, o: ObserverId)
    ensures |DeliveredTo(Broadcast(observers, e), o)| == multiset(observers)[o]
    ensures forall ev :: ev in DeliveredTo(Broadcast(observers, e), o) ==> ev == e
    decreases |observers|
  {
    if observers != [] {
      BroadcastReachesEachRegistration(observers[..|observers| - 1], e, o);
      OneMoreRegistration(observers, e, o);
    }
  }

  /** The last registration adds one delivery for its observer and none for anybody else. */
  lemma OneMoreRegistration(observers: seq<ObserverId>, e: Event, o: ObserverId)
    requires observers != []
    ensures var init := observers[..|observers| - 1];
      var last := observers[|observers| - 1];
      && DeliveredTo(Broadcast(observers, e), o)
         == DeliveredTo(Broadcast(init, e), o) + (if last == o then [e] else [])
      && multiset(observers)[o] == multiset(init)[o] + (if last == o then 1 else 0)
  {
    var init := observers[..|observers| - 1];
    var last := observers[|observers| - 1];
    assert observers == init + [last];
    DeliveredToAppend(Broadcast(init, e), [Delivery(last, e)], o);
    assert DeliveredTo([Delivery(last, e)], o) == if last == o then [e] else [];
  }

  /** With no observer registered twice, each registered observer receives a broadcast event exactly once. */
  lemma {:induction false} BroadcastReachesEachObserverOnce(observers: seq<ObserverId>, e: Event, o: ObserverId)
    requires NoDuplicates(observers)
    ensures DeliveredTo(Broadcast(observers, e), o) == if o in observers then [e] else []
    decreases |observers|
  {
    if observers != [] {
      NoDuplicatesInit(observers);
      BroadcastReachesEachObserverOnce(observers[..|observers| - 1], e, o);
      OneMoreObserver(observers, e, o);
    }
  }

  /** The last observer, registered for the first time, receives the broadcast once more than before: once. */
  lemma OneMoreObserver(observers: seq<ObserverId>, e: Event, o: ObserverId)
    requires observers != []
    requires observers[|observers| - 1] !in observers[..|observers| - 1]
    requires DeliveredTo(Broadcast(observers[..|observers| - 1], e), o)
          == if o in observers[..|observers| - 1] then [e] else []
    ensures DeliveredTo(Broadcast(observers, e), o) == if o in observers then [e] else []
  {
    OneMoreRegistration(observers, e, o);
    SplitLast(observers);
    AppendEmpty([e]);
    AppendEmpty<Event>([]);
  }

  /**
   * With no observer registered twice, each registered observer sees exactly
   * the broadcast events, in order; an unregistered one sees none.
   */
  lemma EachObserverSeesAllEvents(observers: seq<ObserverId>, es: seq<Event>, o: ObserverId)
    requires NoDuplicates(observers)
    ensures DeliveredTo(BroadcastAll(observers, es), o) == if o in observers then es else []
  {
    forall e | true
      ensures DeliveredTo(Broadcast(observers, e), o) == if o in observers then [e] else []
    {
      BroadcastReachesEachObserverOnce(observers, e, o);
    }
    SeesAllOrNothing(observers, es, o, o in observers);
  }

  /** An observer that receives every single broadcast, or none, receives all of a series of them, or none. */
  lemma {:induction false} SeesAllOrNothing(observers: seq<ObserverId>, es: seq<Event>, o: ObserverId, sees: bool)
    requires forall e :: DeliveredTo(Broadcast(observers, e), o) == if sees then [e] else []
    ensures DeliveredTo(BroadcastAll(observers, es), o) == if sees then es else []
    decreases |es|
  {
    if es != [] {
      SeesAllOrNothing(observers, es[..|es| - 1], o, sees);
      SeesOneMoreEvent(observers, es, o, sees);
    }
  }

  /** An observer that saw all earlier events, or none, and sees the last one, or not. */
  lemma SeesOneMoreEvent(observers: seq<ObserverId>, es: seq<Event>, o: ObserverId, sees: bool)
    requires es != []
    requires DeliveredTo(BroadcastAll(observers, es[..|es| - 1]), o) == if sees then es[..|es| - 1] else []
    requires DeliveredTo(Broadcast(observers, es[|es| - 1]), o) == if sees then [es[|es| - 1]] else []
    ensures DeliveredTo(BroadcastAll(observers, es), o) == if sees then es else []
  {
    var init := es[..|es| - 1];
    var last := es[|es| - 1];
    var earlier := BroadcastAll(observers, init);
    var latest := Broadcast(observers, last);
    assert BroadcastAll(observers, es) == earlier + latest;
    DeliveredToAppend(earlier, latest, o);
    SplitLast(es);
    AppendEmpty<Event>([]);
  }

  /** Each callback fired while `o` is the only observer is one delivery to `o`. */
  lemma ToSoleObserver(o: ObserverId, es: seq<Event>, e: Event)
    ensures BroadcastAll([o], es + [e]) == BroadcastAll([o], es) + [Delivery(o, e)]
  {
    BroadcastAllSnoc([o], es, e);
    assert [o][..0] == [];
  }

  /** While `o` is the only observer, the callbacks are one delivery to `o` per event, in order. */
  lemma {:induction false} SoleObserverLog(o: ObserverId, es: seq<Event>)
    ensures |BroadcastAll([o], es)| == |es|
    ensures forall i :: 0 <= i < |es| ==> BroadcastAll([o], es)[i] == Delivery(o, es[i])
    decreases |es|
  {
    if es != [] {
      var init, last := es[..|es| - 1], es[|es| - 1];
      SoleObserverLog(o, init);
      SplitLast(es);
      ToSoleObserver(o, init, last);
    }
  }

  /** The `added` events `addObserver(o, true)` replays: every extension, then every import. */
  function ReplayedEvents(extendsFrom: seq<Entity>, imports: seq<Entity>): (es: seq<Event>) {
    AddedEvents(Extension, extendsFrom) + AddedEvents(Import, imports)
  }

  /** The deliveries of that replay: one to the new observer `o` per replayed event, in order. */
  function Replay(o: ObserverId, extendsFrom: seq<Entity>, imports: seq<Entity>): (r: seq<Delivery>)
    ensures |r| == |extendsFrom| + |imports|
    ensures forall i :: 0 <= i < |r| ==> r[i] == Delivery(o, ReplayedEvents(extendsFrom, imports)[i])
  {
    SoleObserverLog(o, ReplayedEvents(extendsFrom, imports));
    BroadcastAll([o], ReplayedEvents(extendsFrom, imports))
  }

  /** A replay reaches the new observer only, and it sees every current relationship once, extensions first. */
  lemma ReplayReachesOnlyNewObserver(o: ObserverId, extendsFrom: seq<Entity>, imports: seq<Entity>, p: ObserverId)
    ensures DeliveredTo(Replay(o, extendsFrom, imports), p)
         == if p == o then ReplayedEvents(extendsFrom, imports) else []
  {
    EachObserverSeesAllEvents([o], ReplayedEvents(extendsFrom, imports), p);
  }

  /**
   * The replays of `addObservers(os, true)`: one full replay per observer, in
   * the given order. Only the new observers are told anything.
   */
  function ReplayEach(os: seq<ObserverId>, extendsFrom: seq<Entity>, imports: seq<Entity>): (r: seq<Delivery>)
    ensures forall i :: 0 <= i < |r| ==> r[i].observer in os
    decreases |os|
  {
    if os == [] then []
    else
      SplitLast(os);
      ReplayEach(os[..|os| - 1], extendsFrom, imports) + Replay(os[|os| - 1], extendsFrom, imports)
  }

  lemma ReplayEachSnoc(os: seq<ObserverId>, o: ObserverId, extendsFrom: seq<Entity>, imports: seq<Entity>)
    ensures ReplayEach(os + [o], extendsFrom, imports)
         == ReplayEach(os, extendsFrom, imports) + Replay(o, extendsFrom, imports)
  {
    assert (os + [o])[..|os|] == os;
  }

  /**
   * With no observer given twice, each of the new observers sees the current
   * relationships replayed exactly once; nobody else sees anything.
   */
  lemma {:induction false} ReplayEachPerObserver(os: seq<ObserverId>, extendsFrom: seq<Entity>, imports: seq<Entity>, p: ObserverId)
    requires NoDuplicates(os)
    ensures DeliveredTo(ReplayEach(os, extendsFrom, imports), p)
         == if p in os then ReplayedEvents(extendsFrom, imports) else []
    decreases |os|
  {
    if os != [] {
      NoDuplicatesInit(os);
      ReplayEachPerObserver(os[..|os| - 1], extendsFrom, imports, p);
      ReplayOneMoreObserver(os, extendsFrom, imports, p);
    }
  }

  /** The last observer's replay reaches only that observer, which was not among the earlier ones. */
  lemma ReplayOneMoreObserver(os: seq<ObserverId>, extendsFrom: seq<Entity>, imports: seq<Entity>, p: ObserverId)
    requires os != []
    requires os[|os| - 1] !in os[..|os| - 1]
    requires DeliveredTo(ReplayEach(os[..|os| - 1], extendsFrom, imports), p)
          == if p in os[..|os| - 1] then ReplayedEvents(extendsFrom, imports) else []
    ensures DeliveredTo(ReplayEach(os, extendsFrom, imports), p)
         == if p in os then ReplayedEvents(extendsFrom, imports) else []
  {
    var init := os[..|os| - 1];
    var last := os[|os| - 1];
    var earlier := ReplayEach(init, extendsFrom, imports);
    var latest := Replay(last, extendsFrom, imports);
    assert ReplayEach(os, extendsFrom, imports) == earlier + latest;
    DeliveredToAppend(earlier, latest, p);
    ReplayReachesOnlyNewObserver(last, extendsFrom, imports, p);
    SplitLast(os);
    AppendEmpty(ReplayedEvents(extendsFrom, imports));
    AppendEmpty<Event>([]);
  }
}
