/**
 * Concrete uses of a test set, each stating the exact state and callbacks
 * the modelled code produces for it.
 */
module Scenarios {
  import opened ObservableSets
  import opened Entities
  import opened Observers
  import opened TestSetBases

  const Shared := Entity("shared", TestLibrary)
  const Unit := Entity("unitTest", TestSet)
  const Integration := Entity("integrationTest", TestSet)

  /** The names registered in a project with two test sets and two test libraries. */
  const Registered := map["unitTest" := TestSet, "integrationTest" := TestSet,
                          "shared" := TestLibrary, "fixtures" := TestLibrary]

  method NewProject() returns (c: TestSetContainer)
    ensures fresh(c)
    ensures c.entries == Registered
  {
    c := new TestSetContainer(Registered);
  }

  /** Callbacks fired while no observer is registered reach no one. */
  lemma {:induction false} BroadcastToNobody(es: seq<Event>)
    ensures BroadcastAll([], es) == []
    decreases |es|
  {
    if es != [] {
      BroadcastToNobody(es[..|es| - 1]);
    }
  }

  /** `imports("shared")` resolves to the library; `imports("unitTest")` fails on its only argument. */
  lemma ImportNames()
    ensures ResolveAll(Registered, Import, [Name("shared")]) == Resolution([Shared], Pass)
    ensures ResolveAll(Registered, Import, [Name("unitTest")])
         == Resolution([], Fail(IllegalArgument(NotALibrary("unitTest"))))
  {
    assert [Name("shared")][1..] == [];
  }

  /** A single entity argument of the right kind resolves to itself. */
  lemma ResolveOne(rel: Relation, x: Entity)
    requires rel == Import ==> x.kind == TestLibrary
    ensures ResolveAll(map[], rel, [Ref(x)]) == Resolution([x], Pass)
  {
    assert [Ref(x)][1..] == [];
  }

  /** A single element added to an empty set. */
  lemma InsertOne(x: Entity)
    ensures InsertAll([], [x]) == [x]
    ensures NewlyAdded([], [x]) == [x]
  {
    assert [x][..0] == [];
  }

  /** Two callbacks fired while `o` is the only observer. */
  lemma TwoToSoleObserver(o: ObserverId, e1: Event, e2: Event)
    ensures BroadcastAll([o], [e1, e2]) == [Delivery(o, e1), Delivery(o, e2)]
  {
    SoleObserverLog(o, [e1, e2]);
  }

  /** Three callbacks fired while `o` is the only observer. */
  lemma ThreeToSoleObserver(o: ObserverId, e1: Event, e2: Event, e3: Event)
    ensures BroadcastAll([o], [e1, e2, e3]) == [Delivery(o, e1), Delivery(o, e2), Delivery(o, e3)]
  {
    SoleObserverLog(o, [e1, e2, e3]);
  }

  /** The callbacks an observer registered alone gets from assigning `[a]` to empty imports. */
  lemma FirstAssignmentLog(o: ObserverId, a: Entity)
    ensures BroadcastAll([o], ReassignmentEvents(Import, [], [a])) == [Delivery(o, ImportAdded(a))]
  {
    InsertOne(a);
    assert ReassignmentEvents(Import, [], [a]) == [] + [ImportAdded(a)];
    ToSoleObserver(o, [], ImportAdded(a));
  }

  /** The events of assigning `[b, a]` to imports that hold `[a]`. */
  lemma SecondAssignmentEvents(a: Entity, b: Entity)
    requires a != b
    ensures ReassignmentEvents(Import, [a], [b, a]) == [ImportRemoved(a), ImportAdded(b), ImportAdded(a)]
  {
    InsertAllOfDistinct([b, a]);
    assert [b] == [] + [b] && [b, a] == [b] + [a] && [a] == [] + [a];
    AddedEventsSnoc(Import, [], b);
    AddedEventsSnoc(Import, [b], a);
    RemovedEventsSnoc(Import, [], a);
  }

  /** The callbacks an observer registered alone gets from that second assignment. */
  lemma SecondAssignmentLog(o: ObserverId, a: Entity, b: Entity)
    requires a != b
    ensures BroadcastAll([o], ReassignmentEvents(Import, [a], [b, a]))
         == [Delivery(o, ImportRemoved(a)), Delivery(o, ImportAdded(b)), Delivery(o, ImportAdded(a))]
  {
    SecondAssignmentEvents(a, b);
    ThreeToSoleObserver(o, ImportRemoved(a), ImportAdded(b), ImportAdded(a));
  }

  /** The whole log of `ReassignImports`. */
  lemma ReassignImportsLog(log: seq<Delivery>, o: ObserverId, a: Entity, b: Entity)
    requires a != b
    requires log == [] + BroadcastAll([o], ReassignmentEvents(Import, [], [a]))
                    + BroadcastAll([o], ReassignmentEvents(Import, InsertAll([], [a]), [b, a]))
    ensures log == [Delivery(o, ImportAdded(a)), Delivery(o, ImportRemoved(a)),
                    Delivery(o, ImportAdded(b)), Delivery(o, ImportAdded(a))]
  {
    InsertOne(a);
    FirstAssignmentLog(o, a);
    SecondAssignmentLog(o, a, b);
  }

  /** The replay to a new observer `o` of a test set extending `u` and importing `l`. */
  lemma ReplayOneOfEach(o: ObserverId, u: Entity, l: Entity)
    ensures Replay(o, [u], [l]) == [Delivery(o, ExtendsFromAdded(u)), Delivery(o, ImportAdded(l))]
  {
    assert [u][..0] == [] && [l][..0] == [];
    assert ReplayedEvents([u], [l]) == [ExtendsFromAdded(u), ImportAdded(l)];
    TwoToSoleObserver(o, ExtendsFromAdded(u), ImportAdded(l));
  }

  /** The replays of `addObservers([p, q])` to that test set: all of `p`'s, then all of `q`'s. */
  lemma LateReplayLog(p: ObserverId, q: ObserverId, u: Entity, l: Entity)
    ensures ReplayEach([p, q], [u], [l])
         == [Delivery(p, ExtendsFromAdded(u)), Delivery(p, ImportAdded(l)),
             Delivery(q, ExtendsFromAdded(u)), Delivery(q, ImportAdded(l))]
  {
    ReplayOneOfEach(p, u, l);
    ReplayOneOfEach(q, u, l);
    assert [p] == [] + [p] && [p, q] == [p] + [q];
    ReplayEachSnoc([], p, [u], [l]);
    ReplayEachSnoc([p], q, [u], [l]);
  }

  /** An observer that arrives before anything is added gets no replay. */
  lemma NothingToReplay(o: ObserverId)
    ensures Replay(o, [], []) == []
  {
    assert ReplayedEvents([], []) == [];
  }

  /**
   * `imports("shared")` imports the library; `imports("unitTest")` names a
   * test set and fails with the message that points to `extendsFrom`,
   * leaving the imports as they were.
   */
  method ImportByName() returns (first: Outcome, second: Outcome, imported: seq<Entity>)
    ensures first == Pass
    ensures second == Fail(IllegalArgument(NotALibrary("unitTest")))
    ensures imported == [Shared]
  {
    var c := NewProject();
    var t := new TestSetBase(c, "integrationTest", TestSet);
    first := t.Imports([Name("shared")]);
    second := t.Imports([Name("unitTest")]);
    imported := t.imports;
    ImportNames();
    InsertOne(Shared);
  }

  /**
   * `extendsFrom(unitTest, 42, "shared")`: the first argument is added, the
   * second is illegal, and the third is never looked at.
   */
  method ExtendsFromStopsAtFirstBadArgument() returns (outcome: Outcome, extended: seq<Entity>)
    ensures outcome == Fail(IllegalArgument(ExtendsFromArgument))
    ensures extended == [Unit]
  {
    var c := NewProject();
    var t := new TestSetBase(c, "integrationTest", TestSet);
    outcome := t.ExtendsFrom([Ref(Unit), Other, Name("shared")]);
    extended := t.extendsFrom;
  }

  /** A test set may be made to extend from itself; nothing forbids it. */
  method ExtendsFromItself() returns (outcome: Outcome, extended: seq<Entity>)
    ensures outcome == Pass
    ensures extended == [Integration]
  {
    var c := NewProject();
    var t := new TestSetBase(c, "integrationTest", TestSet);
    outcome := t.ExtendsFrom([Ref(t.AsEntity())]);
    extended := t.extendsFrom;
  }

  /** A new test set with one observer `o`, registered while there was nothing to replay. */
  method ObservedTestSet(o: ObserverId) returns (t: TestSetBase)
    ensures fresh(t) && t.Valid()
    ensures t.extendsFrom == [] && t.imports == []
    ensures t.observers == [o] && t.delivered == []
  {
    var c := new TestSetContainer(map[]);
    t := new TestSetBase(c, "integrationTest", TestSet);
    t.AddObserver(o);
    NothingToReplay(o);
  }

  /**
   * Assigning `[b, a]` to imports that hold `[a]`: `a` is reported removed
   * and then added again, after `b`.
   */
  method ReassignImports(o: ObserverId, a: Entity, b: Entity) returns (log: seq<Delivery>, imported: seq<Entity>)
    requires a.kind == TestLibrary && b.kind == TestLibrary && a != b
    ensures imported == [b, a]
    ensures log == [Delivery(o, ImportAdded(a)), Delivery(o, ImportRemoved(a)),
                    Delivery(o, ImportAdded(b)), Delivery(o, ImportAdded(a))]
  {
    var t := ObservedTestSet(o);
    t.SetImports([a]);
    t.SetImports([b, a]);
    log := t.delivered;
    imported := t.imports;
    InsertOne(a);
    InsertAllOfDistinct([b, a]);
    ReassignImportsLog(log, o, a, b);
  }

  /**
   * A test set that extends `u` and imports `l`, made through `extendsFrom(u)`
   * and `imports(l)` before any observer was registered, so that no callback
   * was made.
   */
  method TestSetWith(u: Entity, l: Entity) returns (t: TestSetBase)
    requires l.kind == TestLibrary
    ensures fresh(t) && t.Valid()
    ensures t.extendsFrom == [u] && t.imports == [l]
    ensures t.observers == [] && t.delivered == []
  {
    var c := new TestSetContainer(map[]);
    t := new TestSetBase(c, "integrationTest", TestSet);
    var o1 := t.Imports([Ref(l)]);
    var o2 := t.ExtendsFrom([Ref(u)]);
    ResolveOne(Import, l);
    ResolveOne(Extension, u);
    InsertOne(l);
    InsertOne(u);
    BroadcastToNobody(AddedEvents(Import, [l]));
    BroadcastToNobody(AddedEvents(Extension, [u]));
  }

  /**
   * Observers registered after a test set was given an extension `u` and an
   * import `l` are each told about the extension and then the import, one
   * observer after the other.
   */
  method LateObserversCatchUp(p: ObserverId, q: ObserverId, u: Entity, l: Entity) returns (log: seq<Delivery>)
    requires l.kind == TestLibrary
    ensures log == [Delivery(p, ExtendsFromAdded(u)), Delivery(p, ImportAdded(l)),
                    Delivery(q, ExtendsFromAdded(u)), Delivery(q, ImportAdded(l))]
  {
    var t := TestSetWith(u, l);
    t.AddObservers([p, q]);
    log := t.delivered;
    LateReplayLog(p, q, u, l);
  }

  /**
   * Setting the directory name to a new value tells every observer, in
   * registration order; setting it to the value it already has tells no one.
   */
  method RenameDirectory() returns (log: seq<Delivery>, dirName: string)
    ensures dirName == "it"
    ensures log == [Delivery(3, DirNameChanged("integrationTest", "it")),
                    Delivery(1, DirNameChanged("integrationTest", "it"))]
  {
    var c := NewProject();
    var t := new TestSetBase(c, "integrationTest", TestSet);
    t.AddObservers([3, 1], false);
    t.SetDirName("it");
    t.SetDirName("it");
    log := t.delivered;
    dirName := t.dirName;
  }

  /**
   * `extendsFrom = extendsFrom` as written empties the set, while assigning
   * a snapshot of the same elements keeps them.
   */
  method AssignExtensionsToThemselves() returns (asWritten: seq<Entity>, snapshot: seq<Entity>)
    ensures asWritten == []
    ensures snapshot == [Unit]
  {
    var c := NewProject();
    var t := new TestSetBase(c, "integrationTest", TestSet);
    var o := t.ExtendsFrom([Ref(Unit)]);
    t.AssignBackingSetToItself(Extension);
    asWritten := t.extendsFrom;

    var u := new TestSetBase(c, "integrationTest", TestSet);
    o := u.ExtendsFrom([Ref(Unit)]);
    u.SetExtendsFrom(u.extendsFrom);
    snapshot := u.extendsFrom;
  }
}
