/**
 * `AbstractTestSetBase`: the state a test set or test library keeps (its
 * fixed name, directory name, artifact settings, the two relationship sets
 * and its observers) and the mutators that change it and notify observers.
 */
module TestSetBases {
  import opened ObservableSets
  import opened Entities
  import opened Observers

  /**
   * The events of assigning a whole collection `value` to a relationship set
   * that holds `current`: the set is cleared, which reports every current
   * element as removed, in set order, and then refilled, which reports every
   * element of `value` (each once, in order of first occurrence) as added.
   */
  function ReassignmentEvents(rel: Relation, current: seq<Entity>, value: seq<Entity>): (es: seq<Event>)
    ensures var added := InsertAll([], value);
      && |es| == |current| + |added|
      && (forall i :: 0 <= i < |current| ==> es[i] == RemovedEvent(rel, current[i]))
      && (forall i :: |current| <= i < |es| ==> es[i] == AddedEvent(rel, added[i - |current|]))
  {
    RemovedEventsAt(rel, current);
    AddedEventsAt(rel, InsertAll([], value));
    RemovedEvents(rel, current) + AddedEvents(rel, InsertAll([], value))
  }

  predicate IsRemoval(e: Event) {
    e.ExtendsFromRemoved? || e.ImportRemoved?
  }

  predicate IsAddition(e: Event) {
    e.ExtendsFromAdded? || e.ImportAdded?
  }

  /** Whole-set assignment reports an element removed exactly when it was a member. */
  lemma ReassignmentReportsRemovals(rel: Relation, current: seq<Entity>, value: seq<Entity>)
    ensures forall x :: RemovedEvent(rel, x) in ReassignmentEvents(rel, current, value) <==> x in current
  {
    var es := ReassignmentEvents(rel, current, value);
    forall x ensures RemovedEvent(rel, x) in es <==> x in current {
      if x in current {
        var i :| 0 <= i < |current| && current[i] == x;
        assert es[i] == RemovedEvent(rel, x);
      }
    }
  }

  /** Whole-set assignment reports an element added exactly when it is in the new value. */
  lemma ReassignmentReportsAdditions(rel: Relation, current: seq<Entity>, value: seq<Entity>)
    ensures forall x :: AddedEvent(rel, x) in ReassignmentEvents(rel, current, value) <==> x in value
  {
    var es := ReassignmentEvents(rel, current, value);
    var added := InsertAll([], value);
    InsertAllSpec([], value);
    forall x ensures AddedEvent(rel, x) in es <==> x in value {
      if x in added {
        var i :| 0 <= i < |added| && added[i] == x;
        assert es[|current| + i] == AddedEvent(rel, x);
      }
    }
  }

  /** Whole-set assignment reports no addition before a removal. */
  lemma ReassignmentRemovesFirst(rel: Relation, current: seq<Entity>, value: seq<Entity>)
    ensures var es := ReassignmentEvents(rel, current, value);
      forall i, j :: 0 <= i < j < |es| ==> !(IsAddition(es[i]) && IsRemoval(es[j]))
  {
  }

  /** Whole-set assignment reports no event twice. */
  lemma ReassignmentReportsOnce(rel: Relation, current: seq<Entity>, value: seq<Entity>)
    requires NoDuplicates(current)
    ensures NoDuplicates(ReassignmentEvents(rel, current, value))
  {
    var es := ReassignmentEvents(rel, current, value);
    var added := InsertAll([], value);
    var n := |current|;
    InsertAllSpec([], value);
    forall i, j | 0 <= i < j < |es| ensures es[i] != es[j] {
      if j < n {
        assert current[i] != current[j];
      } else if n <= i {
        assert added[i - n] != added[j - n];
      }
    }
  }

  /**
   * One `add(x)` at the end of a run of adds: the set and the callbacks so far
   * are those of adding `xs + [x]`.
   */
  lemma AddStep(rel: Relation, m0: seq<Entity>, xs: seq<Entity>, x: Entity, observers: seq<ObserverId>,
                d0: seq<Delivery>, d1: seq<Delivery>, d2: seq<Delivery>)
    requires d1 == d0 + BroadcastAll(observers, AddedEvents(rel, NewlyAdded(m0, xs)))
    requires d2 == d1 + if x in InsertAll(m0, xs) then [] else Broadcast(observers, AddedEvent(rel, x))
    ensures InsertAll(m0, xs + [x]) == Inserted(InsertAll(m0, xs), x)
    ensures d2 == d0 + BroadcastAll(observers, AddedEvents(rel, NewlyAdded(m0, xs + [x])))
  {
    InsertAllSnoc(m0, xs, x);
    if x in InsertAll(m0, xs) {
      AddStepMember(rel, m0, xs, x, observers, d0, d1);
    } else {
      AddStepNew(rel, m0, xs, x, observers, d0, d1, d2);
    }
  }

  /** Adding a member changes neither the set nor the callbacks. */
  lemma AddStepMember(rel: Relation, m0: seq<Entity>, xs: seq<Entity>, x: Entity, observers: seq<ObserverId>,
                      d0: seq<Delivery>, d1: seq<Delivery>)
    requires x in InsertAll(m0, xs)
    requires d1 == d0 + BroadcastAll(observers, AddedEvents(rel, NewlyAdded(m0, xs)))
    ensures d1 == d0 + BroadcastAll(observers, AddedEvents(rel, NewlyAdded(m0, xs + [x])))
  {
    NewlyAddedSnoc(m0, xs, x);
    assert NewlyAdded(m0, xs) + [] == NewlyAdded(m0, xs);
  }

  /** Adding a non-member fires its `added` callback after all earlier ones. */
  lemma AddStepNew(rel: Relation, m0: seq<Entity>, xs: seq<Entity>, x: Entity, observers: seq<ObserverId>,
                   d0: seq<Delivery>, d1: seq<Delivery>, d2: seq<Delivery>)
    requires x !in InsertAll(m0, xs)
    requires d1 == d0 + BroadcastAll(observers, AddedEvents(rel, NewlyAdded(m0, xs)))
    requires d2 == d1 + Broadcast(observers, AddedEvent(rel, x))
    ensures d2 == d0 + BroadcastAll(observers, AddedEvents(rel, NewlyAdded(m0, xs + [x])))
  {
    NewlyAddedSnoc(m0, xs, x);
    AddedDeliveriesSnoc(observers, rel, NewlyAdded(m0, xs), x);
    AppendAssociates(d0, BroadcastAll(observers, AddedEvents(rel, NewlyAdded(m0, xs))),
                     Broadcast(observers, AddedEvent(rel, x)));
  }

  /** The callbacks for one more added element follow those for the earlier ones. */
  lemma AddedDeliveriesSnoc(observers: seq<ObserverId>, rel: Relation, news: seq<Entity>, x: Entity)
    ensures BroadcastAll(observers, AddedEvents(rel, news + [x]))
         == BroadcastAll(observers, AddedEvents(rel, news)) + Broadcast(observers, AddedEvent(rel, x))
  {
    AddedEventsSnoc(rel, news, x);
    BroadcastAllSnoc(observers, AddedEvents(rel, news), AddedEvent(rel, x));
  }

  /** One more extension replayed to the new observer `o`. */
  lemma ReplayExtensionStep(o: ObserverId, extendsFrom: seq<Entity>, i: nat, d0: seq<Delivery>, d1: seq<Delivery>)
    requires i < |extendsFrom|
    requires d1 == d0 + Replay(o, extendsFrom[..i], [])
    ensures d1 + [Delivery(o, ExtendsFromAdded(extendsFrom[i]))] == d0 + Replay(o, extendsFrom[..i + 1], [])
  {
    var x := extendsFrom[i];
    assert extendsFrom[..i + 1] == extendsFrom[..i] + [x];
    AddedEventsSnoc(Extension, extendsFrom[..i], x);
    assert ReplayedEvents(extendsFrom[..i + 1], []) == ReplayedEvents(extendsFrom[..i], []) + [ExtendsFromAdded(x)];
    BroadcastAllSnoc([o], ReplayedEvents(extendsFrom[..i], []), ExtendsFromAdded(x));
    assert Broadcast([o], ExtendsFromAdded(x)) == [Delivery(o, ExtendsFromAdded(x))];
    AppendAssociates(d0, Replay(o, extendsFrom[..i], []), [Delivery(o, ExtendsFromAdded(x))]);
  }

  /** One more import replayed to the new observer `o`, after all extensions. */
  lemma ReplayImportStep(o: ObserverId, extendsFrom: seq<Entity>, imports: seq<Entity>, i: nat,
                         d0: seq<Delivery>, d1: seq<Delivery>)
    requires i < |imports|
    requires d1 == d0 + Replay(o, extendsFrom, imports[..i])
    ensures d1 + [Delivery(o, ImportAdded(imports[i]))] == d0 + Replay(o, extendsFrom, imports[..i + 1])
  {
    var x := imports[i];
    assert imports[..i + 1] == imports[..i] + [x];
    AddedEventsSnoc(Import, imports[..i], x);
    assert ReplayedEvents(extendsFrom, imports[..i + 1]) == ReplayedEvents(extendsFrom, imports[..i]) + [ImportAdded(x)];
    BroadcastAllSnoc([o], ReplayedEvents(extendsFrom, imports[..i]), ImportAdded(x));
    assert Broadcast([o], ImportAdded(x)) == [Delivery(o, ImportAdded(x))];
    AppendAssociates(d0, Replay(o, extendsFrom, imports[..i]), [Delivery(o, ImportAdded(x))]);
  }

  /** Between the two replay loops: all extensions done, no import yet. */
  lemma ReplayHalfway(o: ObserverId, extendsFrom: seq<Entity>, imports: seq<Entity>)
    ensures Replay(o, extendsFrom[..|extendsFrom|], []) == Replay(o, extendsFrom, imports[..0])
  {
    assert extendsFrom[..|extendsFrom|] == extendsFrom;
    assert imports[..0] == [];
  }

  /** One more element of a cleared set announced as removed. */
  lemma ClearStep(observers: seq<ObserverId>, rel: Relation, done: seq<Entity>, x: Entity,
                  d0: seq<Delivery>, d1: seq<Delivery>)
    requires d1 == d0 + BroadcastAll(observers, RemovedEvents(rel, done))
    ensures d1 + Broadcast(observers, RemovedEvent(rel, x))
         == d0 + BroadcastAll(observers, RemovedEvents(rel, done + [x]))
  {
    RemovedDeliveriesSnoc(observers, rel, done, x);
    AppendAssociates(d0, BroadcastAll(observers, RemovedEvents(rel, done)), Broadcast(observers, RemovedEvent(rel, x)));
  }

  /** The callbacks for one more removed element follow those for the earlier ones. */
  lemma RemovedDeliveriesSnoc(observers: seq<ObserverId>, rel: Relation, gone: seq<Entity>, x: Entity)
    ensures BroadcastAll(observers, RemovedEvents(rel, gone + [x]))
         == BroadcastAll(observers, RemovedEvents(rel, gone)) + Broadcast(observers, RemovedEvent(rel, x))
  {
    RemovedEventsSnoc(rel, gone, x);
    BroadcastAllSnoc(observers, RemovedEvents(rel, gone), RemovedEvent(rel, x));
  }

  /** The callbacks of clearing a set holding `current` and then adding the elements of `value`. */
  lemma ReassignmentDeliveries(observers: seq<ObserverId>, rel: Relation, current: seq<Entity>, value: seq<Entity>,
                               d0: seq<Delivery>, d1: seq<Delivery>, d2: seq<Delivery>)
    requires d1 == d0 + BroadcastAll(observers, RemovedEvents(rel, current))
    requires d2 == d1 + BroadcastAll(observers, AddedEvents(rel, NewlyAdded([], value)))
    ensures d2 == d0 + BroadcastAll(observers, ReassignmentEvents(rel, current, value))
  {
    var removals := RemovedEvents(rel, current);
    var additions := AddedEvents(rel, InsertAll([], value));
    assert NewlyAdded([], value) == InsertAll([], value);
    BroadcastAllAppend(observers, removals, additions);
    AppendAssociates(d0, BroadcastAll(observers, removals), BroadcastAll(observers, additions));
  }

  /** One more observer of `addObservers(os, notifyExisting)`: its replay follows the earlier ones. */
  lemma ReplayEachStep(os: seq<ObserverId>, i: nat, extendsFrom: seq<Entity>, imports: seq<Entity>, notifyExisting: bool,
                       d0: seq<Delivery>, d1: seq<Delivery>, d2: seq<Delivery>)
    requires i < |os|
    requires d1 == d0 + if notifyExisting then ReplayEach(os[..i], extendsFrom, imports) else []
    requires d2 == d1 + if notifyExisting then Replay(os[i], extendsFrom, imports) else []
    ensures d2 == d0 + if notifyExisting then ReplayEach(os[..i + 1], extendsFrom, imports) else []
  {
    assert os[..i + 1] == os[..i] + [os[i]];
    ReplayEachSnoc(os[..i], os[i], extendsFrom, imports);
  }

  class TestSetBase {
    const container: TestSetContainer
    const name: string
    /** Whether the concrete object is a test set or a test library. */
    const variant: Kind
    var dirName: string
    var createArtifact: bool
    var classifier: string
    var extendsFrom: seq<Entity>
    var imports: seq<Entity>
    var observers: seq<ObserverId>
    /** Every observer callback made so far, in order. */
    var delivered: seq<Delivery>

    /** Both relationship sets are sets, and only test libraries are imported. */
    ghost predicate Valid()
      reads this
    {
      && NoDuplicates(extendsFrom)
      && NoDuplicates(imports)
      && forall e :: e in imports ==> e.kind == TestLibrary
    }

    /** This object as an element of a relationship set (as in `extendsFrom(this)`). */
    function AsEntity(): (e: Entity) {
      Entity(name, variant)
    }

    /** The current contents of the relationship set `rel`. */
    function Members(rel: Relation): (m: seq<Entity>)
      reads this
    {
      match rel
      case Extension => extendsFrom
      case Import => imports
    }

    constructor (container: TestSetContainer, name: string, variant: Kind)
      ensures Valid()
      ensures this.container == container && this.name == name && this.variant == variant
      ensures dirName == name && classifier == name && !createArtifact
      ensures extendsFrom == [] && imports == []
      ensures observers == [] && delivered == []
    {
      this.container := container;
      this.name := name;
      this.variant := variant;
      dirName := name;
      createArtifact := false;
      classifier := name;
      extendsFrom := [];
      imports := [];
      observers := [];
      delivered := [];
    }

    /** `notifyObservers`: one callback per registered observer, in registration order. */
    method NotifyObservers(e: Event)
      modifies this`delivered
      ensures delivered == old(delivered) + Broadcast(observers, e)
    {
      for i := 0 to |observers|
        invariant delivered == old(delivered) + Broadcast(observers[..i], e)
      {
        assert observers[..i + 1][..i] == observers[..i];
        delivered := delivered + [Delivery(observers[i], e)];
      }
      assert observers[..|observers|] == observers;
    }

    /** The `dirName` setter: a different value is stored and announced with the value it replaces. */
    method SetDirName(value: string)
      modifies this`dirName, this`delivered
      ensures dirName == value
      ensures delivered == old(delivered)
                           + if old(dirName) == value then []
                             else Broadcast(observers, DirNameChanged(old(dirName), value))
    {
      if dirName != value {
        var oldValue := dirName;
        dirName := value;
        NotifyObservers(DirNameChanged(oldValue, value));
      }
    }

    /** The `createArtifact` setter: a plain field, no callback. */
    method SetCreateArtifact(value: bool)
      modifies this`createArtifact
      ensures createArtifact == value
    {
      createArtifact := value;
    }

    /** The `classifier` setter: a plain field, no callback. */
    method SetClassifier(value: string)
      modifies this`classifier
      ensures classifier == value
    {
      classifier := value;
    }

    /** `add(x)` on a relationship set: a new member is appended and announced, a member changes nothing. */
    method Add(rel: Relation, x: Entity)
      modifies this`extendsFrom, this`imports, this`delivered
      ensures Members(rel) == Inserted(old(Members(rel)), x)
      ensures rel == Extension ==> imports == old(imports)
      ensures rel == Import ==> extendsFrom == old(extendsFrom)
      ensures delivered == old(delivered)
                           + if x in old(Members(rel)) then [] else Broadcast(observers, AddedEvent(rel, x))
    {
      InsertedSpec(Members(rel), x);
      if x !in Members(rel) {
        if rel == Extension {
          extendsFrom := extendsFrom + [x];
        } else {
          imports := imports + [x];
        }
        NotifyObservers(AddedEvent(rel, x));
      }
    }

    /**
     * `remove(x)` on a relationship set, as reached through the live set the
     * getter returns: a member is dropped and announced as removed; removing a
     * non-member changes nothing and announces nothing.
     */
    method Remove(rel: Relation, x: Entity)
      requires Valid()
      modifies this`extendsFrom, this`imports, this`delivered
      ensures Valid()
      ensures Members(rel) == Removed(old(Members(rel)), x)
      ensures rel == Extension ==> imports == old(imports)
      ensures rel == Import ==> extendsFrom == old(extendsFrom)
      ensures delivered == old(delivered)
                           + if x in old(Members(rel)) then Broadcast(observers, RemovedEvent(rel, x)) else []
    {
      RemovedSpec(Members(rel), x);
      if x in Members(rel) {
        if rel == Extension {
          extendsFrom := Removed(extendsFrom, x);
        } else {
          imports := Removed(imports, x);
        }
        NotifyObservers(RemovedEvent(rel, x));
      } else {
        RemovedAbsent(Members(rel), x);
      }
    }

    /** One more `add(x)` after adding `xs` to a set that held `m0`, the callbacks so far having started at `d0`. */
    method AddNext(rel: Relation, x: Entity, ghost m0: seq<Entity>, ghost xs: seq<Entity>, ghost d0: seq<Delivery>)
      requires Members(rel) == InsertAll(m0, xs)
      requires delivered == d0 + BroadcastAll(observers, AddedEvents(rel, NewlyAdded(m0, xs)))
      modifies this`extendsFrom, this`imports, this`delivered
      ensures Members(rel) == InsertAll(m0, xs + [x])
      ensures delivered == d0 + BroadcastAll(observers, AddedEvents(rel, NewlyAdded(m0, xs + [x])))
      ensures rel == Extension ==> imports == old(imports)
      ensures rel == Import ==> extendsFrom == old(extendsFrom)
    {
      ghost var d1 := delivered;
      Add(rel, x);
      AddStep(rel, m0, xs, x, observers, d0, d1, delivered);
    }

    /** `addAll(xs)` on a relationship set: the elements are added one at a time, left to right. */
    method AddAll(rel: Relation, xs: seq<Entity>)
      modifies this`extendsFrom, this`imports, this`delivered
      ensures Members(rel) == InsertAll(old(Members(rel)), xs)
      ensures rel == Extension ==> imports == old(imports)
      ensures rel == Import ==> extendsFrom == old(extendsFrom)
      ensures delivered == old(delivered)
                           + BroadcastAll(observers, AddedEvents(rel, NewlyAdded(old(Members(rel)), xs)))
    {
      ghost var m0 := Members(rel);
      ghost var done: seq<Entity> := [];
      for i := 0 to |xs|
        invariant done == xs[..i]
        invariant Members(rel) == InsertAll(m0, done)
        invariant rel == Extension ==> imports == old(imports)
        invariant rel == Import ==> extendsFrom == old(extendsFrom)
        invariant delivered == old(delivered) + BroadcastAll(observers, AddedEvents(rel, NewlyAdded(m0, done)))
      {
        AddNext(rel, xs[i], m0, done, old(delivered));
        TakeOneMore(xs, i);
        done := done + [xs[i]];
      }
      assert done == xs;
    }

    /** `clear()` on a relationship set: every element is announced as removed, in iteration order. */
    method Clear(rel: Relation)
      modifies this`extendsFrom, this`imports, this`delivered
      ensures Members(rel) == []
      ensures rel == Extension ==> imports == old(imports)
      ensures rel == Import ==> extendsFrom == old(extendsFrom)
      ensures delivered == old(delivered) + BroadcastAll(observers, RemovedEvents(rel, old(Members(rel))))
    {
      var removed := Members(rel);
      if rel == Extension {
        extendsFrom := [];
      } else {
        imports := [];
      }
      ghost var done: seq<Entity> := [];
      for i := 0 to |removed|
        invariant done == removed[..i]
        invariant Members(rel) == []
        invariant rel == Extension ==> imports == old(imports)
        invariant rel == Import ==> extendsFrom == old(extendsFrom)
        invariant delivered == old(delivered) + BroadcastAll(observers, RemovedEvents(rel, done))
      {
        ghost var d1 := delivered;
        NotifyObservers(RemovedEvent(rel, removed[i]));
        ClearStep(observers, rel, done, removed[i], old(delivered), d1);
        TakeOneMore(removed, i);
        done := done + [removed[i]];
      }
      assert done == removed;
    }

    /** The setter shared by `extendsFrom = value` and `imports = value`: clear, then add all. */
    method Assign(rel: Relation, value: seq<Entity>)
      modifies this`extendsFrom, this`imports, this`delivered
      ensures Members(rel) == InsertAll([], value)
      ensures rel == Extension ==> imports == old(imports)
      ensures rel == Import ==> extendsFrom == old(extendsFrom)
      ensures delivered == old(delivered)
                           + BroadcastAll(observers, ReassignmentEvents(rel, old(Members(rel)), value))
    {
      ghost var d0 := delivered;
      Clear(rel);
      ghost var d1 := delivered;
      AddAll(rel, value);
      ReassignmentDeliveries(observers, rel, old(Members(rel)), value, d0, d1, delivered);
    }

    /** `extendsFrom = value`. */
    method SetExtendsFrom(value: seq<Entity>)
      requires Valid()
      modifies this`extendsFrom, this`imports, this`delivered
      ensures Valid()
      ensures extendsFrom == InsertAll([], value) && imports == old(imports)
      ensures delivered == old(delivered)
                           + BroadcastAll(observers, ReassignmentEvents(Extension, old(extendsFrom), value))
    {
      Assign(Extension, value);
      InsertAllSpec([], value);
    }

    /** `imports = value`; the value's static type admits test libraries only. */
    method SetImports(value: seq<Entity>)
      requires Valid()
      requires forall x :: x in value ==> x.kind == TestLibrary
      modifies this`extendsFrom, this`imports, this`delivered
      ensures Valid()
      ensures imports == InsertAll([], value) && extendsFrom == old(extendsFrom)
      ensures delivered == old(delivered)
                           + BroadcastAll(observers, ReassignmentEvents(Import, old(imports), value))
    {
      Assign(Import, value);
      InsertAllSpec([], value);
    }

    /**
     * `extendsFrom = extendsFrom` (or `imports = imports`): the setter is given
     * the relationship set's own backing collection. Clearing it empties the
     * argument as well, so nothing is added back.
     */
    method AssignBackingSetToItself(rel: Relation)
      requires Valid()
      modifies this`extendsFrom, this`imports, this`delivered
      ensures Valid()
      ensures Members(rel) == []
      ensures rel == Extension ==> imports == old(imports)
      ensures rel == Import ==> extendsFrom == old(extendsFrom)
      ensures delivered == old(delivered) + BroadcastAll(observers, RemovedEvents(rel, old(Members(rel))))
    {
      Clear(rel);
      AddAll(rel, Members(rel));
    }

    /**
     * The loop shared by `extendsFrom(...)` and `imports(...)`: each argument
     * is resolved and added before the next one is looked at; the first
     * argument that fails ends the call, and what was added stays added.
     */
    method AddArguments(rel: Relation, args: seq<Arg>) returns (outcome: Outcome)
      modifies this`extendsFrom, this`imports, this`delivered
      ensures outcome == ResolveAll(container.entries, rel, args).outcome
      ensures Members(rel) == InsertAll(old(Members(rel)), ResolveAll(container.entries, rel, args).resolved)
      ensures delivered == old(delivered)
                           + BroadcastAll(observers, AddedEvents(rel, NewlyAdded(old(Members(rel)), ResolveAll(container.entries, rel, args).resolved)))
      ensures rel == Extension ==> imports == old(imports)
      ensures rel == Import ==> extendsFrom == old(extendsFrom)
    {
      var entries := container.entries;
      ghost var m0 := Members(rel);
      ghost var resolved: seq<Entity> := [];
      for i := 0 to |args|
        invariant ResolveAll(entries, rel, args[..i]) == Resolution(resolved, Pass)
        invariant Members(rel) == InsertAll(m0, resolved)
        invariant rel == Extension ==> imports == old(imports)
        invariant rel == Import ==> extendsFrom == old(extendsFrom)
        invariant delivered == old(delivered) + BroadcastAll(observers, AddedEvents(rel, NewlyAdded(m0, resolved)))
      {
        var r := Resolve(entries, rel, args[i]);
        if r.Err? {
          ResolveAllStepErr(entries, rel, args, i, resolved, r.error);
          return Fail(r.error);
        }
        ResolveAllStepOk(entries, rel, args, i, resolved, r.value);
        AddNext(rel, r.value, m0, resolved, old(delivered));
        resolved := resolved + [r.value];
      }
      assert args[..|args|] == args;
      outcome := Pass;
    }

    /** `extendsFrom(vararg)`: test sets, test libraries, or names of either. */
    method ExtendsFrom(args: seq<Arg>) returns (outcome: Outcome)
      requires Valid()
      modifies this`extendsFrom, this`imports, this`delivered
      ensures Valid()
      ensures outcome == ResolveAll(container.entries, Extension, args).outcome
      ensures extendsFrom == InsertAll(old(extendsFrom), ResolveAll(container.entries, Extension, args).resolved)
      ensures delivered == old(delivered)
                           + BroadcastAll(observers, AddedEvents(Extension, NewlyAdded(old(extendsFrom), ResolveAll(container.entries, Extension, args).resolved)))
      ensures imports == old(imports)
    {
      outcome := AddArguments(Extension, args);
      InsertAllSpec(old(extendsFrom), ResolveAll(container.entries, Extension, args).resolved);
    }

    /** `imports(vararg)`: test libraries or names of test libraries. */
    method Imports(args: seq<Arg>) returns (outcome: Outcome)
      requires Valid()
      modifies this`extendsFrom, this`imports, this`delivered
      ensures Valid()
      ensures outcome == ResolveAll(container.entries, Import, args).outcome
      ensures imports == InsertAll(old(imports), ResolveAll(container.entries, Import, args).resolved)
      ensures delivered == old(delivered)
                           + BroadcastAll(observers, AddedEvents(Import, NewlyAdded(old(imports), ResolveAll(container.entries, Import, args).resolved)))
      ensures extendsFrom == old(extendsFrom)
    {
      outcome := AddArguments(Import, args);
      InsertAllSpec(old(imports), ResolveAll(container.entries, Import, args).resolved);
      ImportsResolveToLibraries(container.entries, args);
    }

    /**
     * `addObserver`: the observer is appended; with `notifyExisting` it alone
     * is told about every current extension and then every current import.
     */
    method AddObserver(o: ObserverId, notifyExisting: bool := true)
      modifies this`observers, this`delivered
      ensures observers == old(observers) + [o]
      ensures delivered == old(delivered) + if notifyExisting then Replay(o, extendsFrom, imports) else []
    {
      observers := observers + [o];
      if notifyExisting {
        for i := 0 to |extendsFrom|
          invariant observers == old(observers) + [o]
          invariant delivered == old(delivered) + Replay(o, extendsFrom[..i], [])
        {
          ReplayExtensionStep(o, extendsFrom, i, old(delivered), delivered);
          delivered := delivered + [Delivery(o, ExtendsFromAdded(extendsFrom[i]))];
        }
        ReplayHalfway(o, extendsFrom, imports);
        for i := 0 to |imports|
          invariant observers == old(observers) + [o]
          invariant delivered == old(delivered) + Replay(o, extendsFrom, imports[..i])
        {
          ReplayImportStep(o, extendsFrom, imports, i, old(delivered), delivered);
          delivered := delivered + [Delivery(o, ImportAdded(imports[i]))];
        }
        assert imports[..|imports|] == imports;
      }
    }

    /** `addObservers`: each observer in turn, with the same `notifyExisting`. */
    method AddObservers(os: seq<ObserverId>, notifyExisting: bool := true)
      modifies this`observers, this`delivered
      ensures observers == old(observers) + os
      ensures delivered == old(delivered) + if notifyExisting then ReplayEach(os, extendsFrom, imports) else []
    {
      for i := 0 to |os|
        invariant observers == old(observers) + os[..i]
        invariant delivered == old(delivered) + if notifyExisting then ReplayEach(os[..i], extendsFrom, imports) else []
      {
        ghost var d1 := delivered;
        AddObserver(os[i], notifyExisting);
        ReplayEachStep(os, i, extendsFrom, imports, notifyExisting, old(delivered), d1, delivered);
        assert os[..i + 1] == os[..i] + [os[i]];
      }
      assert os[..|os|] == os;
    }
  }
}
