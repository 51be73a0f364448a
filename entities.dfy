/**
 * Test sets and test libraries as the relationship sets see them, the
 * container that resolves their names, and the way the arguments of the
 * `extendsFrom(...)` and `imports(...)` mutators are turned into entities or
 * errors.
 */
module Entities {
  import opened ObservableSets


  /** The two concrete kinds of test-set entity. */
  datatype Kind = TestSet | TestLibrary

  /**
   * A reference to a test set or test library. Within one container names are
   * unique, so an entity is identified by its name together with its kind.
   */
  datatype Entity = Entity(name: string, kind: Kind)

  /** The two observable relationship sets of a test set. */
  datatype Relation = Extension | Import

  /** An argument of a vararg mutator: an entity object, a string, or any other object. */
  datatype Arg = Ref(entity: Entity) | Name(name: string) | Other

  /**
   * The message of an `IllegalArgumentException` thrown by the mutators, as
   * the template it is built from; `MessageText` spells it out.
   */
  datatype Message = ExtendsFromArgument | ImportsArgument | NotALibrary(name: string)

  /**
   * A failed call: the container found no entity of the given name, or an
   * `IllegalArgumentException` with its message.
   */
  datatype Error = UnknownName(name: string) | IllegalArgument(message: Message)

  datatype Result<T> = Ok(value: T) | Err(error: Error)

  /** How a vararg mutator ended: it returned normally, or it threw. */
  datatype Outcome = Pass | Fail(error: Error)

  /**
   * The container of all test sets and libraries of a project. Its creation
   * logic is not part of this model: it is a mutable name-to-kind table.
   */
  class TestSetContainer {
    var entries: map<string, Kind>

    constructor (entries: map<string, Kind>)
      ensures this.entries == entries
    {
      this.entries := entries;
    }
  }

  /** The container's `getByName`: the registered entity, or an error naming the missing name. */
  function GetByName(entries: map<string, Kind>, name: string): (r: Result<Entity>)
    ensures r.Ok? <==> name in entries
    ensures r.Ok? ==> r.value.name == name && r.value.kind == entries[name]
    ensures r.Err? ==> r.error == UnknownName(name)
  {
    if name in entries then Ok(Entity(name, entries[name])) else Err(UnknownName(name))
  }

  /**
   * The text of each message. The two wrong-type messages name the mutator
   * whose argument was rejected; the one for importing a test set by name names
   * that test set and points to `extendsFrom`.
   */
  function MessageText(m: Message): (r: string)
    ensures m.ExtendsFromArgument? ==> Mentions(r, "extendsFrom")
    ensures m.ImportsArgument? ==> Mentions(r, "imports")
    ensures m.NotALibrary? ==> Mentions(r, m.name) && Mentions(r, UseExtendsFrom)
  {
    match m
    case ExtendsFromArgument =>
      var rest := " must be either TestSet or TestLibrary objects or strings";
      MentionsMiddle("Arguments to ", "extendsFrom", rest);
      "Arguments to " + "extendsFrom" + rest
    case ImportsArgument =>
      var rest := " must be either TestLibrary objects or strings";
      MentionsMiddle("Arguments to ", "imports", rest);
      "Arguments to " + "imports" + rest
    case NotALibrary(name) =>
      var lead := "Only test libraries can be imported, but \"";
      var middle := "\" is a test set. ";
      var rest := " to extend from a test set.";
      var tail := middle + UseExtendsFrom + rest;
      MentionsMiddle(lead + name + middle, UseExtendsFrom, rest);
      AppendAssociates(lead + name, middle, UseExtendsFrom);
      AppendAssociates(lead + name, middle + UseExtendsFrom, rest);
      AppendAssociates(lead, name, tail);
      MentionsMiddle(lead, name, tail);
      lead + name + middle + UseExtendsFrom + rest
  }

  /** The hint the message for importing a test set gives. */
  const UseExtendsFrom := "Use extendsFrom instead"

  /** `sub` occurs in `s` as a contiguous piece. */
  predicate Mentions(s: string, sub: string) {
    exists i :: 0 <= i <= |s| && sub <= s[i..]
  }

  /** The middle piece of a concatenation is mentioned in it. */
  lemma MentionsMiddle(a: string, b: string, c: string)
    ensures Mentions(a + b + c, b)
  {
    assert b <= (a + b + c)[|a|..];
  }

  /**
   * One argument of `extendsFrom(...)`: an entity of either kind is taken as
   * it is, a string is looked up in the container, anything else is illegal.
   */
  function ResolveExtension(entries: map<string, Kind>, arg: Arg): (r: Result<Entity>)
    ensures r.Ok? <==> arg.Ref? || (arg.Name? && arg.name in entries)
    ensures r.Ok? && arg.Ref? ==> r.value == arg.entity
    ensures r.Ok? && arg.Name? ==> r.value == Entity(arg.name, entries[arg.name])
    ensures arg.Name? && arg.name !in entries ==> r == Err(UnknownName(arg.name))
    ensures arg.Other? ==> r == Err(IllegalArgument(ExtendsFromArgument))
  {
    match arg
    case Ref(e) => Ok(e)
    case Name(n) => GetByName(entries, n)
    case Other => Err(IllegalArgument(ExtendsFromArgument))
  }

  /**
   * One argument of `imports(...)`: a test library is taken as it is; a
   * string must name a test library; a test-set object or any other object is
   * illegal.
   */
  function ResolveImport(entries: map<string, Kind>, arg: Arg): (r: Result<Entity>)
    ensures r.Ok? ==> r.value.kind == TestLibrary
    ensures r.Ok? <==>
              || (arg.Ref? && arg.entity.kind == TestLibrary)
              || (arg.Name? && arg.name in entries && entries[arg.name] == TestLibrary)
    ensures r.Ok? && arg.Ref? ==> r.value == arg.entity
    ensures r.Ok? && arg.Name? ==> r.value == Entity(arg.name, TestLibrary)
    ensures arg.Name? && arg.name !in entries ==> r == Err(UnknownName(arg.name))
    ensures arg.Name? && arg.name in entries && entries[arg.name] == TestSet
            ==> r == Err(IllegalArgument(NotALibrary(arg.name)))
    ensures arg.Ref? && arg.entity.kind == TestSet ==> r == Err(IllegalArgument(ImportsArgument))
    ensures arg.Other? ==> r == Err(IllegalArgument(ImportsArgument))
  {
    match arg
    case Ref(e) =>
      if e.kind == TestLibrary then Ok(e) else Err(IllegalArgument(ImportsArgument))
    case Name(n) =>
      (match GetByName(entries, n)
       case Err(e) => Err(e)
       case Ok(found) =>
         if found.kind == TestLibrary then Ok(found) else Err(IllegalArgument(NotALibrary(n))))
    case Other => Err(IllegalArgument(ImportsArgument))
  }

  /** One argument of the mutator for `rel`. */
  function Resolve(entries: map<string, Kind>, rel: Relation, arg: Arg): (r: Result<Entity>) {
    match rel
    case Extension => ResolveExtension(entries, arg)
    case Import => ResolveImport(entries, arg)
  }

  /** The arguments resolved before the first failure, and how the call ended. */
  datatype Resolution = Resolution(resolved: seq<Entity>, outcome: Outcome)

  /**
   * The arguments of a vararg mutator are resolved lazily, one at a time, left
   * to right, and each is added before the next is looked at. The result holds
   * the entities resolved before the first failing argument and that
   * argument's error.
   */
  function ResolveAll(entries: map<string, Kind>, rel: Relation, args: seq<Arg>): (r: Resolution)
    ensures |r.resolved| <= |args|
    ensures forall k :: 0 <= k < |r.resolved| ==> Resolve(entries, rel, args[k]) == Ok(r.resolved[k])
    ensures r.outcome.Pass? ==> |r.resolved| == |args|
    ensures r.outcome.Fail? ==>
              && |r.resolved| < |args|
              && Resolve(entries, rel, args[|r.resolved|]) == Err(r.outcome.error)
    decreases |args|
  {
    if args == [] then Resolution([], Pass)
    else
      match Resolve(entries, rel, args[0])
      case Err(e) => Resolution([], Fail(e))
      case Ok(x) =>
        var rest := ResolveAll(entries, rel, args[1..]);
        Resolution([x] + rest.resolved, rest.outcome)
  }

  /**
   * The resolution is determined by any prefix of arguments that all resolve
   * and is followed by a failing argument or by the end of the arguments.
   */
  lemma {:induction false} ResolvedPrefixDetermines(entries: map<string, Kind>, rel: Relation, args: seq<Arg>, prefix: seq<Entity>)
    requires |prefix| <= |args|
    requires forall k :: 0 <= k < |prefix| ==> Resolve(entries, rel, args[k]) == Ok(prefix[k])
    requires |prefix| < |args| ==> Resolve(entries, rel, args[|prefix|]).Err?
    ensures ResolveAll(entries, rel, args).resolved == prefix
    ensures ResolveAll(entries, rel, args).outcome
         == if |prefix| == |args| then Pass else Fail(Resolve(entries, rel, args[|prefix|]).error)
  {
    var r := ResolveAll(entries, rel, args);
    assert |r.resolved| == |prefix|;
    assert forall k :: 0 <= k < |prefix| ==> Ok(r.resolved[k]) == Ok(prefix[k]);
  }

  /** One more argument that resolves, after a prefix that resolved completely, is one more resolved entity. */
  lemma ResolveAllStepOk(entries: map<string, Kind>, rel: Relation, args: seq<Arg>, i: nat, prefix: seq<Entity>, x: Entity)
    requires i < |args|
    requires ResolveAll(entries, rel, args[..i]) == Resolution(prefix, Pass)
    requires Resolve(entries, rel, args[i]) == Ok(x)
    ensures ResolveAll(entries, rel, args[..i + 1]) == Resolution(prefix + [x], Pass)
  {
    assert forall k :: 0 <= k < i ==> args[..i][k] == args[k] == args[..i + 1][k];
    ResolvedPrefixDetermines(entries, rel, args[..i + 1], prefix + [x]);
  }

  /** The first argument that fails, after a prefix that resolved completely, ends the whole call with its error. */
  lemma ResolveAllStepErr(entries: map<string, Kind>, rel: Relation, args: seq<Arg>, i: nat, prefix: seq<Entity>, e: Error)
    requires i < |args|
    requires ResolveAll(entries, rel, args[..i]) == Resolution(prefix, Pass)
    requires Resolve(entries, rel, args[i]) == Err(e)
    ensures ResolveAll(entries, rel, args) == Resolution(prefix, Fail(e))
  {
    assert forall k :: 0 <= k < i ==> args[..i][k] == args[k];
    ResolvedPrefixDetermines(entries, rel, args, prefix);
  }

  /** Everything `imports(...)` would add is a test library. */
  lemma {:induction false} ImportsResolveToLibraries(entries: map<string, Kind>, args: seq<Arg>)
    ensures forall e :: e in ResolveAll(entries, Import, args).resolved ==> e.kind == TestLibrary
  {
    var r := ResolveAll(entries, Import, args);
    forall e | e in r.resolved ensures e.kind == TestLibrary {
      var k :| 0 <= k < |r.resolved| && r.resolved[k] == e;
      assert ResolveImport(entries, args[k]) == Ok(e);
    }
  }
}
