/**
 * The insertion-ordered, observable set that backs the `extendsFrom` and
 * `imports` relationships of a test set.
 *
 * The set's implementation (`observableSetOf` in the plugin's util package)
 * is not part of this model. It is modelled as a sequence without duplicates
 * that iterates in insertion order: `add` appends an element that is not yet a
 * member and leaves the set alone otherwise, `addAll` adds its argument's
 * elements one at a time from left to right, and `clear` empties it. The
 * callback that fires on a membership change is modelled by the entity that
 * owns the set (module TestSetBases); this module says which elements such a
 * callback fires for.
 */
module ObservableSets {

  /** Set semantics on an insertion-ordered sequence: no element occurs twice. */
  predicate NoDuplicates<T(==,!new)>(s: seq<T>) {
    forall i, j :: 0 <= i < j < |s| ==> s[i] != s[j]
  }

  /** Dropping the last element of a set leaves a set that does not hold that element. */
  lemma NoDuplicatesInit<T(!new)>(s: seq<T>)
    requires s != [] && NoDuplicates(s)
    ensures NoDuplicates(s[..|s| - 1])
    ensures s[|s| - 1] !in s[..|s| - 1]
  {
    var init := s[..|s| - 1];
    assert forall j :: 0 <= j < |init| ==> init[j] == s[j];
  }

  /** The first `i + 1` elements are the first `i` and then the next one. */
  lemma TakeOneMore<T>(s: seq<T>, i: nat)
    requires i < |s|
    ensures s[..i + 1] == s[..i] + [s[i]]
  {
  }

  /** A non-empty sequence is its prefix followed by its last element. */
  lemma SplitLast<T>(s: seq<T>)
    requires s != []
    ensures s == s[..|s| - 1] + [s[|s| - 1]]
    ensures forall x :: x in s <==> x in s[..|s| - 1] || x == s[|s| - 1]
  {
    assert s == s[..|s| - 1] + [s[|s| - 1]];
  }

  /** The empty sequence is a unit of concatenation. */
  lemma AppendEmpty<T>(s: seq<T>)
    ensures [] + s == s && s + [] == s
  {
  }

  /** Concatenation is associative; stated once so that proofs can name the regrouping they need. */
  lemma AppendAssociates<T>(a: seq<T>, b: seq<T>, c: seq<T>)
    ensures (a + b) + c == a + (b + c)
  {
  }

  /** The contents after `add(x)`. */
  function Inserted<T(==,!new)>(s: seq<T>, x: T): (r: seq<T>)
  {
    if x in s then s else s + [x]
  }

  /** After `add(x)` the set holds exactly its old elements and `x`, and is still a set. */
  lemma InsertedSpec<T(!new)>(s: seq<T>, x: T)
    ensures forall y :: y in Inserted(s, x) <==> y in s || y == x
    ensures NoDuplicates(s) ==> NoDuplicates(Inserted(s, x))
  {
  }

  /** Appending a non-member to a set gives a set. */
  lemma NoDuplicatesSnoc<T(!new)>(s: seq<T>, x: T)
    requires NoDuplicates(s) && x !in s
    ensures NoDuplicates(s + [x])
  {
  }

  /** The contents after `remove(x)`: `x` is dropped and the other elements keep their order. */
  function Removed<T(==)>(s: seq<T>, x: T): (r: seq<T>)
    ensures |r| <= |s|
    decreases |s|
  {
    if s == [] then []
    else Removed(s[..|s| - 1], x) + (if s[|s| - 1] == x then [] else [s[|s| - 1]])
  }

  /** After `remove(x)` the set holds exactly its old elements other than `x`, and is still a set. */
  lemma {:induction false} RemovedSpec<T(!new)>(s: seq<T>, x: T)
    ensures forall y :: y in Removed(s, x) <==> y in s && y != x
    ensures NoDuplicates(s) ==> NoDuplicates(Removed(s, x))
    decreases |s|
  {
    if s != [] {
      var init, last := s[..|s| - 1], s[|s| - 1];
      RemovedSpec(init, x);
      SplitLast(s);
      if NoDuplicates(s) {
        NoDuplicatesInit(s);
        if last != x {
          NoDuplicatesSnoc(Removed(init, x), last);
        } else {
          AppendEmpty(Removed(init, x));
        }
      }
    }
  }

  /** Removing an element that is not a member leaves the set unchanged. */
  lemma {:induction false} RemovedAbsent<T(!new)>(s: seq<T>, x: T)
    requires x !in s
    ensures Removed(s, x) == s
    decreases |s|
  {
    if s != [] {
      SplitLast(s);
      RemovedAbsent(s[..|s| - 1], x);
    }
  }

  /** `remove(x)` undoes an `add(x)` that added `x`. */
  lemma RemoveUndoesAdd<T(!new)>(s: seq<T>, x: T)
    requires x !in s
    ensures Removed(Inserted(s, x), x) == s
  {
    assert (s + [x])[..|s|] == s;
    RemovedAbsent(s, x);
    AppendEmpty(s);
  }

  /** The contents after `addAll(xs)`: the elements of `xs` are added one at a time, left to right. */
  function InsertAll<T(==,!new)>(s: seq<T>, xs: seq<T>): (r: seq<T>)
    ensures |s| <= |r| && r[..|s|] == s
    decreases |xs|
  {
    if xs == [] then s else Inserted(InsertAll(s, xs[..|xs| - 1]), xs[|xs| - 1])
  }

  /**
   * After `addAll(xs)` the set holds exactly its old elements and those of
   * `xs`, and is still a set.
   */
  lemma {:induction false} InsertAllSpec<T(!new)>(s: seq<T>, xs: seq<T>)
    ensures forall y :: y in InsertAll(s, xs) <==> y in s || y in xs
    ensures NoDuplicates(s) ==> NoDuplicates(InsertAll(s, xs))
    decreases |xs|
  {
    if xs != [] {
      var init := xs[..|xs| - 1];
      InsertAllSpec(s, init);
      InsertedSpec(InsertAll(s, init), xs[|xs| - 1]);
      assert xs == init + [xs[|xs| - 1]];
    }
  }

  /**
   * The elements for which `addAll(xs)` on a set holding `s` actually changes
   * membership, in the order their `added` callbacks fire: those of `xs` that
   * were not members, each once, in the order of first occurrence.
   */
  function NewlyAdded<T(==,!new)>(s: seq<T>, xs: seq<T>): (r: seq<T>)
    ensures InsertAll(s, xs) == s + r
  {
    var all := InsertAll(s, xs);
    assert all == all[..|s|] + all[|s|..];
    all[|s|..]
  }

  /**
   * When the set had no duplicates, the callbacks of `addAll(xs)` fire exactly
   * for the elements of `xs` that were not members, each exactly once.
   */
  lemma NewlyAddedExactly<T(!new)>(s: seq<T>, xs: seq<T>)
    requires NoDuplicates(s)
    ensures NoDuplicates(NewlyAdded(s, xs))
    ensures forall y :: y in NewlyAdded(s, xs) <==> y in xs && y !in s
  {
    var all := InsertAll(s, xs);
    var r := NewlyAdded(s, xs);
    InsertAllSpec(s, xs);
    forall i, j | 0 <= i < j < |r| ensures r[i] != r[j] {
      assert r[i] == all[|s| + i] && r[j] == all[|s| + j];
    }
    forall y | y in r ensures y !in s {
      var k :| 0 <= k < |r| && r[k] == y;
      assert all[|s| + k] == y;
    }
  }

  /** Adding one more argument at the end is one more `add`. */
  lemma InsertAllSnoc<T(!new)>(s: seq<T>, xs: seq<T>, x: T)
    ensures InsertAll(s, xs + [x]) == Inserted(InsertAll(s, xs), x)
  {
    assert (xs + [x])[..|xs|] == xs;
  }

  /** The callbacks of one more `add`: one more element if it was not yet a member, none otherwise. */
  lemma NewlyAddedSnoc<T(!new)>(s: seq<T>, xs: seq<T>, x: T)
    ensures NewlyAdded(s, xs + [x])
         == NewlyAdded(s, xs) + (if x in InsertAll(s, xs) then [] else [x])
  {
    InsertAllSnoc(s, xs, x);
    var before := InsertAll(s, xs);
    assert before == s + NewlyAdded(s, xs);
    if x !in before {
      assert s + NewlyAdded(s, xs + [x]) == s + (NewlyAdded(s, xs) + [x]);
    } else {
      assert s + NewlyAdded(s, xs + [x]) == s + NewlyAdded(s, xs);
    }
  }

  /** Adding elements that are all members already leaves the set unchanged (and fires nothing). */
  lemma {:induction false} InsertAllOfMembers<T(!new)>(s: seq<T>, xs: seq<T>)
    requires forall x :: x in xs ==> x in s
    ensures InsertAll(s, xs) == s
    ensures NewlyAdded(s, xs) == []
    decreases |xs|
  {
    if xs != [] {
      InsertAllOfMembers(s, xs[..|xs| - 1]);
    }
  }

  /** Filling an empty set from a collection without duplicates reproduces that collection, in order. */
  lemma {:induction false} InsertAllOfDistinct<T(!new)>(xs: seq<T>)
    requires NoDuplicates(xs)
    ensures InsertAll([], xs) == xs
    decreases |xs|
  {
    if xs != [] {
      NoDuplicatesInit(xs);
      InsertAllOfDistinct(xs[..|xs| - 1]);
      SplitLast(xs);
    }
  }

  /** `addAll(xs + ys)` is `addAll(xs)` followed by `addAll(ys)`. */
  lemma {:induction false} InsertAllAppend<T(!new)>(s: seq<T>, xs: seq<T>, ys: seq<T>)
    ensures InsertAll(s, xs + ys) == InsertAll(InsertAll(s, xs), ys)
    decreases |ys|
  {
    if ys == [] {
      assert xs + ys == xs;
    } else {
      var init := ys[..|ys| - 1];
      var last := ys[|ys| - 1];
      assert ys == init + [last];
      assert xs + ys == (xs + init) + [last];
      InsertAllAppend(s, xs, init);
      InsertAllSnoc(s, xs + init, last);
      InsertAllSnoc(InsertAll(s, xs), init, last);
    }
  }
}
