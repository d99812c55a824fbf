/**
 * The multi-select checkbox list (`CheckboxInput` in src/components/Inputs/Checkbox.tsx):
 * the field's value is a list of selected ids; an item shows as checked when its id is
 * in the list, checking it appends the id, unchecking it filters out every copy.
 */
module Checkbox {
  import opened Wrappers

  type Id = string

  /** `value.filter((v) => v !== id)`: `s` with every occurrence of `id` removed. */
  function Without(s: seq<Id>, id: Id): seq<Id> {
    if s == [] then []
    else (if s[0] == id then [] else [s[0]]) + Without(s[1..], id)
  }

  /** `a` is `b` with some elements deleted, the rest kept in their order. */
  ghost predicate SubsequenceOf(a: seq<Id>, b: seq<Id>) {
    if a == [] then true
    else if b == [] then false
    else (a[0] == b[0] && SubsequenceOf(a[1..], b[1..])) || SubsequenceOf(a, b[1..])
  }

  /** `field.value?.includes(item.id)`: an unset value shows nothing checked. */
  predicate IsChecked(value: Option<seq<Id>>, id: Id) {
    value.Some? && id in value.value
  }

  /** What `onCheckedChange` does: passes a new value to `field.onChange`, or throws. */
  datatype Change =
    | Changed(value: Option<seq<Id>>)
    | NotIterable  // `[...field.value, id]` on an unset value throws a TypeError

  /**
   * `onCheckedChange(checked)`: checking spreads the value and appends the id;
   * unchecking filters the id out (an unset value stays unset through `?.`).
   */
  function OnCheckedChange(value: Option<seq<Id>>, id: Id, checked: bool): Change {
    if checked then
      if value.None? then NotIterable else Changed(Some(value.value + [id]))
    else
      Changed(if value.None? then None else Some(Without(value.value, id)))
  }

  // ---------------------------------------------------------------- Without

  /** An id survives removal exactly when it was there and is not the removed id. */
  lemma {:induction false} WithoutMembership(s: seq<Id>, id: Id, x: Id)
    ensures x in Without(s, id) <==> x in s && x != id
  {
    if s != [] {
      WithoutMembership(s[1..], id, x);
      assert s == [s[0]] + s[1..];
    }
  }

  /** Removal deletes exactly the copies of `id`: every other id keeps its count. */
  lemma {:induction false} WithoutMultiset(s: seq<Id>, id: Id)
    ensures multiset(Without(s, id)) == multiset(s)[id := 0]
  {
    if s != [] {
      WithoutMultiset(s[1..], id);
      assert s == [s[0]] + s[1..];
      assert multiset(s) == multiset{s[0]} + multiset(s[1..]);
    }
  }

  /** Removal never lengthens the list, and shortens it by the number of copies of `id`. */
  lemma WithoutLength(s: seq<Id>, id: Id)
    ensures |Without(s, id)| == |s| - multiset(s)[id]
    ensures |Without(s, id)| <= |s|
  {
    WithoutMultiset(s, id);
    assert |multiset(Without(s, id))| == |multiset(s)| - multiset(s)[id];
  }

  lemma {:induction false} SubsequenceOfTail(a: seq<Id>, x: Id, b: seq<Id>)
    requires SubsequenceOf(a, b)
    ensures SubsequenceOf(a, [x] + b)
  {
    if a != [] {
      assert ([x] + b)[1..] == b;
    }
  }

  /** Removal keeps the remaining ids in their original relative order. */
  lemma {:induction false} WithoutKeepsOrder(s: seq<Id>, id: Id)
    ensures SubsequenceOf(Without(s, id), s)
  {
    if s != [] {
      WithoutKeepsOrder(s[1..], id);
      var rest := Without(s[1..], id);
      if s[0] == id {
        assert Without(s, id) == rest;
        SubsequenceOfTail(rest, s[0], s[1..]);
        assert s == [s[0]] + s[1..];
      } else {
        assert Without(s, id) == [s[0]] + rest;
        assert ([s[0]] + rest)[1..] == rest;
      }
    }
  }

  /** Removing an id that is not there leaves the list as it was. */
  lemma {:induction false} WithoutAbsent(s: seq<Id>, id: Id)
    requires id !in s
    ensures Without(s, id) == s
  {
    if s != [] {
      WithoutAbsent(s[1..], id);
      assert s == [s[0]] + s[1..];
    }
  }

  /** Removal distributes over concatenation. */
  lemma {:induction false} WithoutAppend(a: seq<Id>, b: seq<Id>, id: Id)
    ensures Without(a + b, id) == Without(a, id) + Without(b, id)
  {
    if a != [] {
      WithoutAppend(a[1..], b, id);
      assert (a + b)[1..] == a[1..] + b;
      assert (a + b)[0] == a[0];
    } else {
      assert a + b == b;
    }
  }

  // ---------------------------------------------------------------- the toggle

  /**
   * Checking appends the id at the end of a set value: the length grows by one,
   * the old entries stay in place, and the item then shows as checked.
   */
  lemma Check(s: seq<Id>, id: Id)
    ensures OnCheckedChange(Some(s), id, true).Changed?
    ensures var r := OnCheckedChange(Some(s), id, true).value.value;
      && |r| == |s| + 1 && r[..|s|] == s && r[|s|] == id
      && IsChecked(Some(r), id)
  {
  }

  /**
   * Unchecking removes every copy of the id, keeps the other ids in order and with
   * their counts, never lengthens the list, and the item then shows as unchecked.
   */
  lemma Uncheck(s: seq<Id>, id: Id)
    ensures OnCheckedChange(Some(s), id, false).Changed?
    ensures var r := OnCheckedChange(Some(s), id, false).value;
      && r.Some? && !IsChecked(r, id)
      && SubsequenceOf(r.value, s)
      && (forall x :: x != id ==> multiset(r.value)[x] == multiset(s)[x])
      && |r.value| <= |s|
  {
    WithoutMembership(s, id, id);
    WithoutKeepsOrder(s, id);
    WithoutMultiset(s, id);
    WithoutLength(s, id);
  }

  /** Unchecking an id that is not selected changes nothing. */
  lemma UncheckAbsent(s: seq<Id>, id: Id)
    requires id !in s
    ensures OnCheckedChange(Some(s), id, false) == Changed(Some(s))
  {
    WithoutAbsent(s, id);
  }

  /** Checking an unselected id and then unchecking it restores the original list. */
  lemma CheckThenUncheck(s: seq<Id>, id: Id)
    requires id !in s
    ensures var checked := OnCheckedChange(Some(s), id, true);
      checked.Changed? && OnCheckedChange(checked.value, id, false) == Changed(Some(s))
  {
    WithoutAppend(s, [id], id);
    WithoutAbsent(s, id);
    assert [id][1..] == [];
    assert Without([id], id) == [];
    assert Without(s + [id], id) == s + [] == s;
  }

  /** Unchecking twice is the same as unchecking once. */
  lemma UncheckIdempotent(s: seq<Id>, id: Id)
    ensures var once := OnCheckedChange(Some(s), id, false);
      OnCheckedChange(once.value, id, false) == once
  {
    WithoutMembership(s, id, id);
    WithoutAbsent(Without(s, id), id);
  }

  /** With no value set, checking throws and unchecking leaves the value unset. */
  lemma UnsetValue(id: Id)
    ensures !IsChecked(None, id)
    ensures OnCheckedChange(None, id, true) == NotIterable
    ensures OnCheckedChange(None, id, false) == Changed(None)
  {
  }
}
