/**
 * Grouping a list into a record keyed by a string, as
 * `list.reduce((acc, x) => { (acc[k(x)] ||= []).push(x); return acc }, {})`
 * does. A record with non-numeric string keys iterates its keys in the
 * order they were first set, so it is modelled as a sequence of groups in
 * order of first appearance.
 */
module Grouping {
  import opened Seqs

  datatype Group<T> = Group(key: string, members: seq<T>)

  /** The keys of the record, in iteration order. */
  function Keys<T>(groups: seq<Group<T>>): seq<string>
  {
    if groups == [] then [] else [groups[0].key] + Keys(groups[1..])
  }

  predicate Distinct(s: seq<string>)
  {
    forall i, j :: 0 <= i < j < |s| ==> s[i] != s[j]
  }

  /** `acc[k]`, or the empty list when the record has no such key. */
  function MembersOf<T>(groups: seq<Group<T>>, k: string): seq<T>
  {
    if groups == [] then []
    else if groups[0].key == k then groups[0].members
    else MembersOf(groups[1..], k)
  }

  /** One step of the reduce: push `x` onto the group `k`, creating the group at the end if it is new. */
  function AddTo<T>(groups: seq<Group<T>>, k: string, x: T): seq<Group<T>>
  {
    if groups == [] then [Group(k, [x])]
    else if groups[0].key == k then [Group(k, groups[0].members + [x])] + groups[1..]
    else [groups[0]] + AddTo(groups[1..], k, x)
  }

  /** The whole reduce, over the items in order. */
  function GroupAll<T>(items: seq<T>, key: T -> string): seq<Group<T>>
  {
    if items == [] then []
    else AddTo(GroupAll(items[..|items| - 1], key), key(items[|items| - 1]), items[|items| - 1])
  }

  /** The filter predicate "the item's key is `k`". */
  function KeyIs<T>(key: T -> string, k: string): T -> bool
  {
    (x: T) => key(x) == k
  }

  function TotalSize<T>(groups: seq<Group<T>>): nat
  {
    if groups == [] then 0 else |groups[0].members| + TotalSize(groups[1..])
  }

  /** The reduce as the source runs it: one pass, pushing each item onto its group. */
  method GroupItems<T>(items: seq<T>, key: T -> string) returns (groups: seq<Group<T>>)
    ensures groups == GroupAll(items, key)
  {
    groups := [];
    for n := 0 to |items|
      invariant groups == GroupAll(items[..n], key)
    {
      var x := items[n];
      var k := key(x);
      var i := 0;
      while i < |groups| && groups[i].key != k
        invariant 0 <= i <= |groups|
        invariant forall j :: 0 <= j < i ==> groups[j].key != k
      {
        i := i + 1;
      }
      AddToAt(groups, k, x, i);
      assert items[..n + 1][..n] == items[..n];
      if i < |groups| {
        groups := groups[i := Group(k, groups[i].members + [x])];
      } else {
        groups := groups + [Group(k, [x])];
      }
    }
    assert items[..|items|] == items;
  }

  /** Pushing onto the first group with key `k`, at position `i`, or appending a new group when there is none. */
  lemma {:induction false} AddToAt<T>(groups: seq<Group<T>>, k: string, x: T, i: nat)
    requires i <= |groups| && forall j :: 0 <= j < i ==> groups[j].key != k
    requires i < |groups| ==> groups[i].key == k
    ensures AddTo(groups, k, x) == if i < |groups| then groups[i := Group(k, groups[i].members + [x])]
                                   else groups + [Group(k, [x])]
  {
    if i > 0 {
      AddToAt(groups[1..], k, x, i - 1);
      if i < |groups| {
        assert [groups[0]] + groups[1..][i - 1 := Group(k, groups[i].members + [x])]
            == groups[i := Group(k, groups[i].members + [x])];
      } else {
        assert [groups[0]] + (groups[1..] + [Group(k, [x])]) == groups + [Group(k, [x])];
      }
    }
  }

  lemma {:induction false} AddToMembers<T>(groups: seq<Group<T>>, k: string, x: T, k2: string)
    ensures MembersOf(AddTo(groups, k, x), k2) == if k2 == k then MembersOf(groups, k) + [x] else MembersOf(groups, k2)
  {
    if groups != [] && groups[0].key != k {
      AddToMembers(groups[1..], k, x, k2);
    }
  }

  /** A push keeps the keys, adding `k` last when it is new, and adds one member in all. */
  lemma {:induction false} AddToKeys<T>(groups: seq<Group<T>>, k: string, x: T)
    ensures Keys(AddTo(groups, k, x)) == if k in Keys(groups) then Keys(groups) else Keys(groups) + [k]
    ensures TotalSize(AddTo(groups, k, x)) == TotalSize(groups) + 1
  {
    if groups != [] && groups[0].key != k {
      AddToKeys(groups[1..], k, x);
      assert Keys(groups) == [groups[0].key] + Keys(groups[1..]);
    }
  }

  lemma DistinctAppend(s: seq<string>, k: string)
    requires Distinct(s) && k !in s
    ensures Distinct(s + [k])
  {
  }

  /**
   * Each group holds exactly the items with its key, in their original
   * order; keys are distinct, a key has a group iff some item carries it,
   * and the group sizes add up to the number of items.
   */
  lemma {:induction false} GroupAllSpec<T>(items: seq<T>, key: T -> string)
    ensures Distinct(Keys(GroupAll(items, key)))
    ensures forall k :: MembersOf(GroupAll(items, key), k) == Filter(items, KeyIs(key, k))
    ensures forall k :: k in Keys(GroupAll(items, key)) <==> exists x :: x in items && key(x) == k
    ensures TotalSize(GroupAll(items, key)) == |items|
  {
    if items != [] {
      var front := items[..|items| - 1];
      var x := items[|items| - 1];
      assert items == front + [x];
      GroupAllSpec(front, key);
      AddToKeys(GroupAll(front, key), key(x), x);
      if key(x) !in Keys(GroupAll(front, key)) {
        DistinctAppend(Keys(GroupAll(front, key)), key(x));
      }
      forall k ensures MembersOf(GroupAll(items, key), k) == Filter(items, KeyIs(key, k)) {
        AddToMembers(GroupAll(front, key), key(x), x, k);
        FilterAppend(front, [x], KeyIs(key, k));
      }
      forall k ensures k in Keys(GroupAll(items, key)) <==> exists y :: y in items && key(y) == k {
        if exists y :: y in items && key(y) == k {
          var y :| y in items && key(y) == k;
          if y != x {
            assert y in front;
          }
        }
      }
    }
  }
}
