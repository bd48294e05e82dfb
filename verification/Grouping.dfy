/** Grouping records by session (groupTraceBySession, groupAuditBySession) as a stable partition. */
module Grouping {
  import opened Prelude

  function Keyed<T>(key: T -> string, k: string): T -> bool {
    (x: T) => key(x) == k
  }

  /** The keys of the records, in the order in which each is first met. */
  function FirstSeen<T>(s: seq<T>, key: T -> string): (order: seq<string>) {
    if |s| == 0 then []
    else
      var order, k := FirstSeen(s[..|s| - 1], key), key(s[|s| - 1]);
      if k in order then order else order + [k]
  }

  function GroupsFor<T>(s: seq<T>, key: T -> string, order: seq<string>): (groups: seq<seq<T>>)
    ensures |groups| == |order|
    ensures forall i :: 0 <= i < |order| ==> groups[i] == Filter(s, Keyed(key, order[i]))
  {
    seq(|order|, i requires 0 <= i < |order| => Filter(s, Keyed(key, order[i])))
  }

  function Grouped<T>(s: seq<T>, key: T -> string): seq<seq<T>> {
    GroupsFor(s, key, FirstSeen(s, key))
  }

  function Flatten<T>(groups: seq<seq<T>>): seq<T> {
    if |groups| == 0 then [] else Flatten(groups[..|groups| - 1]) + groups[|groups| - 1]
  }

  lemma FlattenSnoc<T>(groups: seq<seq<T>>, g: seq<T>)
    ensures Flatten(groups + [g]) == Flatten(groups) + g
  {
    assert (groups + [g])[..|groups|] == groups;
  }

  /** One pass over the records fills a map of groups and the order of its keys. */
  method GroupBySession<T>(records: seq<T>, key: T -> string) returns (result: seq<seq<T>>)
    ensures result == Grouped(records, key)
  {
    hide Filter;
    var order: seq<string>, groups: map<string, seq<T>> := [], map[];
    for i := 0 to |records|
      invariant order == FirstSeen(records[..i], key)
      invariant forall k :: k in groups <==> k in order
      invariant forall k :: k in groups ==> groups[k] == Filter(records[..i], Keyed(key, k))
    {
      var r := records[i];
      assert records[..i] + [r] == records[..i + 1];
      forall k {
        FilterSnoc(records[..i], r, Keyed(key, k));
      }
      assert (records[..i + 1])[..i] == records[..i];
      if key(r) !in groups {
        UnseenIsEmpty(records[..i], key, key(r));
        order := order + [key(r)];
        groups := groups[key(r) := []];
      }
      groups := groups[key(r) := groups[key(r)] + [r]];
    }
    assert records[..|records|] == records;
    result := [];
    for i := 0 to |order|
      invariant |result| == i && forall j :: 0 <= j < i ==> result[j] == groups[order[j]]
    {
      result := result + [groups[order[i]]];
    }
    assert result == GroupsFor(records, key, order);
  }

  lemma {:induction false} UnseenIsEmpty<T>(s: seq<T>, key: T -> string, k: string)
    ensures k in FirstSeen(s, key) <==> exists i :: 0 <= i < |s| && key(s[i]) == k
    ensures k !in FirstSeen(s, key) ==> Filter(s, Keyed(key, k)) == []
  {
    if |s| > 0 {
      UnseenIsEmpty(s[..|s| - 1], key, k);
      if i :| 0 <= i < |s| && key(s[i]) == k {
        assert i == |s| - 1 || s[..|s| - 1][i] == s[i];
      }
    }
  }

  lemma {:induction false} FirstSeenDistinct<T>(s: seq<T>, key: T -> string)
    ensures AllDistinct(FirstSeen(s, key))
  {
    if |s| > 0 {
      FirstSeenDistinct(s[..|s| - 1], key);
    }
  }

  /** The groups come in the order of their first records: before the i-th group's first record, only
      records of the groups before it occur. */
  lemma {:induction false} FirstEncounterOrder<T>(s: seq<T>, key: T -> string, i: nat) returns (p: nat)
    requires i < |FirstSeen(s, key)|
    ensures p < |s| && key(s[p]) == FirstSeen(s, key)[i]
    ensures FirstSeen(s[..p], key) == FirstSeen(s, key)[..i]
  {
    var front, last := s[..|s| - 1], s[|s| - 1];
    var order := FirstSeen(front, key);
    if i < |order| {
      p := FirstEncounterOrder(front, key, i);
      assert s[..p] == front[..p];
      assert FirstSeen(s, key)[..i] == order[..i];
    } else {
      p := |front|;
      assert FirstSeen(s, key)[..i] == order;
    }
  }

  lemma NothingToFilter<T>(s: seq<T>, key: T -> string, p: T -> bool)
    ensures Flatten(GroupsFor(s, key, [])) == [] && Filter([], p) == []
  {
  }

  /** Filtering the concatenated groups by a key gives that key's group, or nothing. */
  lemma {:induction false} FlattenFilters<T>(s: seq<T>, key: T -> string, order: seq<string>, k: string)
    requires AllDistinct(order)
    ensures Filter(Flatten(GroupsFor(s, key, order)), Keyed(key, k))
        == if k in order then Filter(s, Keyed(key, k)) else []
  {
    hide Filter, Flatten;
    if |order| == 0 {
      NothingToFilter(s, key, Keyed(key, k));
    } else {
      var front, last := order[..|order| - 1], order[|order| - 1];
      FlattenFilters(s, key, front, k);
      var groups, g := GroupsFor(s, key, front), Filter(s, Keyed(key, last));
      GroupsSnoc(s, key, order);
      FlattenSnoc(groups, g);
      FilterAppend(Flatten(groups), g, Keyed(key, k));
      FilterOwn(s, key, last, k);
      assert last !in front;
      assert order == front + [last];
      assert k == last ==> [] + g == g;
      assert k != last ==> Filter(Flatten(groups), Keyed(key, k)) + [] == Filter(Flatten(groups), Keyed(key, k));
    }
  }

  lemma GroupsSnoc<T>(s: seq<T>, key: T -> string, order: seq<string>)
    requires |order| > 0
    ensures var n := |order| - 1;
            GroupsFor(s, key, order) == GroupsFor(s, key, order[..n]) + [Filter(s, Keyed(key, order[n]))]
  {
    hide Filter;
  }

  lemma {:induction false} FilterOwn<T>(s: seq<T>, key: T -> string, own: string, k: string)
    ensures Filter(Filter(s, Keyed(key, own)), Keyed(key, k)) == if k == own then Filter(s, Keyed(key, own)) else []
  {
    if |s| > 0 {
      var front, last := s[..|s| - 1], s[|s| - 1];
      FilterOwn(front, key, own, k);
      if key(last) == own {
        FilterSnoc(Filter(front, Keyed(key, own)), last, Keyed(key, k));
      } else {
        assert Filter(s, Keyed(key, own)) == Filter(front, Keyed(key, own));
      }
    }
  }

  /** Stable partition. The groups are the sessions' subsequences, in file order, so that concatenating them
      leaves every session's own sequence of records as it was. */
  lemma StablePartition<T>(s: seq<T>, key: T -> string, k: string)
    ensures Filter(Flatten(Grouped(s, key)), Keyed(key, k)) == Filter(s, Keyed(key, k))
  {
    FirstSeenDistinct(s, key);
    FlattenFilters(s, key, FirstSeen(s, key), k);
    UnseenIsEmpty(s, key, k);
  }

  /** The concatenated groups are a permutation of the records. */
  lemma Permutation<T>(s: seq<T>, key: T -> string)
    ensures multiset(Flatten(Grouped(s, key))) == multiset(s)
  {
    forall x
      ensures multiset(Flatten(Grouped(s, key)))[x] == multiset(s)[x]
    {
      SameMultiplicity(s, key, x);
    }
    EqualMultisets(multiset(Flatten(Grouped(s, key))), multiset(s));
  }

  lemma EqualMultisets<T>(a: multiset<T>, b: multiset<T>)
    requires forall x :: a[x] == b[x]
    ensures a == b
  {
  }

  lemma SameMultiplicity<T>(s: seq<T>, key: T -> string, x: T)
    ensures multiset(Flatten(Grouped(s, key)))[x] == multiset(s)[x]
  {
    StablePartition(s, key, key(x));
    Multiplicity(s, Keyed(key, key(x)), x);
    Multiplicity(Flatten(Grouped(s, key)), Keyed(key, key(x)), x);
  }

  lemma SnocMultiset<T>(a: seq<T>, x: T, y: T)
    ensures multiset(a + [x])[y] == multiset(a)[y] + if x == y then 1 else 0
  {
    assert multiset(a + [x]) == multiset(a) + multiset{x};
  }

  /** Filtering keeps the multiplicity of what it keeps. */
  lemma {:induction false} Multiplicity<T>(s: seq<T>, p: T -> bool, x: T)
    requires p(x)
    ensures multiset(Filter(s, p))[x] == multiset(s)[x]
  {
    if |s| > 0 {
      MultiplicitySnoc(s[..|s| - 1], s[|s| - 1], p, x);
      Multiplicity(s[..|s| - 1], p, x);
      assert s[..|s| - 1] + [s[|s| - 1]] == s;
    }
  }

  lemma MultiplicitySnoc<T>(front: seq<T>, last: T, p: T -> bool, x: T)
    requires p(x)
    ensures multiset(Filter(front + [last], p))[x] == multiset(Filter(front, p))[x] + if last == x then 1 else 0
    ensures multiset(front + [last])[x] == multiset(front)[x] + if last == x then 1 else 0
  {
    hide Filter;
    FilterSnoc(front, last, p);
    SnocMultiset(front, last, x);
    SnocMultiset(Filter(front, p), last, x);
    assert Filter(front, p) + [] == Filter(front, p);
  }

  lemma {:induction false} FilterMember<T>(s: seq<T>, p: T -> bool, x: T)
    requires x in Filter(s, p)
    ensures x in s && p(x)
  {
    var front, last := s[..|s| - 1], s[|s| - 1];
    if x in Filter(front, p) {
      FilterMember(front, p, x);
    } else {
      assert Filter(s, p) == Filter(front, p) + if p(last) then [last] else [];
    }
  }

  lemma MembersGrouped<T>(s: seq<T>, key: T -> string, i: nat)
    requires i < |Grouped(s, key)|
    ensures var g := Grouped(s, key)[i];
            |g| > 0 && forall x :: x in g ==> key(x) == FirstSeen(s, key)[i] && x in s
  {
    var k := FirstSeen(s, key)[i];
    UnseenIsEmpty(s, key, k);
    FilterMembers(s, Keyed(key, k));
    assert Grouped(s, key)[i] == Filter(s, Keyed(key, k));
    forall x | x in Grouped(s, key)[i]
      ensures key(x) == k && x in s
    {
      FilterMember(s, Keyed(key, k), x);
    }
    var j :| 0 <= j < |s| && key(s[j]) == k;
    CountPositive(s, j, Keyed(key, k));
  }
}
