/** The policy LRU (internal/proxy/policy_cache.go): a doubly linked ring with a sentinel and an index into
    it, proved against the recency list. */
module PolicyCache {
  import opened Prelude
  import opened Policies
  import opened Recency

  /** A ring element; the sentinel's policy is never read. */
  class Element {
    var next: Element
    var prev: Element
    var fp: string
    var pol: Policy

    constructor (fp: string, pol: Policy)
      ensures this.fp == fp && this.pol == pol && next == this && prev == this
    {
      this.fp, this.pol := fp, pol;
      next, prev := this, this;
    }
  }

  // ---- the ring

  /** The i-th element of the ring, counting the sentinel as the first and, again, as the last. */
  ghost function Node(root: Element, elems: seq<Element>, i: int): Element
    requires 0 <= i <= |elems| + 1
  {
    if i == 0 || i == |elems| + 1 then root else elems[i - 1]
  }

  ghost predicate AllApart(root: Element, elems: seq<Element>) {
    root !in elems && AllDistinct(elems)
  }

  /** Following next, or prev, from the sentinel visits the elements in order and comes back. */
  ghost predicate Linked(root: Element, elems: seq<Element>)
    reads root`next, root`prev, elems`next, elems`prev
  {
    forall i :: 0 <= i <= |elems| ==>
      Node(root, elems, i).next == Node(root, elems, i + 1) && Node(root, elems, i + 1).prev == Node(root, elems, i)
  }

  lemma NodesAfterCut(root: Element, elems: seq<Element>, i: nat)
    requires i < |elems|
    ensures forall j :: 0 <= j <= |elems| ==>
              Node(root, Without(elems, i), j) == Node(root, elems, if j <= i then j else j + 1)
  {
  }

  /** Takes the i-th element out of the ring. */
  method Unlink(root: Element, e: Element, ghost elems: seq<Element>, ghost i: nat)
    requires AllApart(root, elems) && Linked(root, elems) && i < |elems| && elems[i] == e
    modifies e.prev`next, e.next`prev
    ensures AllApart(root, Without(elems, i)) && Linked(root, Without(elems, i))
    ensures e !in Without(elems, i)
  {
    NodesAfterCut(root, elems, i);
    assert Node(root, elems, i + 1) == e;
    assert e.prev == Node(root, elems, i) && e.next == Node(root, elems, i + 2);
    e.prev.next := e.next;
    e.next.prev := e.prev;
  }

  lemma NodesAfterPush(root: Element, elems: seq<Element>, e: Element)
    ensures Node(root, [e] + elems, 0) == root && Node(root, [e] + elems, 1) == e
    ensures forall j :: 1 <= j <= |elems| + 1 ==> Node(root, [e] + elems, j + 1) == Node(root, elems, j)
  {
  }

  /** Puts an element in front. */
  method LinkFront(root: Element, e: Element, ghost elems: seq<Element>)
    requires AllApart(root, elems) && Linked(root, elems) && e != root && e !in elems
    modifies e`next, e`prev, root`next, root.next`prev
    ensures AllApart(root, [e] + elems) && Linked(root, [e] + elems)
  {
    ghost var after := [e] + elems;
    NodesAfterPush(root, elems, e);
    assert Node(root, elems, 0) == root;
    assert root.next == Node(root, elems, 1);
    e.prev := root;
    e.next := root.next;
    e.next.prev := e;
    e.prev.next := e;
    forall i | 0 <= i <= |after|
      ensures Node(root, after, i).next == Node(root, after, i + 1)
          && Node(root, after, i + 1).prev == Node(root, after, i)
    {
      if i >= 2 {
        assert Node(root, after, i) == Node(root, elems, i - 1) && Node(root, after, i + 1) == Node(root, elems, i);
        assert Node(root, elems, i) != Node(root, elems, 1);
      }
    }
  }

  /** Moves the i-th element to the front of the ring. */
  method Reorder(root: Element, e: Element, ghost elems: seq<Element>, ghost i: nat)
    requires AllApart(root, elems) && Linked(root, elems) && i < |elems| && elems[i] == e
    modifies root`next, root`prev, (set x: Element | x in elems)`next, (set x: Element | x in elems)`prev
    ensures AllApart(root, [e] + Without(elems, i)) && Linked(root, [e] + Without(elems, i))
  {
    assert Node(root, elems, i + 1) == e;
    assert e.prev == Node(root, elems, i) && e.next == Node(root, elems, i + 2);
    Unlink(root, e, elems, i);
    assert root.next == Node(root, Without(elems, i), 1) by {
      assert Node(root, Without(elems, i), 0) == root;
    }
    LinkFront(root, e, Without(elems, i));
  }

  lemma FrontIsFirst(root: Element, elems: seq<Element>)
    requires Linked(root, elems)
    ensures root.next == if |elems| > 0 then elems[0] else root
  {
    assert Node(root, elems, 0) == root && Node(root, elems, 0).next == Node(root, elems, 1);
  }

  lemma BackIsLast(root: Element, elems: seq<Element>)
    requires AllApart(root, elems) && Linked(root, elems) && |elems| > 0
    ensures var n := |elems| - 1;
            && root.prev == elems[n] && elems[n].next == root
            && elems[n].prev == Node(root, elems, n) && (elems[n].prev == root || elems[n].prev in elems)
  {
    var n := |elems| - 1;
    assert Node(root, elems, n + 1) == elems[n] && Node(root, elems, n + 2) == root;
    assert Node(root, elems, n + 1).next == Node(root, elems, n + 2);
    assert Node(root, elems, n + 1).prev == Node(root, elems, n);
  }

  // ---- the cache

  /** The entries as values, most recently used first. */
  ghost function Listed(elems: seq<Element>): (c: seq<Cached>)
    reads elems`fp, elems`pol
    ensures |c| == |elems|
    ensures forall i {:trigger c[i]} :: 0 <= i < |elems| ==> c[i] == Cached(elems[i].fp, elems[i].pol)
  {
    if |elems| == 0 then [] else [Cached(elems[0].fp, elems[0].pol)] + Listed(elems[1..])
  }

  /** Each cached fingerprint leads to its own element, and each element is indexed under its own fingerprint. */
  ghost predicate Indexes(index: map<string, Element>, elems: seq<Element>)
    reads elems`fp
  {
    && (forall e :: e in elems ==> e.fp in index && index[e.fp] == e)
    && (forall fp :: fp in index ==> index[fp] in elems && index[fp].fp == fp)
  }

  lemma IndexedDistinct(index: map<string, Element>, root: Element, elems: seq<Element>)
    requires Indexes(index, elems) && AllApart(root, elems)
    ensures Distinct(Listed(elems))
  {
    assert forall i :: 0 <= i < |elems| ==> elems[i] in elems;
  }

  lemma PositionIs(c: seq<Cached>, fp: string, i: nat)
    requires Distinct(c) && i < |c| && c[i].fp == fp
    ensures Position(c, fp) == i
  {
  }

  lemma NoPosition(index: map<string, Element>, elems: seq<Element>, fp: string)
    requires Indexes(index, elems) && fp !in index
    ensures !Has(Listed(elems), fp)
  {
    assert forall i :: 0 <= i < |elems| ==> elems[i] in elems;
  }

  /** The element of a cached fingerprint, and where it stands. */
  lemma FindElement(index: map<string, Element>, root: Element, elems: seq<Element>, fp: string) returns (i: nat)
    requires Indexes(index, elems) && AllApart(root, elems) && fp in index
    ensures i < |elems| && elems[i] == index[fp] && elems[i].fp == fp && Position(Listed(elems), fp) == i
  {
    i :| 0 <= i < |elems| && elems[i] == index[fp];
    IndexedDistinct(index, root, elems);
    PositionIs(Listed(elems), fp, i);
  }

  lemma ListedConcat(a: seq<Element>, b: seq<Element>)
    ensures Listed(a + b) == Listed(a) + Listed(b)
  {
    hide Listed;
    forall j | 0 <= j < |a + b|
      ensures Listed(a + b)[j] == (Listed(a) + Listed(b))[j]
    {
    }
  }

  lemma ListedParts(elems: seq<Element>, i: nat)
    requires i <= |elems|
    ensures Listed(elems[..i]) == Listed(elems)[..i] && Listed(elems[i..]) == Listed(elems)[i..]
    ensures i < |elems| ==> Listed([elems[i]]) == [Listed(elems)[i]]
  {
    hide Listed;
    forall j | 0 <= j < i
      ensures Listed(elems[..i])[j] == Listed(elems)[..i][j]
    {
    }
    forall j | 0 <= j < |elems| - i
      ensures Listed(elems[i..])[j] == Listed(elems)[i..][j]
    {
    }
    if i < |elems| {
      assert Listed([elems[i]])[0] == Listed(elems)[i];
    }
  }

  lemma ListedMove(elems: seq<Element>, i: nat)
    requires i < |elems|
    ensures Listed([elems[i]] + Without(elems, i)) == [Listed(elems)[i]] + Without(Listed(elems), i)
  {
    ListedMoved(elems, i, elems[..i], elems[i + 1..]);
  }

  lemma ListedMoved(elems: seq<Element>, i: nat, before: seq<Element>, after: seq<Element>)
    requires i < |elems| && before == elems[..i] && after == elems[i + 1..]
    ensures Listed([elems[i]] + (before + after)) == [Listed(elems)[i]] + (Listed(elems)[..i] + Listed(elems)[i + 1..])
  {
    hide Listed;
    ListedParts(elems, i);
    ListedParts(elems, i + 1);
    ListedConcat([elems[i]], before + after);
    ListedConcat(before, after);
  }

  lemma ListedPush(elems: seq<Element>, e: Element)
    ensures Listed([e] + elems) == [Cached(e.fp, e.pol)] + Listed(elems)
  {
  }

  lemma IndexedCut(index: map<string, Element>, root: Element, elems: seq<Element>, i: nat)
    requires Indexes(index, elems) && AllApart(root, elems) && i < |elems|
    ensures Indexes(index - {elems[i].fp}, Without(elems, i))
  {
    CutMembers(elems, i);
    assert elems[i] in elems && elems[i] !in Without(elems, i);
  }

  lemma IndexedMove(index: map<string, Element>, elems: seq<Element>, i: nat)
    requires Indexes(index, elems) && i < |elems|
    ensures Indexes(index, [elems[i]] + Without(elems, i))
  {
    CutMembers(elems, i);
  }

  lemma OnlyOnce(root: Element, elems: seq<Element>, i: nat, j: nat)
    requires AllApart(root, elems) && i < |elems| && j < |elems| && elems[i] == elems[j]
    ensures i == j
  {
  }

  lemma IndexedPush(index: map<string, Element>, elems: seq<Element>, e: Element)
    requires Indexes(index, elems) && e.fp !in index
    ensures Indexes(index[e.fp := e], [e] + elems)
  {
  }

  lemma CutMembers<T>(s: seq<T>, i: nat)
    requires i < |s|
    ensures forall x :: x in Without(s, i) ==> x in s
    ensures forall x :: x in s && x != s[i] ==> x in Without(s, i)
  {
    assert s == s[..i] + [s[i]] + s[i + 1..];
  }

  lemma ReplaceHead<T>(x: T, y: T, s: seq<T>)
    ensures ([x] + s)[0 := y] == [y] + s
  {
  }

  class PolicyLRU {
    const capacity: nat
    const root: Element
    var count: nat
    var index: map<string, Element>
    /** The elements of the ring, in the order of next. */
    ghost var elems: seq<Element>

    ghost predicate Valid()
      reads this, root, elems
    {
      && capacity > 0 && count == |elems| <= capacity
      && AllApart(root, elems) && Linked(root, elems) && Indexes(index, elems)
    }

    /** The recency list. */
    ghost function Contents(): seq<Cached>
      reads this, elems
    {
      Listed(elems)
    }

    constructor (capacity: nat)
      requires capacity > 0
      ensures Valid() && Contents() == [] && this.capacity == capacity && fresh(root)
    {
      this.capacity := capacity;
      root := new Element("", Policy("", Unset, "", Budget(0, 0), [], map[]));
      count, index, elems := 0, map[], [];
    }

    method MoveToFront(e: Element, ghost i: nat)
      requires Valid() && i < |elems| && elems[i] == e
      modifies this`elems, root`next, root`prev, (set x: Element | x in elems)`next, (set x: Element | x in elems)`prev
      ensures Valid() && elems == [e] + Without(old(elems), i)
      ensures Contents() == [old(Contents())[i]] + Without(old(Contents()), i)
    {
      hide Linked, AllApart, Indexes, Listed;
      FrontIsFirst(root, elems);
      ListedMove(elems, i);
      IndexedMove(index, elems, i);
      if root.next == e {
        OnlyOnce(root, elems, i, 0);
        assert elems == [e] + Without(elems, 0);
        return;
      }
      Reorder(root, e, elems, i);
      elems := [e] + Without(elems, i);
    }

    /** The cached policy, whose entry becomes the most recently used; None when it is not cached. */
    method Get(fp: string) returns (r: Option<Policy>)
      requires Valid()
      modifies this`elems, root`next, root`prev, (set x: Element | x in elems)`next, (set x: Element | x in elems)`prev
      ensures Valid()
      ensures r == Lookup(old(Contents()), fp) && Contents() == AfterGet(old(Contents()), fp)
      ensures forall e :: e in elems ==> e in old(elems)
    {
      hide Linked, AllApart, Position;
      if fp !in index {
        NoPosition(index, elems, fp);
        return None;
      }
      var e := index[fp];
      ghost var i := FindElement(index, root, elems, fp);
      CutMembers(elems, i);
      MoveToFront(e, i);
      return Some(e.pol);
    }

    /** Inserts or updates; the entry becomes the most recently used. A full cache drops its least recently
        used entry and returns that entry's fingerprint. */
    method Set(fp: string, pol: Policy) returns (evicted: string)
      requires Valid()
      modifies this, root, elems
      ensures Valid()
      ensures Contents() == AfterSet(capacity, old(Contents()), fp, pol)
      ensures evicted == Dropped(capacity, old(Contents()), fp)
      ensures forall e :: e in elems ==> e in old(elems) || fresh(e)
    {
      hide Linked, AllApart, Position, Indexes, Listed, Without;
      if fp in index {
        Update(fp, pol);
        return "";
      }
      NoPosition(index, elems, fp);
      evicted := "";
      if count >= capacity {
        evicted := DropLast();
      }
      Insert(fp, pol);
    }

    method Update(fp: string, pol: Policy)
      requires Valid() && fp in index
      modifies this`elems, root, elems
      ensures Valid() && Has(old(Contents()), fp)
      ensures Contents() == AfterSet(capacity, old(Contents()), fp, pol)
      ensures forall e :: e in elems ==> e in old(elems)
    {
      hide Linked, AllApart, Indexes, Position, Listed, Without;
      var e := index[fp];
      ghost var c := Contents();
      ghost var i := FindElement(index, root, elems, fp);
      CutMembers(elems, i);
      MoveToFront(e, i);
      SetPolicy(e, pol);
      ReplaceHead(c[i], Cached(fp, pol), Without(c, i));
    }

    method SetPolicy(e: Element, pol: Policy)
      requires Valid() && |elems| > 0 && elems[0] == e
      modifies e`pol
      ensures Valid() && Contents() == old(Contents())[0 := Cached(e.fp, pol)]
    {
      e.pol := pol;
    }

    /** Evicts the back of a full list. */
    method DropLast() returns (evicted: string)
      requires Valid() && count >= capacity
      modifies this`count, this`index, this`elems, root`next, root`prev
      modifies (set x: Element | x in elems)`next, (set x: Element | x in elems)`prev
      ensures AllApart(root, elems) && Linked(root, elems) && Indexes(index, elems)
      ensures |old(elems)| > 0 && elems == old(elems)[..|old(elems)| - 1] && count == |elems|
      ensures Contents() == old(Contents())[..|old(elems)| - 1] && evicted == old(Contents())[|old(elems)| - 1].fp
      ensures forall fp :: fp in index ==> fp in old(index)
    {
      hide Linked, AllApart, Indexes, Listed;
      ghost var n := |elems| - 1;
      var back := root.prev;
      BackIsLast(root, elems);
      evicted := back.fp;
      IndexedCut(index, root, elems, n);
      index := index - {back.fp};
      ListedParts(elems, n);
      assert Without(elems, n) == elems[..n];
      Unlink(root, back, elems, n);
      count := count - 1;
      elems := elems[..n];
    }

    method Insert(fp: string, pol: Policy)
      requires capacity > 0 && count == |elems| < capacity && fp !in index
      requires AllApart(root, elems) && Linked(root, elems) && Indexes(index, elems)
      modifies this`count, this`index, this`elems, root`next, root`prev
      modifies (set x: Element | x in elems)`next, (set x: Element | x in elems)`prev
      ensures Valid() && Contents() == [Cached(fp, pol)] + old(Contents())
      ensures |elems| == |old(elems)| + 1 && elems[1..] == old(elems) && fresh(elems[0])
    {
      hide Linked, AllApart, Indexes, Listed;
      var e := new Element(fp, pol);
      FrontIsFirst(root, elems);
      IndexedPush(index, elems, e);
      ListedPush(elems, e);
      LinkFront(root, e, elems);
      count, index, elems := count + 1, index[fp := e], [e] + elems;
    }

    method Len() returns (n: nat)
      requires Valid()
      ensures n == |Contents()| <= capacity
    {
      return count;
    }
  }
}
