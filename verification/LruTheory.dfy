/** What the policy cache retains over whole histories of get and set: survival and inclusion. */
module LruTheory {
  import opened Prelude
  import opened Policies
  import opened Recency

  datatype Op<K> = Get(fp: K) | Set(fp: K)

  function Other<K(==)>(fp: K): K -> bool {
    x => x != fp
  }

  /** The fingerprints after one operation, most recently used first. */
  function After<K(==)>(capacity: nat, k: seq<K>, op: Op<K>): seq<K> {
    if op.fp in k then [op.fp] + Filter(k, Other(op.fp))
    else if op.Get? then k
    else [op.fp] + if |k| >= capacity && |k| > 0 then k[..|k| - 1] else k
  }

  function Play<K(==)>(capacity: nat, k: seq<K>, h: seq<Op<K>>): seq<K> {
    if |h| == 0 then k else After(capacity, Play(capacity, k, h[..|h| - 1]), h[|h| - 1])
  }

  /** set always touches its fingerprint; get touches on a hit. */
  predicate Touches<K(==)>(k: seq<K>, op: Op<K>) {
    op.Set? || op.fp in k
  }

  // ---- the recency list of Recency, seen as its fingerprints

  function Keys(c: seq<Cached>): seq<string> {
    Map(c, (e: Cached) => e.fp)
  }

  lemma KeysHas(c: seq<Cached>, fp: string)
    ensures fp in Keys(c) <==> Has(c, fp)
  {
    if i :| 0 <= i < |c| && c[i].fp == fp {
      assert Keys(c)[i] == fp;
    }
  }

  /** Dropping the i-th of distinct elements is filtering it out. */
  lemma {:induction false} FilterOneOut<K>(k: seq<K>, i: nat)
    requires AllDistinct(k) && i < |k|
    ensures Filter(k, Other(k[i])) == k[..i] + k[i + 1..]
  {
    var last := |k| - 1;
    if i == last {
      FilterAllOthers(k[..last], k[last]);
      assert k[..i] + k[i + 1..] == k[..last];
    } else {
      FilterOneOut(k[..last], i);
      assert k[..last][..i] + k[..last][i + 1..] + [k[last]] == k[..i] + k[i + 1..];
    }
  }

  lemma {:induction false} FilterAllOthers<K>(k: seq<K>, fp: K)
    requires fp !in k
    ensures Filter(k, Other(fp)) == k
  {
    if |k| != 0 {
      assert k[|k| - 1] in k;
      FilterAllOthers(k[..|k| - 1], fp);
      assert k == k[..|k| - 1] + [k[|k| - 1]];
    }
  }

  /** get and set of the recency list act on its fingerprints as Op does. */
  lemma KeysFollow(capacity: nat, c: seq<Cached>, fp: string, pol: Policy)
    requires Distinct(c)
    ensures Keys(AfterGet(c, fp)) == After(capacity, Keys(c), Get(fp))
    ensures Keys(AfterSet(capacity, c, fp, pol)) == After(capacity, Keys(c), Set(fp))
  {
    KeysHas(c, fp);
    var i := Position(c, fp);
    if i < |c| {
      FilterOneOut(Keys(c), i);
      KeysMove(c, c[i], i);
      KeysMove(c, Cached(fp, pol), i);
    } else {
      KeysPush(c, Cached(fp, pol));
    }
  }

  lemma KeysMove(c: seq<Cached>, e: Cached, i: nat)
    requires i < |c|
    ensures Keys([e] + Without(c, i)) == [e.fp] + (Keys(c)[..i] + Keys(c)[i + 1..])
  {
  }

  lemma KeysPush(c: seq<Cached>, e: Cached)
    ensures Keys([e] + c) == [e.fp] + Keys(c)
    ensures |c| > 0 ==> Keys([e] + c[..|c| - 1]) == [e.fp] + Keys(c)[..|c| - 1]
  {
  }

  /** What set returns is the one fingerprint that the update has dropped, or the empty string if none was. */
  lemma DroppedMeans(capacity: nat, c: seq<Cached>, fp: string, pol: Policy)
    requires Distinct(c) && |c| <= capacity && capacity > 0
    ensures var c', d := AfterSet(capacity, c, fp, pol), Dropped(capacity, c, fp);
            && (forall x :: Has(c, x) && !Has(c', x) ==> x == d)
            && ((exists x :: Has(c, x) && !Has(c', x)) ==> Has(c, d) && !Has(c', d))
            && (!(exists x :: Has(c, x) && !Has(c', x)) ==> d == "")
  {
    hide Has;
    var c', i := AfterSet(capacity, c, fp, pol), Position(c, fp);
    var full := i == |c| && |c| == capacity;
    var last := if |c| > 0 then c[|c| - 1].fp else "";
    forall x
      ensures Has(c, x) && !Has(c', x) <==> full && x == last
    {
      DroppedAt(capacity, c, fp, pol, x);
    }
  }

  lemma DroppedAt(capacity: nat, c: seq<Cached>, fp: string, pol: Policy, x: string)
    requires Distinct(c) && |c| <= capacity && capacity > 0
    ensures var full := Position(c, fp) == |c| && |c| == capacity;
            Has(c, x) && !Has(AfterSet(capacity, c, fp, pol), x) <==> full && x == c[|c| - 1].fp
  {
    var c', i := AfterSet(capacity, c, fp, pol), Position(c, fp);
    assert c'[0].fp == fp;
    if k :| 0 <= k < |c| && c[k].fp == x {
      if i < |c| {
        assert k < i ==> c'[k + 1] == c[k];
        assert k > i ==> c'[k] == c[k];
      } else if |c| < capacity || k < |c| - 1 {
        assert c'[k + 1] == c[k];
      } else {
        assert forall j :: 1 <= j < |c'| ==> c'[j] == c[j - 1];
      }
    }
  }

  // ---- well-formedness

  /** Moving the i-th element to the front. */
  lemma MoveToFront<K>(k: seq<K>, i: nat)
    requires AllDistinct(k) && i < |k|
    ensures var k' := [k[i]] + (k[..i] + k[i + 1..]);
            && |k'| == |k| && k'[0] == k[i] && AllDistinct(k')
            && (forall j :: 0 <= j < i ==> k'[j + 1] == k[j]) && (forall j :: i < j < |k| ==> k'[j] == k[j])
            && (forall x :: x in k' <==> x in k)
  {
    var k' := [k[i]] + (k[..i] + k[i + 1..]);
    assert forall j :: 0 <= j < |k'| ==> k'[j] == if j == 0 then k[i] else if j <= i then k[j - 1] else k[j];
    forall x | x in k
      ensures x in k'
    {
      var j :| 0 <= j < |k| && k[j] == x;
      assert k'[if j == i then 0 else if j < i then j + 1 else j] == x;
    }
  }

  /** A touched fingerprint that was cached moves to the front. */
  lemma HitMoves<K>(capacity: nat, k: seq<K>, op: Op<K>) returns (i: nat)
    requires AllDistinct(k) && op.fp in k
    ensures i < |k| && k[i] == op.fp && After(capacity, k, op) == [k[i]] + (k[..i] + k[i + 1..])
  {
    i :| 0 <= i < |k| && k[i] == op.fp;
    FilterOneOut(k, i);
  }

  lemma AfterWellFormed<K>(capacity: nat, k: seq<K>, op: Op<K>)
    requires AllDistinct(k) && |k| <= capacity && capacity > 0
    ensures AllDistinct(After(capacity, k, op)) && |After(capacity, k, op)| <= capacity
    ensures Touches(k, op) ==> |After(capacity, k, op)| > 0 && After(capacity, k, op)[0] == op.fp
    ensures forall x :: x in After(capacity, k, op) ==> x in k || (op.Set? && x == op.fp)
    ensures op.fp in k ==> |After(capacity, k, op)| == |k|
  {
    if op.fp in k {
      var i := HitMoves(capacity, k, op);
      MoveToFront(k, i);
    }
  }

  lemma {:induction false} PlayWellFormed<K>(capacity: nat, k: seq<K>, h: seq<Op<K>>)
    requires AllDistinct(k) && |k| <= capacity && capacity > 0
    ensures AllDistinct(Play(capacity, k, h)) && |Play(capacity, k, h)| <= capacity
  {
    if |h| > 0 {
      PlayWellFormed(capacity, k, h[..|h| - 1]);
      AfterWellFormed(capacity, Play(capacity, k, h[..|h| - 1]), h[|h| - 1]);
    }
  }

  lemma {:induction false} PlayAppend<K>(capacity: nat, k: seq<K>, h: seq<Op<K>>, t: seq<Op<K>>)
    ensures Play(capacity, k, h + t) == Play(capacity, Play(capacity, k, h), t)
  {
    hide After;
    if |t| == 0 {
      assert h + t == h;
    } else {
      assert (h + t)[..|h + t| - 1] == h + t[..|t| - 1];
      PlayAppend(capacity, k, h, t[..|t| - 1]);
    }
  }

  // ---- survival

  /** The fingerprints other than fp that the history touches, starting from k. */
  function OthersTouched<K(==)>(capacity: nat, k: seq<K>, h: seq<Op<K>>, fp: K): set<K> {
    if |h| == 0 then {}
    else
      var front, op := h[..|h| - 1], h[|h| - 1];
      OthersTouched(capacity, k, front, fp)
      + if Touches(Play(capacity, k, front), op) && op.fp != fp then {op.fp} else {}
  }

  /** No operation of the history touches fp. */
  predicate Untouched<K(==)>(capacity: nat, k: seq<K>, h: seq<Op<K>>, fp: K) {
    |h| == 0 ||
    (Untouched(capacity, k, h[..|h| - 1], fp)
     && !(h[|h| - 1].fp == fp && Touches(Play(capacity, k, h[..|h| - 1]), h[|h| - 1])))
  }

  /** fp stands right behind exactly the fingerprints in d. */
  ghost predicate Behind<K>(k: seq<K>, fp: K, d: set<K>) {
    |d| < |k| && k[|d|] == fp && (forall x :: x in d ==> x in k[..|d|]) && (forall x :: x in k[..|d|] ==> x in d)
  }

  lemma RotatedPrefix<K>(k: seq<K>, i: nat, n: nat)
    requires i < n < |k|
    ensures var k' := [k[i]] + (k[..i] + k[i + 1..]);
            && |k'| == |k| && k'[n] == k[n]
            && (forall j :: 0 <= j < n ==> k'[j] == if j == 0 then k[i] else if j <= i then k[j - 1] else k[j])
  {
  }

  lemma BehindRotated<K>(k: seq<K>, fp: K, d: set<K>, i: nat)
    requires AllDistinct(k) && Behind(k, fp, d) && i < |d|
    ensures Behind([k[i]] + (k[..i] + k[i + 1..]), fp, d)
  {
    hide AllDistinct;
    var k', n := [k[i]] + (k[..i] + k[i + 1..]), |d|;
    RotatedPrefix(k, i, n);
    forall x | x in d
      ensures x in k'[..n]
    {
      var j :| 0 <= j < n && k[..n][j] == x;
      var j' := if j == i then 0 else if j < i then j + 1 else j;
      assert k'[..n][j'] == x;
    }
    forall x | x in k'[..n]
      ensures x in d
    {
      var j :| 0 <= j < n && k'[..n][j] == x;
      var j' := if j == 0 then i else if j <= i then j - 1 else j;
      assert k[..n][j'] == x;
    }
  }

  lemma BehindPushed<K>(k: seq<K>, fp: K, d: set<K>, x: K, k': seq<K>)
    requires Behind(k, fp, d) && x !in d && |k'| > |d| + 1 && k'[..|d| + 2] == [x] + k[..|d| + 1]
    ensures Behind(k', fp, d + {x})
  {
    var n := |d|;
    assert |d + {x}| == n + 1;
    assert k'[n + 1] == k'[..n + 2][n + 1] == fp;
    assert k'[..n + 1] == k'[..n + 2][..n + 1] == [x] + k[..n];
  }

  /** Touching another fingerprint moves fp back by one if it is a new one, and not at all otherwise. */
  lemma TouchOther<K>(capacity: nat, k: seq<K>, fp: K, d: set<K>, op: Op<K>)
    requires AllDistinct(k) && |k| <= capacity && capacity > 0 && Behind(k, fp, d)
    requires Touches(k, op) && op.fp != fp && |d + {op.fp}| < capacity
    ensures Behind(After(capacity, k, op), fp, d + {op.fp})
  {
    hide Behind;
    var k', n := After(capacity, k, op), |d|;
    BehindMeans(k, fp, d);
    if op.fp in k {
      var i := HitMoves(capacity, k, op);
      if i < n {
        assert k[..n][i] in d;
        assert d + {op.fp} == d;
        BehindRotated(k, fp, d, i);
      } else {
        assert k'[..n + 2] == [op.fp] + k[..n + 1];
        BehindPushed(k, fp, d, op.fp, k');
      }
    } else {
      assert op.fp !in d && |d + {op.fp}| == n + 1;
      assert k'[..n + 2] == [op.fp] + k[..n + 1];
      BehindPushed(k, fp, d, op.fp, k');
    }
  }

  lemma BehindMeans<K>(k: seq<K>, fp: K, d: set<K>)
    requires Behind(k, fp, d) && AllDistinct(k)
    ensures |d| < |k| && k[|d|] == fp && (forall i :: 0 <= i < |d| ==> k[i] in d)
        && (forall i :: |d| <= i < |k| ==> k[i] !in d)
    ensures forall x :: x in d ==> x in k
  {
    forall i | 0 <= i < |d|
      ensures k[i] in d
    {
      assert k[i] == k[..|d|][i];
    }
  }

  /** When the last place behind capacity - 1 others is taken by one more, fp is dropped. */
  lemma TouchEvicts<K>(capacity: nat, k: seq<K>, fp: K, d: set<K>, op: Op<K>)
    requires AllDistinct(k) && |k| <= capacity && capacity > 0 && Behind(k, fp, d)
    requires Touches(k, op) && op.fp != fp && |d + {op.fp}| >= capacity
    ensures fp !in After(capacity, k, op)
  {
    assert op.fp !in d;
    assert |d| + 1 == |k| == capacity;
    assert forall i :: 0 <= i < |k| ==> k[i] in d || k[i] == fp;
  }

  /** From a list with fp in front, and without touching fp again: fp is cached exactly while fewer than
      `capacity` distinct other fingerprints have been touched, and then stands right behind them. */
  lemma {:induction false} SurvivesSegment<K>(capacity: nat, k: seq<K>, h: seq<Op<K>>, fp: K)
    requires AllDistinct(k) && |k| <= capacity && capacity > 0 && |k| > 0 && k[0] == fp
    requires Untouched(capacity, k, h, fp)
    ensures var d, k' := OthersTouched(capacity, k, h, fp), Play(capacity, k, h);
            if |d| < capacity then Behind(k', fp, d) else fp !in k'
  {
    if |h| > 0 {
      var front, op := h[..|h| - 1], h[|h| - 1];
      SurvivesSegment(capacity, k, front, fp);
      PlayWellFormed(capacity, k, front);
      var d, mid := OthersTouched(capacity, k, front, fp), Play(capacity, k, front);
      AfterWellFormed(capacity, mid, op);
      if Touches(mid, op) {
        if |d| >= capacity {
          assert d <= d + {op.fp};
          SubsetSize(d, d + {op.fp});
        } else if |d + {op.fp}| < capacity {
          TouchOther(capacity, mid, fp, d, op);
        } else {
          TouchEvicts(capacity, mid, fp, d, op);
        }
      }
    }
  }

  lemma SubsetSize<T>(a: set<T>, b: set<T>)
    requires a <= b
    ensures |a| <= |b|
  {
    assert b == a + (b - a);
  }

  /** The last operation of a history that touches fp. */
  function LastTouch<K(==)>(capacity: nat, h: seq<Op<K>>, fp: K): (r: Option<nat>)
    ensures r.Some? ==> r.value < |h| && h[r.value].fp == fp && Touches(Play(capacity, [], h[..r.value]), h[r.value])
  {
    if |h| == 0 then None
    else if h[|h| - 1].fp == fp && Touches(Play(capacity, [], h[..|h| - 1]), h[|h| - 1]) then Some(|h| - 1)
    else
      var r := LastTouch(capacity, h[..|h| - 1], fp);
      assert r.Some? ==> h[..|h| - 1][..r.value] == h[..r.value];
      r
  }

  lemma {:induction false} NeverTouchedNeverCached<K>(capacity: nat, h: seq<Op<K>>, fp: K)
    requires capacity > 0 && LastTouch(capacity, h, fp).None?
    ensures fp !in Play(capacity, [], h)
  {
    if |h| > 0 {
      NeverTouchedNeverCached(capacity, h[..|h| - 1], fp);
      PlayWellFormed(capacity, [], h[..|h| - 1]);
      AfterWellFormed(capacity, Play(capacity, [], h[..|h| - 1]), h[|h| - 1]);
    }
  }

  lemma {:induction false} UntouchedSince<K>(capacity: nat, h: seq<Op<K>>, fp: K, i: nat)
    requires LastTouch(capacity, h, fp) == Some(i)
    ensures Untouched(capacity, Play(capacity, [], h[..i + 1]), h[i + 1..], fp)
  {
    hide After, Touches;
    if i + 1 < |h| {
      var front := h[..|h| - 1];
      UntouchedSince(capacity, front, fp, i);
      assert front[..i + 1] == h[..i + 1];
      assert front[i + 1..] == h[i + 1..][..|h| - 1 - (i + 1)];
      PlayAppend(capacity, [], h[..i + 1], front[i + 1..]);
      assert h[..i + 1] + front[i + 1..] == front;
    }
  }

  lemma FrontAfterTouch<K>(capacity: nat, h: seq<Op<K>>, i: nat)
    requires capacity > 0 && i < |h| && Touches(Play(capacity, [], h[..i]), h[i])
    ensures var k := Play(capacity, [], h[..i + 1]);
            AllDistinct(k) && |k| <= capacity && |k| > 0 && k[0] == h[i].fp
  {
    hide After;
    PlayWellFormed(capacity, [], h[..i]);
    AfterWellFormed(capacity, Play(capacity, [], h[..i]), h[i]);
    assert h[..i + 1][..i] == h[..i];
  }

  lemma PlaySplit<K>(capacity: nat, h: seq<Op<K>>, i: nat)
    requires i <= |h|
    ensures Play(capacity, [], h) == Play(capacity, Play(capacity, [], h[..i]), h[i..])
  {
    hide Play;
    PlayAppend(capacity, [], h[..i], h[i..]);
    assert h[..i] + h[i..] == h;
  }

  lemma BehindIsMember<K>(k: seq<K>, fp: K, d: set<K>)
    requires Behind(k, fp, d)
    ensures fp in k
  {
    assert k[|d|] == fp;
  }

  /** LRU survival. After any history, a fingerprint is cached exactly when it was touched and fewer than
      `capacity` distinct other fingerprints have been touched since its last touch. */
  lemma Survival<K>(capacity: nat, h: seq<Op<K>>, fp: K)
    requires capacity > 0
    ensures fp in Play(capacity, [], h) <==>
            var last := LastTouch(capacity, h, fp);
            last.Some?
            && |OthersTouched(capacity, Play(capacity, [], h[..last.value + 1]), h[last.value + 1..], fp)| < capacity
  {
    hide Play, OthersTouched, Untouched, Behind, LastTouch, AllDistinct;
    var last := LastTouch(capacity, h, fp);
    if last.None? {
      NeverTouchedNeverCached(capacity, h, fp);
    } else {
      var i := last.value;
      var k := Play(capacity, [], h[..i + 1]);
      FrontAfterTouch(capacity, h, i);
      UntouchedSince(capacity, h, fp, i);
      SurvivesSegment(capacity, k, h[i + 1..], fp);
      PlaySplit(capacity, h, i + 1);
      var d := OthersTouched(capacity, k, h[i + 1..], fp);
      if |d| < capacity {
        BehindIsMember(Play(capacity, k, h[i + 1..]), fp, d);
      }
    }
  }

  // ---- inclusion

  predicate Subsequence<K(==)>(a: seq<K>, b: seq<K>) {
    |a| == 0 ||
    (|b| > 0
     && if a[|a| - 1] == b[|b| - 1] then Subsequence(a[..|a| - 1], b[..|b| - 1]) else Subsequence(a, b[..|b| - 1]))
  }

  lemma {:induction false} SubsequenceShorter<K>(a: seq<K>, b: seq<K>)
    requires Subsequence(a, b) && |a| > 0
    ensures Subsequence(a[..|a| - 1], b)
    decreases b, 0
  {
    var b', x := b[..|b| - 1], b[|b| - 1];
    if a[|a| - 1] != x {
      SubsequenceShorter(a, b');
    }
    SubsequenceLonger(a[..|a| - 1], b', x);
    assert b == b' + [x];
  }

  lemma {:induction false} SubsequenceLonger<K>(a: seq<K>, b: seq<K>, x: K)
    requires Subsequence(a, b)
    ensures Subsequence(a, b + [x])
    decreases b, 1
  {
    assert (b + [x])[..|b|] == b;
    if |a| > 0 && a[|a| - 1] == x {
      SubsequenceShorter(a, b);
    }
  }

  /** Filtering both sides keeps a subsequence one. */
  lemma {:induction false} SubsequenceFilter<K>(a: seq<K>, b: seq<K>, p: K -> bool)
    requires Subsequence(a, b)
    ensures Subsequence(Filter(a, p), Filter(b, p))
  {
    if |a| > 0 {
      var a', b', x := a[..|a| - 1], b[..|b| - 1], b[|b| - 1];
      if a[|a| - 1] == x {
        SubsequenceFilter(a', b', p);
        assert (Filter(a', p) + [x])[..|Filter(a', p)|] == Filter(a', p);
        assert (Filter(b', p) + [x])[..|Filter(b', p)|] == Filter(b', p);
        assert Filter(a, p) == Filter(a', p) + (if p(x) then [x] else [])
            && Filter(b, p) == Filter(b', p) + (if p(x) then [x] else []);
        assert Filter(a', p) + [] == Filter(a', p) && Filter(b', p) + [] == Filter(b', p);
      } else {
        SubsequenceFilter(a, b', p);
        assert Filter(b', p) + [] == Filter(b', p);
        if p(x) {
          SubsequenceLonger(Filter(a, p), Filter(b', p), x);
        }
      }
    }
  }

  lemma {:induction false} SubsequenceCons<K>(x: K, a: seq<K>, b: seq<K>)
    requires Subsequence(a, b)
    ensures Subsequence([x] + a, [x] + b)
  {
    if |b| == 0 {
      assert [x] + a == [x] + b == [x];
      assert [x][..0] == [];
    } else {
      var b' := b[..|b| - 1];
      assert ([x] + b)[..|b|] == [x] + b';
      if |a| == 0 {
        SubsequenceCons(x, a, b');
        SubsequenceLonger([x] + a, [x] + b', b[|b| - 1]);
        assert [x] + b == [x] + b' + [b[|b| - 1]];
      } else {
        assert ([x] + a)[..|a|] == [x] + a[..|a| - 1];
        if a[|a| - 1] == b[|b| - 1] {
          SubsequenceCons(x, a[..|a| - 1], b');
        } else {
          SubsequenceCons(x, a, b');
        }
      }
    }
  }

  lemma {:induction false} SubsequenceMember<K>(a: seq<K>, b: seq<K>, x: K)
    requires Subsequence(a, b) && x in a
    ensures x in b
  {
    if a[|a| - 1] == b[|b| - 1] {
      if x != a[|a| - 1] {
        SubsequenceMember(a[..|a| - 1], b[..|b| - 1], x);
      }
    } else {
      SubsequenceMember(a, b[..|b| - 1], x);
    }
  }

  lemma {:induction false} SubsequenceLongerFront<K>(x: K, a: seq<K>, b: seq<K>)
    requires Subsequence(a, b)
    ensures Subsequence(a, [x] + b)
  {
    if |a| > 0 {
      assert ([x] + b)[..|b|] == [x] + b[..|b| - 1];
      SubsequenceLongerFront(x, if a[|a| - 1] == b[|b| - 1] then a[..|a| - 1] else a, b[..|b| - 1]);
    }
  }

  lemma SubsequenceDropLast<K>(a: seq<K>, b: seq<K>)
    requires Subsequence(a, b) && |a| > 0
    ensures Subsequence(a[..|a| - 1], b[..|b| - 1])
  {
    if a[|a| - 1] != b[|b| - 1] {
      SubsequenceShorter(a, b[..|b| - 1]);
    }
  }

  /** The smaller cache's order is a subsequence of the larger one's, and it is full unless they agree. */
  predicate Included<K(==)>(small: nat, a: seq<K>, b: seq<K>) {
    Subsequence(a, b) && (|a| == small || a == b)
  }

  lemma {:induction false} SubsequenceItself<K>(a: seq<K>)
    ensures Subsequence(a, a)
  {
    if |a| > 0 {
      SubsequenceItself(a[..|a| - 1]);
    }
  }

  lemma InclusionStep<K>(small: nat, large: nat, a: seq<K>, b: seq<K>, op: Op<K>)
    requires 0 < small <= large && Included(small, a, b) && AllDistinct(a) && AllDistinct(b)
    requires |a| <= small && |b| <= large
    ensures Included(small, After(small, a, op), After(large, b, op))
  {
    var x := op.fp;
    AfterWellFormed(small, a, op);
    if x in a {
      SubsequenceMember(a, b, x);
      SubsequenceFilter(a, b, Other(x));
      SubsequenceCons(x, Filter(a, Other(x)), Filter(b, Other(x)));
    } else if op.Set? {
      if |a| == small {
        SubsequenceShorter(a, b);
      }
      var a' := if |a| >= small then a[..|a| - 1] else a;
      assert After(small, a, op) == [x] + a';
      if x in b {
        assert a != b;
        FilterAllOthers(a', x);
        SubsequenceFilter(a', b, Other(x));
        SubsequenceCons(x, a', Filter(b, Other(x)));
      } else if |b| >= large {
        SubsequenceDropLast(a, b);
        SubsequenceCons(x, a[..|a| - 1], b[..|b| - 1]);
      } else {
        SubsequenceCons(x, a', b);
      }
    } else if x in b {
      FilterAllOthers(a, x);
      SubsequenceFilter(a, b, Other(x));
      SubsequenceLongerFront(x, a, Filter(b, Other(x)));
    }
  }

  /** LRU inclusion. On the same history, the recency order of a cache is a subsequence of that of any
      larger cache. */
  lemma {:induction false} Inclusion<K>(small: nat, large: nat, h: seq<Op<K>>)
    requires 0 < small <= large
    ensures Included(small, Play(small, [], h), Play(large, [], h))
  {
    if |h| > 0 {
      var front := h[..|h| - 1];
      Inclusion(small, large, front);
      PlayWellFormed(small, [], front);
      PlayWellFormed(large, [], front);
      InclusionStep(small, large, Play(small, [], front), Play(large, [], front), h[|h| - 1]);
    }
  }
}
