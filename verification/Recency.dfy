/** The policy cache as a recency list, most recently used first (internal/proxy/policy_cache.go). */
module Recency {
  import opened Prelude
  import opened Policies

  datatype Cached = Cached(fp: string, pol: Policy)

  predicate Has(c: seq<Cached>, fp: string) {
    exists i :: 0 <= i < |c| && c[i].fp == fp
  }

  ghost predicate Distinct(c: seq<Cached>) {
    forall i, j :: 0 <= i < j < |c| ==> c[i].fp != c[j].fp
  }

  /** The position of fp; |c| when it is not cached. */
  function Position(c: seq<Cached>, fp: string): (i: nat)
    ensures i <= |c|
    ensures i < |c| ==> c[i].fp == fp
    ensures forall j :: 0 <= j < i ==> c[j].fp != fp
    ensures Has(c, fp) <==> i < |c|
  {
    if |c| == 0 then 0
    else if c[0].fp == fp then 0
    else 1 + Position(c[1..], fp)
  }

  function Lookup(c: seq<Cached>, fp: string): Option<Policy> {
    var i := Position(c, fp);
    if i < |c| then Some(c[i].pol) else None
  }

  /** The list after get: a hit moves to the front. */
  function AfterGet(c: seq<Cached>, fp: string): seq<Cached> {
    var i := Position(c, fp);
    if i < |c| then [c[i]] + Without(c, i) else c
  }

  /** The list after set: an update moves to the front; an insert into a full cache drops the last entry. */
  function AfterSet(capacity: nat, c: seq<Cached>, fp: string, pol: Policy): seq<Cached> {
    var i := Position(c, fp);
    if i < |c| then [Cached(fp, pol)] + Without(c, i)
    else if |c| >= capacity && |c| > 0 then [Cached(fp, pol)] + c[..|c| - 1]
    else [Cached(fp, pol)] + c
  }

  /** The fingerprint set returns: the one it dropped, or the empty string. */
  function Dropped(capacity: nat, c: seq<Cached>, fp: string): string {
    if Has(c, fp) || |c| < capacity || |c| == 0 then "" else c[|c| - 1].fp
  }
}
