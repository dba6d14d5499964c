/**
 * The registry of jobs every variant keeps in a static array, and the
 * sequence operations its queries and removals are built from. The lib
 * variant (lib/index.ts) filters the array with a predicate; the older
 * variants (index.ts, src/timerjobs.ts) splice single entries out of it.
 */
module Registry {

  /**
   * `s.filter(p)` from position `k` on: the entries the predicate accepts, in
   * order. The predicate sees the entry, its index and the whole array.
   */
  function FilterFrom<T>(s: seq<T>, p: (T, nat, seq<T>) -> bool, k: nat): (r: seq<T>)
    requires k <= |s|
    ensures |r| <= |s| - k
    decreases |s| - k
  {
    if k == |s| then [] else (if p(s[k], k, s) then [s[k]] else []) + FilterFrom(s, p, k + 1)
  }

  /** `s.filter(p)` */
  function Filter<T>(s: seq<T>, p: (T, nat, seq<T>) -> bool): (r: seq<T>)
    ensures |r| <= |s|
  {
    FilterFrom(s, p, 0)
  }

  /** An entry is in the filtered array exactly when the predicate accepts it at some position. */
  lemma {:induction false} FilterFromMembership<T>(s: seq<T>, p: (T, nat, seq<T>) -> bool, k: nat, x: T)
    requires k <= |s|
    ensures x in FilterFrom(s, p, k) <==> exists i: nat :: k <= i < |s| && s[i] == x && p(s[i], i, s)
    decreases |s| - k
  {
    if k < |s| {
      FilterFromMembership(s, p, k + 1, x);
      var head := if p(s[k], k, s) then [s[k]] else [];
      var rest := FilterFrom(s, p, k + 1);
      assert FilterFrom(s, p, k) == head + rest;
      if x in head {
        assert s[k] == x && p(s[k], k, s);
      }
      if exists i: nat :: k <= i < |s| && s[i] == x && p(s[i], i, s) {
        var i: nat :| k <= i < |s| && s[i] == x && p(s[i], i, s);
        if i == k {
          assert x in head;
        } else {
          assert x in rest;
        }
      }
    }
  }

  /** `filter` keeps exactly the accepted entries. */
  lemma FilterMembership<T>(s: seq<T>, p: (T, nat, seq<T>) -> bool, x: T)
    ensures x in Filter(s, p) <==> exists i: nat :: 0 <= i < |s| && s[i] == x && p(s[i], i, s)
  {
    FilterFromMembership(s, p, 0, x);
  }

  /** The predicate accepts `x` at some position of `s`. */
  ghost predicate AcceptedIn<T>(s: seq<T>, p: (T, nat, seq<T>) -> bool, x: T)
  {
    exists i: nat :: 0 <= i < |s| && s[i] == x && p(s[i], i, s)
  }

  /** Every filtered entry is accepted at some position, and every accepted entry is kept. */
  lemma FilterExact<T>(s: seq<T>, p: (T, nat, seq<T>) -> bool)
    ensures forall k :: 0 <= k < |Filter(s, p)| ==> AcceptedIn(s, p, Filter(s, p)[k])
    ensures forall i: nat :: 0 <= i < |s| && p(s[i], i, s) ==> s[i] in Filter(s, p)
  {
    var r := Filter(s, p);
    forall k | 0 <= k < |r|
      ensures AcceptedIn(s, p, r[k])
    {
      assert r[k] in r;
      FilterMembership(s, p, r[k]);
    }
    forall i | 0 <= i < |s| && p(s[i], i, s)
      ensures s[i] in r
    {
      FilterMembership(s, p, s[i]);
    }
  }

  /** The entries of `s` that do not occur in `drop`, in order: `s.filter(t => !drop.includes(t))`. */
  function Without<T(==)>(s: seq<T>, drop: seq<T>): (r: seq<T>)
    ensures |r| <= |s|
    ensures forall k :: 0 <= k < |r| ==> r[k] in s && r[k] !in drop
    ensures forall k :: 0 <= k < |s| && s[k] !in drop ==> s[k] in r
  {
    if s == [] then [] else (if s[0] in drop then [] else [s[0]]) + Without(s[1..], drop)
  }

  /** Removing the same entries twice removes nothing more. */
  lemma {:induction false} WithoutIdempotent<T>(s: seq<T>, drop: seq<T>)
    ensures Without(Without(s, drop), drop) == Without(s, drop)
  {
    if s != [] {
      WithoutIdempotent(s[1..], drop);
      var rest := Without(s[1..], drop);
      if s[0] !in drop {
        assert ([s[0]] + rest)[1..] == rest;
      } else {
        assert Without(s, drop) == [] + rest == rest;
      }
    }
  }

  /**
   * When the predicate treats equal entries alike, the filtered entries and
   * what remains after removing them split the array: nothing is lost and
   * nothing is duplicated.
   */
  lemma {:induction false} FilterWithoutPartition<T>(s: seq<T>, p: (T, nat, seq<T>) -> bool)
    requires forall i, j :: 0 <= i < |s| && 0 <= j < |s| && s[i] == s[j] ==> p(s[i], i, s) == p(s[j], j, s)
    ensures multiset(Filter(s, p)) + multiset(Without(s, Filter(s, p))) == multiset(s)
  {
    var removed := Filter(s, p);
    forall i | 0 <= i < |s|
      ensures s[i] in removed <==> p(s[i], i, s)
    {
      FilterMembership(s, p, s[i]);
    }
    PartitionFrom(s, p, removed, 0);
    assert s[0..] == s;
  }

  lemma {:induction false} PartitionFrom<T>(s: seq<T>, p: (T, nat, seq<T>) -> bool, removed: seq<T>, k: nat)
    requires k <= |s|
    requires forall i :: 0 <= i < |s| ==> (s[i] in removed <==> p(s[i], i, s))
    ensures multiset(FilterFrom(s, p, k)) + multiset(Without(s[k..], removed)) == multiset(s[k..])
    decreases |s| - k
  {
    if k < |s| {
      PartitionFrom(s, p, removed, k + 1);
      assert s[k..][1..] == s[k + 1..];
      assert s[k..] == [s[k]] + s[k + 1..];
    }
  }

  /** `s.indexOf(x)`: the first position of `x`, or -1. */
  function IndexOf<T(==)>(s: seq<T>, x: T): (i: int)
    ensures -1 <= i < |s|
    ensures i == -1 <==> x !in s
    ensures i >= 0 ==> s[i] == x && x !in s[..i]
  {
    if s == [] then -1
    else if s[0] == x then 0
    else
      var j := IndexOf(s[1..], x);
      assert j >= 0 ==> s[..j + 1] == [s[0]] + s[1..][..j];
      if j == -1 then -1 else j + 1
  }

  /** `s.splice(s.indexOf(x), 1)` when `x` occurs: the first occurrence goes, the rest stays in order. */
  function RemoveFirst<T(==)>(s: seq<T>, x: T): (r: seq<T>)
  {
    var i := IndexOf(s, x);
    if i < 0 then s else s[..i] + s[i + 1..]
  }

  /** Removing the first occurrence takes exactly one copy of `x`, if there is one. */
  lemma RemoveFirstCount<T>(s: seq<T>, x: T)
    ensures multiset(RemoveFirst(s, x)) == multiset(s) - multiset{x}
  {
    var i := IndexOf(s, x);
    if i >= 0 {
      assert s == s[..i] + [s[i]] + s[i + 1..];
    }
  }

  /** The given entries removed one after the other, first occurrence each. */
  function RemoveEach<T(==)>(s: seq<T>, ts: seq<T>): seq<T>
  {
    if ts == [] then s else RemoveFirst(RemoveEach(s, ts[..|ts| - 1]), ts[|ts| - 1])
  }

  /** Removing entries one by one takes one copy per request; entries not present are ignored. */
  lemma {:induction false} RemoveEachCount<T>(s: seq<T>, ts: seq<T>)
    ensures multiset(RemoveEach(s, ts)) == multiset(s) - multiset(ts)
  {
    if ts != [] {
      var init, last := ts[..|ts| - 1], ts[|ts| - 1];
      var before := RemoveEach(s, init);
      RemoveEachCount(s, init);
      RemoveFirstCount(before, last);
      assert RemoveEach(s, ts) == RemoveFirst(before, last);
      assert ts == init + [last];
      assert multiset(ts) == multiset(init) + multiset{last};
    }
  }

  /**
   * Removal never adds an entry, and an entry none of the requests names
   * keeps its presence.
   */
  lemma RemoveEachPresence<T>(s: seq<T>, ts: seq<T>, t: T)
    ensures t in RemoveEach(s, ts) ==> t in s
    ensures t !in ts ==> (t in RemoveEach(s, ts) <==> t in s)
  {
    RemoveEachCount(s, ts);
    assert t in RemoveEach(s, ts) <==> multiset(RemoveEach(s, ts))[t] > 0;
  }

  /**
   * The lib variant's registry (the static `timers` array of lib/index.ts),
   * owned by the caller instead of the class.
   */
  class Registry<T(==)> {
    var timers: seq<T>

    constructor ()
      ensures timers == []
    {
      timers := [];
    }

    /** A job registers itself at the end of its constructor. */
    method Add(t: T)
      modifies this
      ensures timers == old(timers) + [t]
    {
      timers := timers + [t];
    }

    /** `findTimers(predicate)`: the registered jobs the predicate accepts, in order. */
    function FindTimers(p: (T, nat, seq<T>) -> bool): (r: seq<T>)
      reads this
      ensures forall k :: 0 <= k < |r| ==> AcceptedIn(timers, p, r[k])
      ensures forall i: nat :: 0 <= i < |timers| && p(timers[i], i, timers) ==> timers[i] in r
    {
      FilterExact(timers, p);
      Filter(timers, p)
    }

    /**
     * `removeTimers(predicate)`: returns the jobs the predicate accepts and
     * keeps the others, in their original order.
     */
    method RemoveTimers(p: (T, nat, seq<T>) -> bool) returns (removed: seq<T>)
      modifies this
      ensures removed == Filter(old(timers), p)
      ensures timers == Without(old(timers), removed)
    {
      removed := Filter(timers, p);
      timers := Without(timers, removed);
    }

    /** `removeTimer(timer)`: every occurrence of the job goes, the others stay in order. */
    method RemoveTimer(t: T)
      modifies this
      ensures timers == Without(old(timers), [t])
      ensures t !in timers
    {
      timers := Without(timers, [t]);
    }
  }
}
