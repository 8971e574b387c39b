/**
 * `_top_n` and the ordering of the CSV export: `sorted(items, key=seconds,
 * reverse=True)`, a stable sort, so items with equal seconds keep their
 * insertion order.
 */
module Ranking {
  import opened Dicts

  /** Seconds never increase from one item to a later one. */
  predicate NonIncreasing(s: Dict) {
    forall i, j :: 0 <= i < j < |s| ==> s[i].1 >= s[j].1
  }

  /** The items whose seconds equal `v`, in their order in `s`. */
  function WithSeconds(s: Dict, v: real): Dict {
    if s == [] then []
    else (if s[0].1 == v then [s[0]] else []) + WithSeconds(s[1..], v)
  }

  /** Puts `x` in front of the first item whose seconds do not exceed its own. */
  function InsertDesc(x: (string, real), t: Dict): Dict {
    if t == [] || x.1 >= t[0].1 then [x] + t
    else [t[0]] + InsertDesc(x, t[1..])
  }

  /** Inserting into a non-increasing sequence keeps it non-increasing and adds `x` once. */
  lemma {:induction false} InsertDescFacts(x: (string, real), t: Dict)
    requires NonIncreasing(t)
    ensures NonIncreasing(InsertDesc(x, t))
    ensures multiset(InsertDesc(x, t)) == multiset(t) + multiset{x}
  {
    if t == [] || x.1 >= t[0].1 {
      ConsNonIncreasing(x, t);
    } else {
      var rest := InsertDesc(x, t[1..]);
      InsertDescFacts(x, t[1..]);
      assert t == [t[0]] + t[1..];
      forall j | 0 <= j < |rest|
        ensures rest[j].1 <= t[0].1
      {
        assert rest[j] in multiset(rest);
        if rest[j] != x {
          BelowHead(t, rest[j]);
        }
      }
      ConsNonIncreasing(t[0], rest);
    }
  }

  /** An item of the tail of a non-increasing sequence has at most the head's seconds. */
  lemma {:induction false} BelowHead(t: Dict, e: (string, real))
    requires t != [] && NonIncreasing(t)
    requires e in multiset(t[1..])
    ensures e.1 <= t[0].1
  {
    var k :| 0 <= k < |t[1..]| && t[1..][k] == e;
    assert t[k + 1] == e;
  }

  lemma {:induction false} ConsNonIncreasing(h: (string, real), rest: Dict)
    requires NonIncreasing(rest)
    requires forall j :: 0 <= j < |rest| ==> rest[j].1 <= h.1
    ensures NonIncreasing([h] + rest)
  {
    var r := [h] + rest;
    forall i, j | 0 <= i < j < |r|
      ensures r[i].1 >= r[j].1
    {
      if i > 0 {
        assert r[i] == rest[i - 1] && r[j] == rest[j - 1];
      } else {
        assert r[j] == rest[j - 1];
      }
    }
  }

  /** `x` goes before every item with the same seconds, and nothing else is reordered. */
  lemma {:induction false} InsertDescStable(x: (string, real), t: Dict, v: real)
    ensures WithSeconds(InsertDesc(x, t), v) == (if x.1 == v then [x] else []) + WithSeconds(t, v)
  {
    var r := InsertDesc(x, t);
    if t == [] || x.1 >= t[0].1 {
      assert r[1..] == t;
    } else {
      var rest := InsertDesc(x, t[1..]);
      var h0 := if t[0].1 == v then [t[0]] else [];
      var hx := if x.1 == v then [x] else [];
      assert r[1..] == rest;
      InsertDescStable(x, t[1..], v);
      assert WithSeconds(r, v) == h0 + (hx + WithSeconds(t[1..], v));
      assert WithSeconds(t, v) == h0 + WithSeconds(t[1..], v);
      assert h0 == [] || hx == [];
    }
  }

  /** `sorted(s, key=lambda kv: kv[1], reverse=True)`, by insertion. */
  function SortDesc(s: Dict): Dict {
    if s == [] then [] else InsertDesc(s[0], SortDesc(s[1..]))
  }

  /**
   * `SortDesc` returns the items of `s` in non-increasing order of seconds, and
   * the items with equal seconds in their order in `s`.
   */
  lemma {:induction false} SortDescFacts(s: Dict)
    ensures NonIncreasing(SortDesc(s))
    ensures multiset(SortDesc(s)) == multiset(s)
    ensures forall v :: WithSeconds(SortDesc(s), v) == WithSeconds(s, v)
  {
    if s != [] {
      assert s == [s[0]] + s[1..];
      SortDescFacts(s[1..]);
      InsertDescFacts(s[0], SortDesc(s[1..]));
      forall v
        ensures WithSeconds(SortDesc(s), v) == WithSeconds(s, v)
      {
        InsertDescStable(s[0], SortDesc(s[1..]), v);
      }
    }
  }

  /** Every item of `WithSeconds(s, v)` is an item of `s` whose seconds are `v`. */
  lemma {:induction false} WithSecondsMember(s: Dict, v: real, e: (string, real))
    requires e in WithSeconds(s, v)
    ensures e.1 == v
    ensures exists i :: 0 <= i < |s| && s[i] == e
  {
    if s[0] != e || s[0].1 != v {
      WithSecondsMember(s[1..], v, e);
      var i :| 0 <= i < |s[1..]| && s[1..][i] == e;
      assert s[i + 1] == e;
    }
  }

  lemma {:induction false} HeadHasItsSeconds(s: Dict)
    requires s != []
    ensures WithSeconds(s, s[0].1) != []
  {
  }

  lemma {:induction false} WithSecondsAppend(a: Dict, b: Dict, v: real)
    ensures WithSeconds(a + b, v) == WithSeconds(a, v) + WithSeconds(b, v)
  {
    if a != [] {
      assert (a + b)[1..] == a[1..] + b;
      WithSecondsAppend(a[1..], b, v);
    } else {
      assert a + b == b;
    }
  }

  /** Two non-increasing sequences that agree value by value start with the same item. */
  lemma {:induction false} SameHead(a: Dict, b: Dict)
    requires a != [] && b != []
    requires NonIncreasing(a) && NonIncreasing(b)
    requires forall v :: WithSeconds(a, v) == WithSeconds(b, v)
    ensures a[0] == b[0]
  {
    var v, w := a[0].1, b[0].1;
    assert WithSeconds(a, v)[0] == a[0];
    WithSecondsMember(b, v, a[0]);
    assert WithSeconds(b, w)[0] == b[0];
    WithSecondsMember(a, w, b[0]);
    assert v == w;
  }

  /** Dropping the same first item from both keeps the agreement. */
  lemma {:induction false} SameTails(a: Dict, b: Dict, u: real)
    requires a != [] && b != [] && a[0] == b[0]
    requires WithSeconds(a, u) == WithSeconds(b, u)
    ensures WithSeconds(a[1..], u) == WithSeconds(b[1..], u)
  {
    var head := if a[0].1 == u then [a[0]] else [];
    assert WithSeconds(a, u) == head + WithSeconds(a[1..], u);
    assert WithSeconds(b, u) == head + WithSeconds(b[1..], u);
    assert WithSeconds(a[1..], u) == (head + WithSeconds(a[1..], u))[|head|..];
    assert WithSeconds(b[1..], u) == (head + WithSeconds(b[1..], u))[|head|..];
  }

  /** The tail of a non-increasing sequence is non-increasing. */
  lemma {:induction false} TailNonIncreasing(a: Dict)
    requires a != [] && NonIncreasing(a)
    ensures NonIncreasing(a[1..])
  {
    forall i, j | 0 <= i < j < |a[1..]|
      ensures a[1..][i].1 >= a[1..][j].1
    {
      assert a[1..][i] == a[i + 1] && a[1..][j] == a[j + 1];
    }
  }

  /**
   * A stable descending order is unique: two non-increasing sequences that agree,
   * seconds value by seconds value, on the order of their items are equal. So
   * `SortDesc` is the result of any stable descending sort, whatever its algorithm.
   */
  lemma {:induction false} StableOrderUnique(a: Dict, b: Dict)
    requires NonIncreasing(a) && NonIncreasing(b)
    requires forall v :: WithSeconds(a, v) == WithSeconds(b, v)
    ensures a == b
    decreases |a| + |b|
  {
    if a != [] && b == [] {
      HeadHasItsSeconds(a);
      assert false;
    } else if a == [] && b != [] {
      HeadHasItsSeconds(b);
      assert false;
    } else if a != [] && b != [] {
      SameHead(a, b);
      forall u
        ensures WithSeconds(a[1..], u) == WithSeconds(b[1..], u)
      {
        SameTails(a, b, u);
      }
      TailNonIncreasing(a);
      TailNonIncreasing(b);
      StableOrderUnique(a[1..], b[1..]);
      assert a == [a[0]] + a[1..] && b == [b[0]] + b[1..];
    }
  }

  /** `SortDesc` is exactly what any stable descending sort of `s` returns. */
  lemma {:induction false} SortDescIsTheStableSort(s: Dict, r: Dict)
    requires NonIncreasing(r)
    requires forall v :: WithSeconds(r, v) == WithSeconds(s, v)
    ensures r == SortDesc(s)
  {
    SortDescFacts(s);
    StableOrderUnique(r, SortDesc(s));
  }

  /** Python's slice `s[:n]`; a negative `n` counts from the end. */
  function Prefix(s: Dict, n: int): (r: Dict)
    ensures r <= s
    ensures |r| == if n >= 0 then (if n <= |s| then n else |s|)
                   else (if |s| + n >= 0 then |s| + n else 0)
  {
    if n >= 0 then (if n <= |s| then s[..n] else s)
    else if |s| + n >= 0 then s[..|s| + n]
    else []
  }

  /** `_top_n(mapping, n)`: the `n` items with the most seconds, most first. */
  function TopN(m: Dict, n: int): Dict {
    Prefix(SortDesc(m), n)
  }

  /** Among items with equal seconds, a prefix of a sequence keeps a prefix of them. */
  lemma {:induction false} WithSecondsPrefix(s: Dict, k: nat, v: real)
    requires k <= |s|
    ensures WithSeconds(s[..k], v) <= WithSeconds(s, v)
  {
    assert s == s[..k] + s[k..];
    WithSecondsAppend(s[..k], s[k..], v);
  }

  /** A prefix of a non-increasing sequence is non-increasing. */
  lemma {:induction false} PrefixNonIncreasing(s: Dict, k: nat)
    requires k <= |s| && NonIncreasing(s)
    ensures NonIncreasing(s[..k])
  {
    forall i, j | 0 <= i < j < k
      ensures s[..k][i].1 >= s[..k][j].1
    {
      assert s[..k][i] == s[i] && s[..k][j] == s[j];
    }
  }

  /**
   * `_top_n(m, n)` returns `n` items when `m` has that many and all of `m`
   * otherwise, most seconds first.
   */
  lemma {:induction false} TopNSize(m: Dict, n: nat)
    ensures |TopN(m, n)| == if n <= |m| then n else |m|
    ensures NonIncreasing(TopN(m, n))
  {
    SortDescFacts(m);
    assert |multiset(SortDesc(m))| == |multiset(m)|;
    PrefixNonIncreasing(SortDesc(m), |TopN(m, n)|);
  }

  /** What a prefix of a non-increasing sequence leaves out has no more seconds than what it keeps. */
  lemma {:induction false} PrefixBest(s: Dict, k: nat)
    requires k <= |s| && NonIncreasing(s)
    ensures multiset(s[..k]) <= multiset(s)
    ensures forall e, i :: e in multiset(s) - multiset(s[..k]) && 0 <= i < k ==> e.1 <= s[..k][i].1
  {
    var r := s[..k];
    assert s == r + s[k..];
    assert multiset(s) == multiset(r) + multiset(s[k..]);
    forall e, i | e in multiset(s) - multiset(r) && 0 <= i < k
      ensures e.1 <= r[i].1
    {
      assert e in multiset(s[k..]);
      var j :| 0 <= j < |s[k..]| && s[k..][j] == e;
      assert s[k + j] == e && r[i] == s[i];
    }
  }

  /**
   * The items `_top_n(m, n)` returns are items of `m`, and no item left out has
   * more seconds than an item returned.
   */
  lemma {:induction false} TopNBest(m: Dict, n: int)
    ensures multiset(TopN(m, n)) <= multiset(m)
    ensures forall e, i :: e in multiset(m) - multiset(TopN(m, n)) && 0 <= i < |TopN(m, n)| ==>
      e.1 <= TopN(m, n)[i].1
  {
    SortDescFacts(m);
    var k := |TopN(m, n)|;
    assert TopN(m, n) == SortDesc(m)[..k];
    PrefixBest(SortDesc(m), k);
  }

  /**
   * Among items with equal seconds, `_top_n(m, n)` returns the earliest
   * inserted ones, in insertion order.
   */
  lemma {:induction false} TopNStable(m: Dict, n: int, v: real)
    ensures WithSeconds(TopN(m, n), v) <= WithSeconds(m, v)
  {
    SortDescFacts(m);
    WithSecondsPrefix(SortDesc(m), |TopN(m, n)|, v);
  }
}
