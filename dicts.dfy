/**
 * Python dictionaries from keys to float seconds (the add-on's `PROJECT_SECONDS`
 * and `FILE_SECONDS`). A Python dict remembers insertion order, which the ranking
 * relies on for ties, so a dict is modelled as its sequence of (key, value) items.
 */
module Dicts {
  type Dict = seq<(string, real)>

  /** The keys in insertion order (`d.keys()`). */
  function Keys(d: Dict): (ks: seq<string>)
    ensures |ks| == |d|
  {
    if d == [] then [] else [d[0].0] + Keys(d[1..])
  }

  /** The mapping a dict stands for; the first item of a key decides its value. */
  function ToMap(d: Dict): map<string, real> {
    if d == [] then map[] else ToMap(d[1..])[d[0].0 := d[0].1]
  }

  /** `k in d` */
  predicate HasKey(d: Dict, k: string) {
    k in ToMap(d)
  }

  /** `d[k]`, which raises `KeyError` unless `k in d`. */
  function Lookup(d: Dict, k: string): real
    requires HasKey(d, k)
  {
    ToMap(d)[k]
  }

  /** `d.get(k, default)` */
  function Get(d: Dict, k: string, default: real): real {
    if HasKey(d, k) then ToMap(d)[k] else default
  }

  /** The keys are pairwise distinct, as in every Python dict. */
  predicate UniqueKeys(d: Dict) {
    forall i, j :: 0 <= i < j < |d| ==> d[i].0 != d[j].0
  }

  /** Every value is at least zero. */
  predicate NonNegative(d: Dict) {
    forall i :: 0 <= i < |d| ==> d[i].1 >= 0.0
  }

  /** The sum of the values (`sum(d.values())`). */
  function Sum(d: Dict): real {
    if d == [] then 0.0 else d[0].1 + Sum(d[1..])
  }

  /**
   * `d[k] = v`: an existing key keeps its place and gets the new value; a new key
   * is appended at the end. (What this means for the mapping and the key order
   * is `PutFacts`.)
   */
  function Put(d: Dict, k: string, v: real): Dict {
    if d == [] then [(k, v)]
    else if d[0].0 == k then [(k, v)] + d[1..]
    else [d[0]] + Put(d[1..], k, v)
  }

  /** After `d[k] = v`, `k` maps to `v`, every other key keeps its value, and a new key comes last. */
  lemma {:induction false} PutFacts(d: Dict, k: string, v: real)
    ensures ToMap(Put(d, k, v)) == ToMap(d)[k := v]
    ensures Keys(Put(d, k, v)) == if HasKey(d, k) then Keys(d) else Keys(d) + [k]
  {
    if d != [] && d[0].0 != k {
      var rest := Put(d[1..], k, v);
      PutFacts(d[1..], k, v);
      assert ([d[0]] + rest)[1..] == rest;
    }
  }

  /** `_ensure_keys` for one dict: a missing key is inserted at the end with 0.0. */
  function EnsureKey(d: Dict, k: string): Dict {
    if HasKey(d, k) then d else Put(d, k, 0.0)
  }

  /**
   * After `_ensure_keys` the key is present; a key that was missing now maps to
   * 0.0 and comes last; nothing else changes, nor does the sum of the values.
   */
  lemma {:induction false} EnsureKeyFacts(d: Dict, k: string)
    ensures HasKey(EnsureKey(d, k), k)
    ensures ToMap(EnsureKey(d, k)) == if HasKey(d, k) then ToMap(d) else ToMap(d)[k := 0.0]
    ensures Keys(EnsureKey(d, k)) == if HasKey(d, k) then Keys(d) else Keys(d) + [k]
    ensures Sum(EnsureKey(d, k)) == Sum(d)
  {
    PutFacts(d, k, 0.0);
    PutSum(d, k, 0.0);
  }

  /** `d.get(j, 0.0)` reads the same before and after `_ensure_keys`. */
  lemma {:induction false} EnsureKeyGet(d: Dict, k: string, j: string)
    ensures Get(EnsureKey(d, k), j, 0.0) == Get(d, j, 0.0)
  {
    EnsureKeyFacts(d, k);
  }

  /**
   * `_ensure_keys` followed by `d[k] += dt`: a missing key starts at 0.0.
   * (What this means for the mapping, the key order and the sum is `AddToFacts`
   * and `AddToSum`.)
   */
  function AddTo(d: Dict, k: string, dt: real): Dict {
    var e := EnsureKey(d, k);
    EnsureKeyFacts(d, k);
    Put(e, k, Lookup(e, k) + dt)
  }

  /** Only the value of `k` changes, by exactly `dt`; a new key comes last. */
  lemma {:induction false} AddToFacts(d: Dict, k: string, dt: real)
    ensures ToMap(AddTo(d, k, dt)) == ToMap(d)[k := Get(d, k, 0.0) + dt]
    ensures Keys(AddTo(d, k, dt)) == if HasKey(d, k) then Keys(d) else Keys(d) + [k]
  {
    var e := EnsureKey(d, k);
    EnsureKeyFacts(d, k);
    PutFacts(e, k, Lookup(e, k) + dt);
  }

  /** `AddTo` is `_ensure_keys` followed by `d[k] += dt` on the now present key. */
  lemma {:induction false} AddToSteps(d: Dict, k: string, dt: real)
    ensures HasKey(EnsureKey(d, k), k)
    ensures AddTo(d, k, dt) == Put(EnsureKey(d, k), k, Lookup(EnsureKey(d, k), k) + dt)
  {
    EnsureKeyFacts(d, k);
  }

  /** Adding `dt` to one entry adds `dt` to the sum of the values. */
  lemma {:induction false} AddToSum(d: Dict, k: string, dt: real)
    ensures Sum(AddTo(d, k, dt)) == Sum(d) + dt
  {
    AddToSteps(d, k, dt);
    var e := EnsureKey(d, k);
    var v := Lookup(e, k) + dt;
    EnsureKeyFacts(d, k);
    PutSum(e, k, v);
    assert Get(e, k, 0.0) == Lookup(e, k);
  }

  /** Creating a missing entry at zero never duplicates a key nor makes a value negative. */
  lemma {:induction false} EnsureKeyKeeps(d: Dict, k: string)
    ensures UniqueKeys(d) ==> UniqueKeys(EnsureKey(d, k))
    ensures NonNegative(d) ==> NonNegative(EnsureKey(d, k))
  {
    PutUniqueKeys(d, k, 0.0);
    PutNonNegative(d, k, 0.0);
  }

  /** After `d[k] += dt` (with a missing `k` starting at zero) only `k` reads differently. */
  lemma {:induction false} AddToGet(d: Dict, k: string, dt: real, j: string)
    ensures Get(AddTo(d, k, dt), j, 0.0) == if j == k then Get(d, k, 0.0) + dt else Get(d, j, 0.0)
  {
    var r := AddTo(d, k, dt);
    AddToFacts(d, k, dt);
    assert HasKey(r, j) <==> HasKey(d, j) || j == k;
  }

  /** Adding to an entry never duplicates a key. */
  lemma {:induction false} AddToKeepsUniqueKeys(d: Dict, k: string, dt: real)
    requires UniqueKeys(d)
    ensures UniqueKeys(AddTo(d, k, dt))
  {
    EnsureKeyKeeps(d, k);
    AddToSteps(d, k, dt);
    PutUniqueKeys(EnsureKey(d, k), k, Lookup(EnsureKey(d, k), k) + dt);
  }

  /** Adding a non-negative amount keeps every value non-negative. */
  lemma {:induction false} AddToKeepsNonNegative(d: Dict, k: string, dt: real)
    requires NonNegative(d) && dt >= 0.0
    ensures NonNegative(AddTo(d, k, dt))
  {
    EnsureKeyKeeps(d, k);
    AddToSteps(d, k, dt);
    LookupIsItem(EnsureKey(d, k), k);
    PutNonNegative(EnsureKey(d, k), k, Lookup(EnsureKey(d, k), k) + dt);
  }

  /** The value `d[k]` is the value of an item of `d` with key `k`. */
  lemma {:induction false} LookupIsItem(d: Dict, k: string)
    requires HasKey(d, k)
    ensures exists i :: 0 <= i < |d| && d[i] == (k, Lookup(d, k))
  {
    if d[0].0 != k {
      LookupIsItem(d[1..], k);
      var i :| 0 <= i < |d[1..]| && d[1..][i] == (k, Lookup(d[1..], k));
      assert d[i + 1] == (k, Lookup(d, k));
    } else {
      assert d[0] == (k, Lookup(d, k));
    }
  }

  /** Writing `v` at `k` changes the sum of the values by `v` minus the old value. */
  lemma {:induction false} PutSum(d: Dict, k: string, v: real)
    ensures Sum(Put(d, k, v)) == Sum(d) - Get(d, k, 0.0) + v
  {
    if d != [] && d[0].0 != k {
      PutSum(d[1..], k, v);
      assert ([d[0]] + Put(d[1..], k, v))[1..] == Put(d[1..], k, v);
    }
  }

  /** Writing a key never creates a duplicate key. */
  lemma {:induction false} PutUniqueKeys(d: Dict, k: string, v: real)
    ensures UniqueKeys(d) ==> UniqueKeys(Put(d, k, v))
  {
    if UniqueKeys(d) && d != [] && d[0].0 != k {
      var rest := Put(d[1..], k, v);
      PutUniqueKeys(d[1..], k, v);
      PutFacts(d[1..], k, v);
      forall j | 0 <= j < |d| - 1
        ensures Keys(d[1..])[j] != d[0].0
      {
        KeysAt(d[1..], j);
      }
      forall i, j | 0 <= i < j < |[d[0]] + rest|
        ensures ([d[0]] + rest)[i].0 != ([d[0]] + rest)[j].0
      {
        if i == 0 {
          KeysAt(rest, j - 1);
        }
      }
    }
  }

  /** Writing a non-negative value keeps every value non-negative. */
  lemma {:induction false} PutNonNegative(d: Dict, k: string, v: real)
    ensures NonNegative(d) && v >= 0.0 ==> NonNegative(Put(d, k, v))
  {
    if NonNegative(d) && v >= 0.0 && d != [] && d[0].0 != k {
      PutNonNegative(d[1..], k, v);
    }
  }

  lemma {:induction false} KeysAt(d: Dict, i: nat)
    requires i < |d|
    ensures Keys(d)[i] == d[i].0
  {
    if i > 0 {
      KeysAt(d[1..], i - 1);
    }
  }
}
