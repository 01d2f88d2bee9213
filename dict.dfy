/** A plain JavaScript object used as a dictionary from strings to numbers: a sequence of
    entries in insertion order, with each key at most once. `Object.keys` and `Object.entries`
    report that order for keys that are not integer-like; this model has no integer-like keys
    rule. Nor does it have inherited properties: a key such as "constructor" or "__proto__",
    which a JavaScript object already answers through `Object.prototype`, reads here as absent. */
module Dict {
  import opened Lists

  type Dict = seq<(string, int)>

  function Keys(d: Dict): (ks: seq<string>)
    ensures |ks| == |d|
    ensures forall i :: 0 <= i < |d| ==> ks[i] == d[i].0
  {
    if d == [] then [] else [d[0].0] + Keys(d[1..])
  }

  predicate KeysUnique(d: Dict) {
    NoDup(Keys(d))
  }

  /** `d[k] || 0` on an object whose keys are all own keys: the value stored under `k`, or 0
      when `k` is neither an own nor an inherited property. Keys that name a property of
      `Object.prototype` ("constructor", "toString", "__proto__", ...) are outside the model. */
  function Get0(d: Dict, k: string): int {
    if d == [] then 0
    else if d[0].0 == k then d[0].1
    else Get0(d[1..], k)
  }

  /** `d[k]` as a function of `k`. */
  function At(d: Dict): string -> int {
    k => Get0(d, k)
  }

  /** `d[k] = (d[k] || 0) + v` for a key that is not a property of `Object.prototype`: an existing
      key keeps its place; a new key goes at the end. */
  function AddTo(d: Dict, k: string, v: int): Dict {
    if d == [] then [(k, v)]
    else if d[0].0 == k then [(k, d[0].1 + v)] + d[1..]
    else [d[0]] + AddTo(d[1..], k, v)
  }

  lemma {:induction false} AddToKeys(d: Dict, k: string, v: int)
    ensures Keys(AddTo(d, k, v)) == if k in Keys(d) then Keys(d) else Keys(d) + [k]
  {
    if d != [] {
      assert Keys(d) == [d[0].0] + Keys(d[1..]);
      if d[0].0 != k {
        AddToKeys(d[1..], k, v);
        assert Keys(AddTo(d, k, v)) == [d[0].0] + Keys(AddTo(d[1..], k, v));
      } else {
        assert Keys(AddTo(d, k, v)) == [k] + Keys(d[1..]);
      }
    }
  }

  function EntryValue(e: (string, int)): int {
    e.1
  }

  /** `Object.values(d)` summed. */
  function SumValues(d: Dict): int {
    Sum(d, EntryValue)
  }

  /** Adding `v` under `k` changes the value under `k` by `v` and no other value. */
  lemma {:induction false} AddToGet(d: Dict, k: string, v: int, k': string)
    ensures Get0(AddTo(d, k, v), k') == Get0(d, k') + (if k' == k then v else 0)
  {
    if d != [] && d[0].0 != k {
      AddToGet(d[1..], k, v, k');
    }
  }

  /** Adding `v` under some key adds `v` to the sum of the values. */
  lemma {:induction false} AddToSum(d: Dict, k: string, v: int)
    ensures SumValues(AddTo(d, k, v)) == SumValues(d) + v
  {
    var r := AddTo(d, k, v);
    if d == [] {
      assert r[1..] == [];
    } else {
      if d[0].0 != k {
        AddToSum(d[1..], k, v);
        assert r[1..] == AddTo(d[1..], k, v);
      } else {
        assert r[1..] == d[1..];
      }
    }
  }

  lemma AddToUnique(d: Dict, k: string, v: int)
    requires KeysUnique(d)
    ensures KeysUnique(AddTo(d, k, v))
  {
    AddToKeys(d, k, v);
    var ks := Keys(d);
    if k !in ks {
      forall i, j | 0 <= i < j < |ks + [k]| ensures (ks + [k])[i] != (ks + [k])[j] {
        if j == |ks| {
          assert (ks + [k])[i] == ks[i];
        }
      }
    }
  }

  /** A `forEach` over `s` doing `d[key(x)] = (d[key(x)] || 0) + val(x)`, from an empty object. */
  function SumByKey<T>(s: seq<T>, key: T -> string, val: T -> int): Dict {
    if s == [] then []
    else AddTo(SumByKey(s[..|s| - 1], key, val), key(s[|s| - 1]), val(s[|s| - 1]))
  }

  /** Each key occurs once in the result. */
  lemma {:induction false} SumByKeyUnique<T>(s: seq<T>, key: T -> string, val: T -> int)
    ensures KeysUnique(SumByKey(s, key, val))
    decreases |s|
  {
    if s != [] {
      SumByKeyUnique(s[..|s| - 1], key, val);
      AddToUnique(SumByKey(s[..|s| - 1], key, val), key(s[|s| - 1]), val(s[|s| - 1]));
    }
  }

  /** Every element adds its value to exactly one bucket: the buckets sum to the total. */
  lemma {:induction false} SumByKeyTotal<T>(s: seq<T>, key: T -> string, val: T -> int)
    ensures SumValues(SumByKey(s, key, val)) == Sum(s, val)
    decreases |s|
  {
    if s != [] {
      var init, last := s[..|s| - 1], s[|s| - 1];
      var d := SumByKey(init, key, val);
      SumByKeyTotal(init, key, val);
      AddToSum(d, key(last), val(last));
      SumAppend(init, [last], val);
      calc {
        SumValues(SumByKey(s, key, val));
        SumValues(AddTo(d, key(last), val(last)));
        SumValues(d) + val(last);
        Sum(init, val) + val(last);
        { assert Sum([last], val) == val(last) + Sum([last][1..], val); }
        Sum(init, val) + Sum([last], val);
        Sum(init + [last], val);
        { assert s == init + [last]; }
        Sum(s, val);
      }
    }
  }

  /** The bucket of `k` holds the sum of the values of the elements whose key is `k`
      (`inK` tests for that key). */
  lemma {:induction false} SumByKeyGet<T>(s: seq<T>, key: T -> string, val: T -> int, k: string, inK: T -> bool)
    requires forall x :: inK(x) == (key(x) == k)
    ensures Get0(SumByKey(s, key, val), k) == Sum(Filter(s, inK), val)
    decreases |s|
  {
    if s != [] {
      var init, last := s[..|s| - 1], s[|s| - 1];
      var d := SumByKey(init, key, val);
      SumByKeyGet(init, key, val, k, inK);
      AddToGet(d, key(last), val(last), k);
      assert s == init + [last];
      FilterAppend(init, [last], inK);
      var fl := Filter([last], inK);
      SumAppend(Filter(init, inK), fl, val);
      assert Sum(fl, val) == if inK(last) then val(last) else 0 by {
        if inK(last) {
          assert fl == [last];
          assert Sum(fl, val) == val(last) + Sum(fl[1..], val);
        } else {
          assert fl == [];
        }
      }
      calc {
        Get0(SumByKey(s, key, val), k);
        Get0(AddTo(d, key(last), val(last)), k);
        Get0(d, k) + (if k == key(last) then val(last) else 0);
        Sum(Filter(init, inK), val) + Sum(fl, val);
        Sum(Filter(s, inK), val);
      }
    }
  }

  /** The keys are exactly the keys of the elements, in order of first appearance. */
  lemma {:induction false} SumByKeyKeys<T>(s: seq<T>, key: T -> string, val: T -> int)
    ensures Keys(SumByKey(s, key, val)) == FirstKeys(s, key)
    decreases |s|
  {
    if s != [] {
      var init, last := s[..|s| - 1], s[|s| - 1];
      var d := SumByKey(init, key, val);
      assert SumByKey(s, key, val) == AddTo(d, key(last), val(last));
      AddToKeys(d, key(last), val(last));
      SumByKeyKeys(init, key, val);
    }
  }

  /** The distinct keys of the elements of `s`, in order of first appearance. */
  function FirstKeys<T>(s: seq<T>, key: T -> string): (ks: seq<string>)
    ensures forall k :: k in ks <==> exists i :: 0 <= i < |s| && key(s[i]) == k
  {
    if s == [] then []
    else
      var init, last := s[..|s| - 1], s[|s| - 1];
      var ks := FirstKeys(init, key);
      assert forall i :: 0 <= i < |init| ==> s[i] == init[i];
      if key(last) in ks then ks else ks + [key(last)]
  }

  function Self(x: string): string {
    x
  }

  function One(x: string): int {
    1
  }

  /** A `forEach` over `xs` doing `d[x] = (d[x] || 0) + 1`. */
  function Tally(xs: seq<string>): Dict {
    SumByKey(xs, Self, One)
  }

  /** A tally counts how often each string occurs. */
  lemma {:induction false} TallyCount(xs: seq<string>, x: string)
    ensures Get0(Tally(xs), x) == multiset(xs)[x]
    decreases |xs|
  {
    if xs != [] {
      var init, last := xs[..|xs| - 1], xs[|xs| - 1];
      var d := Tally(init);
      assert Tally(xs) == AddTo(d, last, 1);
      TallyCount(init, x);
      AddToGet(d, last, 1, x);
      assert multiset(xs) == multiset(init) + multiset{last} by {
        assert xs == init + [last];
      }
    }
  }

  /** `ks.map(k => d[k])`. */
  function ValuesAt(d: Dict, ks: seq<string>): (r: seq<int>)
    ensures |r| == |ks|
    ensures forall i :: 0 <= i < |ks| ==> r[i] == Get0(d, ks[i])
  {
    if ks == [] then [] else [Get0(d, ks[0])] + ValuesAt(d, ks[1..])
  }

  lemma {:induction false} TotalValuesAt(d: Dict, ks: seq<string>)
    ensures Total(ValuesAt(d, ks)) == Sum(ks, At(d))
  {
    if ks != [] {
      TotalValuesAt(d, ks[1..]);
    }
  }

  /** With unique keys, looking up every key and summing gives the sum of the values. */
  lemma {:induction false} SumOverKeys(d: Dict)
    requires KeysUnique(d)
    ensures Sum(Keys(d), At(d)) == SumValues(d)
  {
    if d != [] {
      var ks := Keys(d);
      var rest := d[1..];
      assert ks == [d[0].0] + Keys(rest);
      assert KeysUnique(rest) by {
        var kr := Keys(rest);
        forall i, j | 0 <= i < j < |kr| ensures kr[i] != kr[j] {
          assert kr[i] == ks[i + 1] && kr[j] == ks[j + 1];
        }
      }
      SumOverKeys(rest);
      forall i | 0 <= i < |Keys(rest)| ensures At(d)(Keys(rest)[i]) == At(rest)(Keys(rest)[i]) {
        assert Keys(rest)[i] == ks[i + 1];
        assert ks[0] != ks[i + 1];
      }
      SumCongruent(Keys(rest), At(d), At(rest));
    }
  }
}
