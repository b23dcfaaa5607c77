/**
 * A plain JavaScript object `Record<string, number>` filled by
 * `m[k] = (m[k] || 0) + a`, as the expense handler builds its share and paid
 * maps. Besides the map itself a tally keeps its keys in insertion order (the
 * order `Object.keys` returns for non-index keys, and so the order split rows
 * and debts are written in) and the running sum of everything added.
 */
module Tally {

  datatype Tally = Tally(keys: seq<string>, amounts: map<string, real>, total: real)

  const Empty: Tally := Tally([], map[], 0.0)

  /** `m[k] || 0` */
  function Get(t: Tally, k: string): real {
    if k in t.amounts then t.amounts[k] else 0.0
  }

  /** `m[k] = (m[k] || 0) + a; sum += a;` */
  function Add(t: Tally, k: string, a: real): Tally {
    Tally(if k in t.amounts then t.keys else t.keys + [k], t.amounts[k := Get(t, k) + a], t.total + a)
  }

  predicate Distinct(s: seq<string>) {
    forall i, j :: 0 <= i < j < |s| ==> s[i] != s[j]
  }

  /** The sum of `m` over `keys`, in order. */
  function Sum(keys: seq<string>, m: map<string, real>): real
    requires forall k :: k in keys ==> k in m
  {
    if keys == [] then 0.0 else Sum(keys[..|keys| - 1], m) + m[keys[|keys| - 1]]
  }

  /**
   * A tally is well formed when its keys are listed once each, they are
   * exactly the keys of the map, and the running sum is the sum of the map.
   */
  ghost predicate Valid(t: Tally) {
    && Distinct(t.keys)
    && (forall k :: k in t.amounts <==> k in t.keys)
    && t.total == Sum(t.keys, t.amounts)
  }

  lemma {:induction false} SumIgnoresOtherKeys(keys: seq<string>, m: map<string, real>, k: string, v: real)
    requires forall x :: x in keys ==> x in m
    requires k !in keys
    ensures Sum(keys, m[k := v]) == Sum(keys, m)
  {
    if keys != [] {
      SumIgnoresOtherKeys(keys[..|keys| - 1], m, k, v);
    }
  }

  lemma {:induction false} SumAddAtKey(keys: seq<string>, m: map<string, real>, k: string, a: real)
    requires forall x :: x in keys ==> x in m
    requires Distinct(keys) && k in keys
    ensures Sum(keys, m[k := m[k] + a]) == Sum(keys, m) + a
  {
    var init := keys[..|keys| - 1];
    if keys[|keys| - 1] == k {
      assert k !in init by {
        forall i | 0 <= i < |init| ensures init[i] != k {
          assert init[i] == keys[i];
        }
      }
      SumIgnoresOtherKeys(init, m, k, m[k] + a);
    } else {
      assert k in init by {
        var i :| 0 <= i < |keys| && keys[i] == k;
        assert init[i] == k;
      }
      SumAddAtKey(init, m, k, a);
    }
  }

  /**
   * Adding keeps a tally well formed: the key's amount grows by `a`, no other
   * amount changes, the running sum grows by `a`, and a key is appended to the
   * order only on its first appearance.
   */
  lemma AddKeepsValid(t: Tally, k: string, a: real)
    requires Valid(t)
    ensures Valid(Add(t, k, a))
    ensures Get(Add(t, k, a), k) == Get(t, k) + a
    ensures forall x :: x != k ==> Get(Add(t, k, a), x) == Get(t, x)
    ensures Add(t, k, a).total == t.total + a
    ensures k in Add(t, k, a).keys
    ensures Add(t, k, a).keys == if k in t.keys then t.keys else t.keys + [k]
  {
    if k in t.amounts {
      AddExistingKeepsValid(t, k, a);
    } else {
      AddFreshKeepsValid(t, k, a);
    }
  }

  lemma AddExistingKeepsValid(t: Tally, k: string, a: real)
    requires Valid(t) && k in t.amounts
    ensures Valid(Add(t, k, a))
  {
    SumAddAtKey(t.keys, t.amounts, k, a);
    assert Add(t, k, a) == Tally(t.keys, t.amounts[k := t.amounts[k] + a], t.total + a);
  }

  lemma AddFreshKeepsValid(t: Tally, k: string, a: real)
    requires Valid(t) && k !in t.amounts
    ensures Valid(Add(t, k, a))
  {
    var r := Add(t, k, a);
    assert r.keys == t.keys + [k] && r.amounts == t.amounts[k := a];
    assert r.keys[..|r.keys| - 1] == t.keys;
    assert Sum(r.keys, r.amounts) == Sum(t.keys, r.amounts) + a;
    SumIgnoresOtherKeys(t.keys, t.amounts, k, a);
    forall i, j | 0 <= i < j < |r.keys| ensures r.keys[i] != r.keys[j] {
      if j == |t.keys| {
        assert r.keys[i] == t.keys[i];
      }
    }
  }
}
