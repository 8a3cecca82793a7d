/**
 * Python dictionaries filled by a loop of insertions: the dictionary built by
 * storing `vals[k]` under `keys[k]`, in order, and the facts every such loop
 * relies on.
 */
module Dictionaries {

  /** Pairwise distinct strings. */
  predicate Distinct(s: seq<string>)
  {
    forall i, j | 0 <= i < j < |s| :: s[i] != s[j]
  }

  /** A dictionary built by inserting `vals[k]` under `keys[k]`, in order. */
  function Zip<V>(keys: seq<string>, vals: seq<V>): map<string, V>
    requires |keys| == |vals|
  {
    if |keys| == 0 then map[]
    else Zip(keys[..|keys| - 1], vals[..|vals| - 1])[keys[|keys| - 1] := vals[|vals| - 1]]
  }

  /** Inserting one more pair. */
  lemma ZipSnoc<V>(keys: seq<string>, vals: seq<V>, key: string, val: V)
    requires |keys| == |vals|
    ensures Zip(keys + [key], vals + [val]) == Zip(keys, vals)[key := val]
  {
    assert (keys + [key])[..|keys|] == keys && (vals + [val])[..|vals|] == vals;
  }

  /** The keys of a built dictionary are exactly the listed ones. */
  lemma {:induction false} ZipKeys<V>(keys: seq<string>, vals: seq<V>)
    requires |keys| == |vals|
    ensures forall id :: id in Zip(keys, vals) <==> id in keys
  {
    if |keys| > 0 {
      var n := |keys| - 1;
      ZipKeys(keys[..n], vals[..n]);
      assert keys == keys[..n] + [keys[n]];
    }
  }

  /** Every value of a built dictionary is one of the listed values. */
  lemma {:induction false} ZipRange<V>(keys: seq<string>, vals: seq<V>)
    requires |keys| == |vals|
    ensures forall id | id in Zip(keys, vals) :: Zip(keys, vals)[id] in vals
  {
    if |keys| > 0 {
      var n := |keys| - 1;
      ZipRange(keys[..n], vals[..n]);
      assert vals == vals[..n] + [vals[n]];
    }
  }

  /** With distinct keys, each key finds its own value and there is one entry per key. */
  lemma {:induction false} ZipValues<V>(keys: seq<string>, vals: seq<V>)
    requires |keys| == |vals| && Distinct(keys)
    ensures forall k | 0 <= k < |keys| :: keys[k] in Zip(keys, vals) && Zip(keys, vals)[keys[k]] == vals[k]
    ensures |Zip(keys, vals)| == |keys|
  {
    ZipKeys(keys, vals);
    if |keys| > 0 {
      var n := |keys| - 1;
      var init, last := keys[..n], vals[..n];
      assert Distinct(init) by {
        forall i, j | 0 <= i < j < n
          ensures init[i] != init[j]
        {
          assert init[i] == keys[i] && init[j] == keys[j];
        }
      }
      ZipValues(init, last);
      ZipKeys(init, last);
      assert keys[n] !in Zip(init, last) by {
        forall k | 0 <= k < n
          ensures init[k] != keys[n]
        {
          assert init[k] == keys[k];
        }
      }
      forall k | 0 <= k < n
        ensures Zip(keys, vals)[keys[k]] == vals[k]
      {
        assert init[k] == keys[k] && last[k] == vals[k];
      }
    }
  }
}
