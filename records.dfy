/** JavaScript objects used as string-keyed dictionaries (`Record<string, T>`):
    an ordered list of entries, since `Object.keys` reports non-numeric keys in
    insertion order (all the keys the app uses are words) and the pages derive
    ordered lists from it. */
module Records {
  import opened Seqs

  type Record<V> = seq<(string, V)>

  function Keys<V>(r: Record<V>): (ks: seq<string>)
    ensures |ks| == |r| && forall i :: 0 <= i < |r| ==> ks[i] == r[i].0
  {
    seq(|r|, i requires 0 <= i < |r| => r[i].0)
  }

  lemma KeysCons<V>(e: (string, V), r: Record<V>)
    ensures Keys([e] + r) == [e.0] + Keys(r)
  {
  }

  /** An object never holds the same key twice. */
  predicate DistinctKeys<V>(r: Record<V>)
  {
    forall i, j :: 0 <= i < j < |r| ==> r[i].0 != r[j].0
  }

  /** `r[k]`, or `None` for `undefined`. */
  function Get<V>(r: Record<V>, k: string): (v: Option<V>)
    ensures v.None? <==> k !in Keys(r)
    ensures v.Some? ==> (k, v.value) in r
    decreases |r|
  {
    if r == [] then None
    else if r[0].0 == k then Some(r[0].1)
    else
      var v := Get(r[1..], k);
      assert Keys(r) == [r[0].0] + Keys(r[1..]);
      v
  }

  /** `{ ...r, [k]: v }`: an existing key keeps its place and takes the new
      value; a new key is appended. */
  function Put<V>(r: Record<V>, k: string, v: V): (r': Record<V>)
    ensures k in Keys(r) ==> Keys(r') == Keys(r)
    ensures k !in Keys(r) ==> Keys(r') == Keys(r) + [k]
    decreases |r|
  {
    if r == [] then [(k, v)]
    else
      KeysCons(r[0], r[1..]);
      assert [r[0]] + r[1..] == r;
      if r[0].0 == k then
        KeysCons((k, v), r[1..]);
        [(k, v)] + r[1..]
      else
        var rest := Put(r[1..], k, v);
        KeysCons(r[0], rest);
        [r[0]] + rest
  }

  /** After `Put`, the key reads back the new value and every other key reads
      what it read before. */
  lemma {:induction false} GetPut<V>(r: Record<V>, k: string, v: V, k': string)
    ensures Get(Put(r, k, v), k') == if k' == k then Some(v) else Get(r, k')
    decreases |r|
  {
    if r != [] && r[0].0 != k {
      GetPut(r[1..], k, v, k');
    }
  }

  lemma {:induction false} PutKeepsDistinct<V>(r: Record<V>, k: string, v: V)
    requires DistinctKeys(r)
    ensures DistinctKeys(Put(r, k, v))
    decreases |r|
  {
    var r' := Put(r, k, v);
    var ks, ks' := Keys(r), Keys(r');
    assert forall i :: 0 <= i < |r'| ==> r'[i].0 == ks'[i];
    assert forall i, j :: 0 <= i < j < |r| ==> ks[i] != ks[j];
    if k in ks {
      assert ks' == ks;
    } else {
      assert ks' == ks + [k];
      assert forall i :: 0 <= i < |ks| ==> ks'[i] == ks[i] && ks[i] != k;
    }
  }

  /** On an object with distinct keys, writing back a key's old value restores the object. */
  lemma {:induction false} PutSame<V>(r: Record<V>, k: string, v: V)
    requires DistinctKeys(r) && Get(r, k) == Some(v)
    ensures Put(r, k, v) == r
    decreases |r|
  {
    if r[0].0 != k {
      assert DistinctKeys(r[1..]) by {
        forall i, j | 0 <= i < j < |r[1..]| ensures r[1..][i].0 != r[1..][j].0 {
          assert r[1..][i] == r[i + 1] && r[1..][j] == r[j + 1];
        }
      }
      PutSame(r[1..], k, v);
    }
  }

  /** A second `Put` on the same key overrides the first. */
  lemma {:induction false} PutPut<V>(r: Record<V>, k: string, v1: V, v2: V)
    ensures Put(Put(r, k, v1), k, v2) == Put(r, k, v2)
    decreases |r|
  {
    if r != [] && r[0].0 != k {
      PutPut(r[1..], k, v1, v2);
      assert ([r[0]] + Put(r[1..], k, v1))[1..] == Put(r[1..], k, v1);
    }
  }

  /** `Object.keys(r).filter(k => p(r[k]))`: the keys whose value passes `p`, in key order. */
  function KeysWhere<V>(r: Record<V>, p: V -> bool): (ks: seq<string>)
    ensures forall i :: 0 <= i < |r| && p(r[i].1) ==> r[i].0 in ks
    ensures SubsequenceOf(ks, Keys(r))
    decreases |r|
  {
    if r == [] then []
    else
      assert Keys(r) == [r[0].0] + Keys(r[1..]);
      assert Keys(r)[1..] == Keys(r[1..]);
      var rest := KeysWhere(r[1..], p);
      if p(r[0].1) then
        assert ([r[0].0] + rest)[1..] == rest;
        [r[0].0] + rest
      else rest
  }

  /** On an object with distinct keys, a key is listed exactly when its value passes `p`. */
  lemma {:induction false} KeysWhereExactly<V>(r: Record<V>, p: V -> bool, k: string)
    requires DistinctKeys(r)
    ensures k in KeysWhere(r, p) <==> Get(r, k).Some? && p(Get(r, k).value)
    decreases |r|
  {
    if r != [] {
      assert DistinctKeys(r[1..]) by {
        forall i, j | 0 <= i < j < |r[1..]| ensures r[1..][i].0 != r[1..][j].0 {
          assert r[1..][i] == r[i + 1] && r[1..][j] == r[j + 1];
        }
      }
      KeysWhereExactly(r[1..], p, k);
      if r[0].0 == k {
        assert Keys(r[1..]) == Keys(r)[1..];
        assert k !in Keys(r[1..]) by {
          forall i | 0 <= i < |r[1..]| ensures Keys(r[1..])[i] != k {
            assert r[1..][i] == r[i + 1];
          }
        }
      }
    }
  }
}
