/**
 * Plain JavaScript objects as `Object.entries` sees them: their own keys in enumeration
 * order, each paired with its value. No key used by the client looks like an array
 * index, so enumeration order is insertion order.
 */
module Records {
  import opened Common

  /** The set of keys of a record. */
  function KeysOf<V>(r: seq<(string, V)>): set<string> {
    set i | 0 <= i < |r| :: r[i].0
  }

  /** An object never has the same own key twice. */
  predicate DistinctKeys<V>(r: seq<(string, V)>) {
    forall i, j | 0 <= i < j < |r| :: r[i].0 != r[j].0
  }

  lemma KeyInTail<V>(r: seq<(string, V)>, k: string)
    requires k in KeysOf(r) && r[0].0 != k
    ensures k in KeysOf(r[1..])
  {
    var i :| 0 <= i < |r| && r[i].0 == k;
    assert r[1..][i - 1].0 == k;
  }

  /** Position of the first entry with key `k`. */
  function IndexOfKey<V>(r: seq<(string, V)>, k: string): (i: nat)
    requires k in KeysOf(r)
    ensures i < |r| && r[i].0 == k
    ensures forall j | 0 <= j < i :: r[j].0 != k
  {
    if r[0].0 == k then 0
    else
      KeyInTail(r, k);
      1 + IndexOfKey(r[1..], k)
  }

  /** `obj[k]`, with `None` for a key the object does not have. */
  function Find<V>(r: seq<(string, V)>, k: string): (o: Option<V>)
    ensures o.Some? <==> k in KeysOf(r)
  {
    if k in KeysOf(r) then Some(r[IndexOfKey(r, k)].1) else None
  }

  /** In an object every entry is what a lookup of its key returns. */
  lemma FindAt<V>(r: seq<(string, V)>, i: int)
    requires DistinctKeys(r) && 0 <= i < |r|
    ensures Find(r, r[i].0) == Some(r[i].1)
  {
    assert r[i].0 in KeysOf(r);
    var j := IndexOfKey(r, r[i].0);
    assert j == i;
  }

  /**
   * The property assignment `obj[k] = v`: a key the object already has keeps its place
   * and takes the new value; a new key goes after all existing ones.
   */
  function Assign<V>(r: seq<(string, V)>, k: string, v: V): (r': seq<(string, V)>)
    ensures KeysOf(r') == KeysOf(r) + {k}
    ensures k !in KeysOf(r) ==> r' == r + [(k, v)]
    ensures k in KeysOf(r) ==> |r'| == |r| && forall i | 0 <= i < |r| && r[i].0 != k :: r'[i] == r[i]
    ensures DistinctKeys(r) ==> DistinctKeys(r') && Find(r', k) == Some(v)
    ensures DistinctKeys(r) ==> forall k' | k' != k :: Find(r', k') == Find(r, k')
  {
    if k in KeysOf(r) then
      var i := IndexOfKey(r, k);
      var r' := r[i := (k, v)];
      assert forall j | 0 <= j < |r| :: r'[j].0 == r[j].0;
      assert KeysOf(r') == KeysOf(r);
      AssignedFind(r, i, v);
      r'
    else
      var r' := r + [(k, v)];
      assert KeysOf(r') == KeysOf(r) + {k} by {
        assert forall j | 0 <= j < |r| :: r'[j] == r[j];
        assert r'[|r|].0 == k;
      }
      AppendedFind(r, k, v);
      r'
  }

  lemma AssignedFind<V>(r: seq<(string, V)>, i: nat, v: V)
    requires i < |r|
    ensures var r' := r[i := (r[i].0, v)];
      DistinctKeys(r) ==>
        (DistinctKeys(r') && Find(r', r[i].0) == Some(v) && forall k' | k' != r[i].0 :: Find(r', k') == Find(r, k'))
  {
    var r' := r[i := (r[i].0, v)];
    if DistinctKeys(r) {
      assert DistinctKeys(r');
      FindAt(r', i);
      forall k' | k' != r[i].0
        ensures Find(r', k') == Find(r, k')
      {
        if k' in KeysOf(r) {
          var j :| 0 <= j < |r| && r[j].0 == k';
          FindAt(r, j);
          FindAt(r', j);
        } else {
          assert k' !in KeysOf(r') by {
            assert forall j | 0 <= j < |r| :: r'[j].0 == r[j].0;
          }
        }
      }
    }
  }

  lemma AppendedFind<V>(r: seq<(string, V)>, k: string, v: V)
    requires k !in KeysOf(r)
    ensures var r' := r + [(k, v)];
      DistinctKeys(r) ==>
        (DistinctKeys(r') && Find(r', k) == Some(v) && forall k' | k' != k :: Find(r', k') == Find(r, k'))
  {
    var r' := r + [(k, v)];
    if DistinctKeys(r) {
      forall i, j | 0 <= i < j < |r'|
        ensures r'[i].0 != r'[j].0
      {
        if j == |r| {
          assert r[i].0 in KeysOf(r);
        }
      }
      FindAt(r', |r|);
      forall k' | k' != k
        ensures Find(r', k') == Find(r, k')
      {
        if k' in KeysOf(r) {
          var j :| 0 <= j < |r| && r[j].0 == k';
          FindAt(r, j);
          FindAt(r', j);
        } else {
          assert k' !in KeysOf(r') by {
            assert forall j | 0 <= j < |r| :: r'[j] == r[j];
          }
        }
      }
    }
  }

  /** Distinct keys make the number of keys the number of entries. */
  lemma {:induction false} DistinctKeysCount<V>(r: seq<(string, V)>)
    requires DistinctKeys(r)
    ensures |KeysOf(r)| == |r|
  {
    if r != [] {
      var init := r[..|r| - 1];
      DistinctKeysCount(init);
      assert KeysOf(r) == KeysOf(init) + {r[|r| - 1].0} by {
        assert forall i | 0 <= i < |init| :: init[i] == r[i];
      }
      assert r[|r| - 1].0 !in KeysOf(init);
    }
  }
}
