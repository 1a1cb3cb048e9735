/**
  Python's insertion-ordered `dict` with string keys, as a sequence of
  (key, value) entries. The operations are the three the uploader uses:
  `d[k]` (Get), `del d[k]` (Remove) and `d[k] = v` (Put).
 */
module Dicts {
  import opened Wrappers

  type Dict<V> = seq<(string, V)>

  predicate HasKey<V>(d: Dict<V>, k: string)
  {
    exists i :: 0 <= i < |d| && d[i].0 == k
  }

  /** Keys appear at most once, as in every Python dict. */
  predicate Distinct<V>(d: Dict<V>)
  {
    forall i, j :: 0 <= i < j < |d| ==> d[i].0 != d[j].0
  }

  /** `d[k]`: the value of the first entry with key `k`. */
  function Get<V>(d: Dict<V>, k: string): (r: Option<V>)
    ensures r.Some? <==> HasKey(d, k)
    ensures r.Some? ==> (k, r.value) in d
  {
    if |d| == 0 then None
    else if d[0].0 == k then Some(d[0].1)
    else
      assert HasKey(d, k) ==> HasKey(d[1..], k) by {
        if HasKey(d, k) {
          var i :| 0 <= i < |d| && d[i].0 == k;
          assert d[1..][i - 1].0 == k;
        }
      }
      Get(d[1..], k)
  }

  /** `del d[k]`: every entry with key `k` is dropped, the others keep their order. */
  function Remove<V>(d: Dict<V>, k: string): (r: Dict<V>)
    ensures !HasKey(r, k)
    ensures forall j :: j != k ==> Get(r, j) == Get(d, j)
    ensures forall e :: e in r ==> e in d
    ensures Distinct(d) ==> Distinct(r)
  {
    if |d| == 0 then []
    else if d[0].0 == k then Remove(d[1..], k)
    else
      var rest := Remove(d[1..], k);
      assert forall e :: e in rest ==> e in d[1..];
      assert Distinct(d) ==> forall e :: e in rest ==> e.0 != d[0].0 by {
        if Distinct(d) {
          forall e | e in rest ensures e.0 != d[0].0 {
            var i :| 0 <= i < |d[1..]| && d[1..][i] == e;
            assert d[i + 1] == e;
          }
        }
      }
      [d[0]] + rest
  }

  /** The entries of `d`, each one with key `k` given the value `v`. */
  function Replace<V>(d: Dict<V>, k: string, v: V): (r: Dict<V>)
    ensures |r| == |d|
    ensures forall i :: 0 <= i < |d| ==> r[i].0 == d[i].0
    ensures forall i :: 0 <= i < |d| ==> r[i].1 == if d[i].0 == k then v else d[i].1
  {
    if |d| == 0 then []
    else [(d[0].0, if d[0].0 == k then v else d[0].1)] + Replace(d[1..], k, v)
  }

  /**
    `d[k] = v`: an existing key keeps its position and takes the new value;
    a new key is appended at the end.
   */
  function Put<V>(d: Dict<V>, k: string, v: V): (r: Dict<V>)
  {
    if HasKey(d, k) then Replace(d, k, v) else d + [(k, v)]
  }

  lemma {:induction false} GetReplace<V>(d: Dict<V>, k: string, v: V, j: string)
    ensures Get(Replace(d, k, v), j) == if j == k && HasKey(d, k) then Some(v) else Get(d, j)
    decreases |d|
  {
    if |d| > 0 {
      GetReplace(d[1..], k, v, j);
      assert Replace(d, k, v)[1..] == Replace(d[1..], k, v);
      if d[0].0 != j && HasKey(d, k) && !HasKey(d[1..], k) {
        var i :| 0 <= i < |d| && d[i].0 == k;
        if i > 0 { assert d[1..][i - 1].0 == k; }
      }
    }
  }

  /** After `d[k] = v`, `d[k]` is `v` and every other key reads as before. */
  lemma GetPut<V>(d: Dict<V>, k: string, v: V, j: string)
    ensures Get(Put(d, k, v), j) == if j == k then Some(v) else Get(d, j)
  {
    if HasKey(d, k) {
      GetReplace(d, k, v, j);
    } else {
      GetAppend(d, k, v, j);
    }
  }

  lemma {:induction false} GetAppend<V>(d: Dict<V>, k: string, v: V, j: string)
    requires !HasKey(d, k)
    ensures Get(d + [(k, v)], j) == if j == k then Some(v) else Get(d, j)
    decreases |d|
  {
    if |d| > 0 {
      assert (d + [(k, v)])[1..] == d[1..] + [(k, v)];
      GetAppend(d[1..], k, v, j);
    }
  }

  /** `d[k] = v` stores nothing but `v` and entries `d` already had, and keeps the keys distinct. */
  lemma PutEntries<V>(d: Dict<V>, k: string, v: V)
    ensures forall i :: 0 <= i < |Put(d, k, v)| ==>
      Put(d, k, v)[i].1 == v || Put(d, k, v)[i] in d
    ensures HasKey(d, k) ==> |Put(d, k, v)| == |d|
    ensures !HasKey(d, k) ==> |Put(d, k, v)| == |d| + 1
    ensures Distinct(d) ==> Distinct(Put(d, k, v))
  {
    if HasKey(d, k) {
      var r := Replace(d, k, v);
      forall i | 0 <= i < |r| ensures r[i].1 == v || r[i] in d {
        if d[i].0 != k {
          assert r[i] == d[i];
        }
      }
    }
  }

  /** Repeating `d[k] = v` changes nothing. */
  lemma PutIdempotent<V>(d: Dict<V>, k: string, v: V)
    ensures Put(Put(d, k, v), k, v) == Put(d, k, v)
  {
    var r := Put(d, k, v);
    assert HasKey(r, k) by { GetPut(d, k, v, k); }
    var rr := Replace(r, k, v);
    if HasKey(d, k) {
      assert forall i :: 0 <= i < |r| ==> rr[i] == r[i];
    } else {
      assert r[|d|] == (k, v);
      assert forall i :: 0 <= i < |r| ==> rr[i] == r[i];
    }
  }
}
