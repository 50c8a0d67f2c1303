/** Plain JavaScript objects as the tracker uses them: string-keyed property
    lists that Object.keys / Object.values / Object.entries report in
    insertion order. Reading `obj[k]` is `Get`; assigning `obj[k] = v` is
    `Put`, which replaces the value in place when the key is already there
    and appends it otherwise. */
module Objects {

  datatype Option<T> = None | Some(value: T) {
    /** `x || 0` style defaulting. */
    function GetOr(default: T): T {
      match this
      case Some(v) => v
      case None => default
    }
  }

  type Entries<V> = seq<(string, V)>

  /** Object.keys(m) */
  function Keys<V>(m: Entries<V>): (ks: seq<string>)
    ensures |ks| == |m|
    ensures forall i :: 0 <= i < |m| ==> ks[i] == m[i].0
  {
    seq(|m|, i requires 0 <= i < |m| => m[i].0)
  }

  /** Index of the first occurrence of `k` in `ks`, or `|ks|` when it is absent. */
  function Position(ks: seq<string>, k: string): (i: nat)
    ensures i <= |ks|
    ensures i < |ks| ==> ks[i] == k
    ensures forall j :: 0 <= j < i ==> ks[j] != k
  {
    if ks == [] then 0
    else if ks[0] == k then 0
    else 1 + Position(ks[1..], k)
  }

  /** No key occurs twice, as in every JavaScript object. */
  predicate DistinctKeys<V>(m: Entries<V>) {
    forall i, j :: 0 <= i < j < |m| ==> m[i].0 != m[j].0
  }

  /** `m[k]`: the value stored under `k`, or None (JavaScript's undefined). */
  function Get<V>(m: Entries<V>, k: string): (r: Option<V>)
    ensures r.Some? <==> k in Keys(m)
  {
    var i := Position(Keys(m), k);
    if i < |m| then Some(m[i].1) else None
  }

  /** `m[k] = v` */
  function Put<V>(m: Entries<V>, k: string, v: V): Entries<V> {
    var i := Position(Keys(m), k);
    if i < |m| then m[i := (k, v)] else m + [(k, v)]
  }

  /** `m[k] = v` keeps the keys and their order, adding `k` at the end when it is new. */
  lemma PutKeys<V>(m: Entries<V>, k: string, v: V)
    ensures Keys(Put(m, k, v)) == if k in Keys(m) then Keys(m) else Keys(m) + [k]
  {
    var r := Put(m, k, v);
    assert Keys(r) == if k in Keys(m) then Keys(m) else Keys(m) + [k];
  }

  /** `m[k] = v` changes no entry except the one now holding `(k, v)`. */
  lemma PutShape<V>(m: Entries<V>, k: string, v: V)
    ensures forall i :: 0 <= i < |Put(m, k, v)| ==> Put(m, k, v)[i] == (k, v) || (i < |m| && Put(m, k, v)[i] == m[i])
  {
  }

  /** After `m[k] = v`, reading `k` gives `v` and reading any other key gives what it gave before. */
  lemma PutGet<V>(m: Entries<V>, k: string, v: V)
    ensures Get(Put(m, k, v), k) == Some(v)
    ensures forall j :: j != k ==> Get(Put(m, k, v), j) == Get(m, j)
  {
    PutKeys(m, k, v);
    forall j | j != k ensures Get(Put(m, k, v), j) == Get(m, j) {
      PositionAppend(Keys(m), k, j);
    }
  }

  /** Adding a key other than `j` at the end does not move `j`. */
  lemma {:induction false} PositionAppend(ks: seq<string>, k: string, j: string)
    requires j != k
    ensures Position(ks + [k], j) == if j in ks then Position(ks, j) else |ks| + 1
  {
    if ks != [] && ks[0] != j {
      assert (ks + [k])[1..] == ks[1..] + [k];
      PositionAppend(ks[1..], k, j);
    }
  }

  /** In an object with distinct keys, reading the key of an entry gives that entry's value. */
  lemma GetDistinct<V>(m: Entries<V>, j: nat)
    requires DistinctKeys(m) && j < |m|
    ensures Get(m, m[j].0) == Some(m[j].1)
  {
    var p := Position(Keys(m), m[j].0);
    assert Keys(m)[j] == m[j].0;
    assert p <= j;
    assert m[p].0 == m[j].0;
  }

  /** The keys of an object with one more entry at the end. */
  lemma KeysAppend<V>(m: Entries<V>, k: string, v: V)
    ensures Keys(m + [(k, v)]) == Keys(m) + [k]
  {
  }

  /** Assigning a key the object does not have yet appends it. */
  lemma PutFresh<V>(m: Entries<V>, k: string, v: V)
    requires k !in Keys(m)
    ensures Put(m, k, v) == m + [(k, v)]
    ensures DistinctKeys(m) ==> DistinctKeys(m + [(k, v)])
  {
    assert Position(Keys(m), k) == |m|;
  }

  /** Dropping the last entry of an object with distinct keys leaves one
      with distinct keys that does not hold the dropped key. */
  lemma DistinctInit<V>(m: Entries<V>)
    requires DistinctKeys(m) && m != []
    ensures DistinctKeys(m[..|m| - 1])
    ensures m[|m| - 1].0 !in Keys(m[..|m| - 1])
    ensures Keys(m) == Keys(m[..|m| - 1]) + [m[|m| - 1].0]
  {
    var init := m[..|m| - 1];
    forall i | 0 <= i < |init| ensures Keys(init)[i] != m[|m| - 1].0 {
      assert init[i] == m[i];
    }
  }

  /** Two objects with the same keys in the same order keep them so after
      the same key is assigned in both; every position then holds either the
      newly assigned values or the values it held before. */
  lemma PutAligned<A, B>(a: Entries<A>, b: Entries<B>, k: string, x: A, y: B)
    requires Keys(a) == Keys(b)
    ensures Keys(Put(a, k, x)) == Keys(Put(b, k, y))
    ensures forall i :: 0 <= i < |Put(a, k, x)| ==>
      || (Put(a, k, x)[i].1 == x && Put(b, k, y)[i].1 == y)
      || (i < |a| && Put(a, k, x)[i] == a[i] && Put(b, k, y)[i] == b[i])
  {
    PutKeys(a, k, x);
    PutKeys(b, k, y);
    PutShape(a, k, x);
    PutShape(b, k, y);
  }

  /** Sum of the values, `Object.values(m).reduce((a, b) => a + b, 0)`. */
  function Sum(m: Entries<nat>): nat {
    if m == [] then 0 else Sum(m[..|m| - 1]) + m[|m| - 1].1
  }

  lemma SumSnoc(m: Entries<nat>, k: string, v: nat)
    ensures Sum(m + [(k, v)]) == Sum(m) + v
  {
    assert (m + [(k, v)])[..|m|] == m;
  }

  /** Every value of `m` is positive. */
  predicate AllPositive(m: Entries<nat>) {
    forall i :: 0 <= i < |m| ==> m[i].1 > 0
  }
}
