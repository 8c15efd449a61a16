/** A decoded query string as the ordered list of its key/value pairs.
    Go keeps the same information in `url.Values`, a map from each key to the
    list of its values; `ValuesOf` is that map view, and `Get`, `Del` and
    `Set` are the `url.Values` methods the gateway calls. Percent-encoding and
    the key-sorted serialisation of `Values.Encode` are not modelled. */
module QueryParams {

  datatype Param = Param(key: string, value: string)

  type Query = seq<Param>

  /** `url.Values[k]`: the values given for key `k`, in order of appearance. */
  function ValuesOf(q: Query, k: string): seq<string>
  {
    if |q| == 0 then []
    else (if q[0].key == k then [q[0].value] else []) + ValuesOf(q[1..], k)
  }

  /** Does the key occur at all? */
  predicate Has(q: Query, k: string) {
    exists i :: 0 <= i < |q| && q[i].key == k
  }

  /** `url.Values.Get(k)`: the first value for `k`, or "" when there is none. */
  function Get(q: Query, k: string): (v: string)
  {
    var vs := ValuesOf(q, k);
    if |vs| == 0 then "" else vs[0]
  }

  /** `url.Values.Del(k)`: removes every value of `k`. */
  function Del(q: Query, k: string): (r: Query)
    ensures |r| <= |q|
    ensures forall i :: 0 <= i < |r| ==> r[i].key != k
    ensures forall i :: 0 <= i < |r| ==> r[i] in q
  {
    if |q| == 0 then []
    else if q[0].key == k then Del(q[1..], k)
    else [q[0]] + Del(q[1..], k)
  }

  /** `url.Values.Set(k, v)`: `k` afterwards has exactly the one value `v`. */
  function Set(q: Query, k: string, v: string): (r: Query)
    ensures ValuesOf(r, k) == [v]
    ensures forall k' :: k' != k ==> ValuesOf(r, k') == ValuesOf(q, k')
  {
    DelValues(q, k);
    ValuesOfAppend(Del(q, k), [Param(k, v)], k);
    forall k' | k' != k
      ensures ValuesOf(Del(q, k) + [Param(k, v)], k') == ValuesOf(q, k')
    {
      ValuesOfAppend(Del(q, k), [Param(k, v)], k');
    }
    Del(q, k) + [Param(k, v)]
  }

  lemma {:induction false} ValuesOfAppend(a: Query, b: Query, k: string)
    ensures ValuesOf(a + b, k) == ValuesOf(a, k) + ValuesOf(b, k)
  {
    if |a| == 0 {
      assert a + b == b;
    } else {
      assert (a + b)[1..] == a[1..] + b;
      ValuesOfAppend(a[1..], b, k);
    }
  }

  /** The map view of `Del`: `k` loses all its values and no other key changes. */
  lemma {:induction false} DelValues(q: Query, k: string)
    ensures ValuesOf(Del(q, k), k) == []
    ensures forall k' :: k' != k ==> ValuesOf(Del(q, k), k') == ValuesOf(q, k')
  {
    if |q| > 0 {
      DelValues(q[1..], k);
      if q[0].key != k {
        assert ([q[0]] + Del(q[1..], k))[1..] == Del(q[1..], k);
      }
    }
  }

  /** A key has values exactly when it occurs. */
  lemma {:induction false} ValuesOfEmpty(q: Query, k: string)
    ensures ValuesOf(q, k) == [] <==> !Has(q, k)
  {
    if |q| > 0 {
      ValuesOfEmpty(q[1..], k);
      if !Has(q[1..], k) && q[0].key != k {
        forall i | 0 <= i < |q| ensures q[i].key != k {
          if i > 0 { assert q[1..][i - 1] == q[i]; }
        }
      }
      if Has(q[1..], k) {
        var i :| 0 <= i < |q[1..]| && q[1..][i].key == k;
        assert q[i + 1].key == k;
      }
    }
  }

  /** `Get` returns the value of the earliest pair with the key. */
  lemma GetFirst(q: Query, k: string, i: nat)
    requires i < |q| && q[i].key == k
    requires forall j :: 0 <= j < i ==> q[j].key != k
    ensures Get(q, k) == q[i].value
  {
    assert q == q[..i] + q[i..];
    ValuesOfAppend(q[..i], q[i..], k);
    ValuesOfEmpty(q[..i], k);
    assert q[i..][1..] == q[i + 1..];
  }
}
