/** The little of Django's request model the views consult: the method and
    the query string. */
module Http {
  import opened Wrappers

  /** The request method as the views compare it. */
  datatype Method = GET | POST | OtherMethod

  /** A parsed query string: its `key=value` pairs in order; a key may
      repeat. */
  type Query = seq<(string, string)>

  /** `request.GET.get(key)`: the value of the last pair with that key, or
      `None` when the key does not occur. */
  function QueryGet(q: Query, key: string): (r: Option<string>)
    ensures r.None? <==> forall i :: 0 <= i < |q| ==> q[i].0 != key
    ensures r.Some? ==> (key, r.value) in q
  {
    if |q| == 0 then None
    else if q[|q| - 1].0 == key then Some(q[|q| - 1].1)
    else QueryGet(q[..|q| - 1], key)
  }

  /** No pair after position `i` carries `key`. */
  predicate LastWithKey(q: Query, key: string, i: nat) {
    forall j :: i < j < |q| ==> q[j].0 != key
  }

  /** For a repeated key, the value found is the one of its last
      occurrence. */
  lemma {:induction false} QueryGetIsLast(q: Query, key: string)
    requires QueryGet(q, key).Some?
    ensures exists i: nat :: i < |q| && q[i] == (key, QueryGet(q, key).value) && LastWithKey(q, key, i)
  {
    if q[|q| - 1].0 == key {
      assert LastWithKey(q, key, |q| - 1);
    } else {
      var p := q[..|q| - 1];
      QueryGetIsLast(p, key);
      var i: nat :| i < |p| && p[i] == (key, QueryGet(p, key).value) && LastWithKey(p, key, i);
      assert q[i] == p[i];
      assert LastWithKey(q, key, i);
    }
  }
}
