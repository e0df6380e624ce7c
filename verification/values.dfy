/**
 * Field values, parsed sentences and the insertion-ordered snapshot
 * dictionary (`sorted_data` in save_data.py).
 */
module Values {
  import opened Wrappers

  /** A field value as the sentence parser delivers it: a number or a short text. */
  datatype Value = Num(x: real) | Text(s: string)

  /**
   * A parsed sentence: attribute name to value. An attribute that is
   * missing from the map is the parser's `None`.
   */
  type Reading = map<string, Value>

  function Get<K, V>(m: map<K, V>, k: K): (o: Option<V>)
    ensures o.Some? <==> k in m
    ensures o.Some? ==> o.value == m[k]
  {
    if k in m then Some(m[k]) else None
  }

  /** Python truthiness of an optional attribute: 0, "" and None are falsy. */
  predicate Truthy(o: Option<Value>) {
    match o
    case None => false
    case Some(Num(x)) => x != 0.0
    case Some(Text(s)) => s != []
  }

  /**
   * A Python dict from field name to value. `order` lists the keys in
   * insertion order, which is the order `keys()` and `values()` report.
   */
  datatype Dict = Dict(order: seq<string>, vals: map<string, Value>)

  const Empty := Dict([], map[])

  /** The keys of `order` are distinct and are exactly the keys of `vals`. */
  predicate WellFormed(d: Dict) {
    && (forall i, j :: 0 <= i < j < |d.order| ==> d.order[i] != d.order[j])
    && (forall k :: k in d.order ==> k in d.vals)
    && (forall k :: k in d.vals ==> k in d.order)
  }

  /**
   * `d[k] = v`: a new key goes to the end of the insertion order, an
   * existing key keeps its place and gets the new value.
   */
  function Put(d: Dict, k: string, v: Value): (r: Dict)
    ensures WellFormed(d) ==> WellFormed(r)
    ensures k in d.vals ==> r.order == d.order
    ensures k !in d.vals ==> r.order == d.order + [k]
    ensures forall j :: Get(r.vals, j) == if j == k then Some(v) else Get(d.vals, j)
  {
    Dict(if k in d.vals then d.order else d.order + [k], d.vals[k := v])
  }

  /** Two maps that agree on every lookup are equal. */
  lemma MapExt<K, V>(a: map<K, V>, b: map<K, V>)
    requires forall k :: Get(a, k) == Get(b, k)
    ensures a == b
  {
    assert forall k :: k in a <==> k in b by {
      forall k ensures k in a <==> k in b {
        assert Get(a, k).Some? <==> Get(b, k).Some?;
      }
    }
    forall k | k in a ensures a[k] == b[k] {
      assert Get(a, k) == Get(b, k);
    }
  }
}
