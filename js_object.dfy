/**
 * A plain JavaScript object (the `headers` object of the signer, a request
 * body): its own string-keyed properties in insertion order. Assigning to a
 * key that is present replaces its value where it stands; assigning to a new
 * key appends it. That is JavaScript's order for keys that are not array
 * indices (`"0"`, `"1"`, ...), which are the only keys this program assigns.
 */
module JsObject {
  import opened Wrappers

  type Entries<V> = seq<(string, V)>

  function Keys<V>(d: Entries<V>): (ks: seq<string>)
    ensures |ks| == |d|
    ensures forall i :: 0 <= i < |d| ==> ks[i] == d[i].0
  {
    if d == [] then [] else [d[0].0] + Keys(d[1..])
  }

  predicate DistinctKeys<V>(d: Entries<V>)
  {
    forall i, j :: 0 <= i < j < |d| ==> d[i].0 != d[j].0
  }

  /** `obj[k]`: the value of the first entry with key `k`, or None (`undefined`). */
  function Lookup<V>(d: Entries<V>, k: string): (r: Option<V>)
    ensures r.None? <==> k !in Keys(d)
  {
    if d == [] then None
    else if d[0].0 == k then Some(d[0].1)
    else Lookup(d[1..], k)
  }

  /** `obj[k] = v`. */
  function Put<V>(d: Entries<V>, k: string, v: V): (r: Entries<V>)
    ensures Lookup(r, k) == Some(v)
    ensures forall k' :: k' != k ==> Lookup(r, k') == Lookup(d, k')
    ensures k in Keys(d) ==> Keys(r) == Keys(d)
    ensures k !in Keys(d) ==> r == d + [(k, v)]
  {
    if d == [] then [(k, v)]
    else
      var e := d[0];
      var t := d[1..];
      assert d == [e] + t;
      ConsLookup(e, t);
      ConsKeys(e, t);
      if e.0 == k then
        ConsLookup((k, v), t);
        ConsKeys((k, v), t);
        [(k, v)] + t
      else
        var rest := Put(t, k, v);
        ConsLookup(e, rest);
        ConsKeys(e, rest);
        assert k !in Keys(d) ==> k !in Keys(t);
        ConsAppend(e, t, (k, v));
        [e] + rest
  }

  /** Reading from an object whose first entry is `e`. */
  lemma ConsLookup<V>(e: (string, V), t: Entries<V>)
    ensures forall k' :: Lookup([e] + t, k') == if e.0 == k' then Some(e.1) else Lookup(t, k')
  {
    assert ([e] + t)[1..] == t;
  }

  // Associativity of sequence concatenation, a hint for the solver in Put.
  lemma ConsAppend<T>(e: T, t: seq<T>, x: T)
    ensures [e] + (t + [x]) == ([e] + t) + [x]
  {
  }

  /** The keys of an object whose first entry is `e`. */
  lemma ConsKeys<V>(e: (string, V), t: Entries<V>)
    ensures Keys([e] + t) == [e.0] + Keys(t)
  {
    assert ([e] + t)[1..] == t;
  }

  /** What `obj[k]` reads is the value of one of the object's own entries. */
  lemma {:induction false} LookupFound<V>(d: Entries<V>, k: string)
    requires Lookup(d, k).Some?
    ensures (k, Lookup(d, k).value) in d
  {
    if d[0].0 != k {
      LookupFound(d[1..], k);
    }
  }

  /** In an object whose keys are distinct, the entry at position `i` is what `obj[key]` reads. */
  lemma {:induction false} LookupAt<V>(d: Entries<V>, i: nat)
    requires DistinctKeys(d) && i < |d|
    ensures Lookup(d, d[i].0) == Some(d[i].1)
  {
    if i > 0 {
      LookupAt(d[1..], i - 1);
    }
  }
}
