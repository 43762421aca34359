/** A JavaScript plain object, as the form state and the templates use it.

    Property order is observable in the source (`Object.entries` drives the
    PDF summary and the review listing), so an object is an ordered list of
    entries with distinct keys. The spread-assign `{ ...prev, [k]: v }` keeps
    the position of an existing key and appends a new one at the end. */
module JsObject {
  import opened Common

  datatype Entry<V> = Entry(key: string, value: V)

  type Obj<V> = seq<Entry<V>>

  function Keys<V>(o: Obj<V>): (r: seq<string>)
    ensures |r| == |o| && forall i :: 0 <= i < |o| ==> r[i] == o[i].key
  {
    seq(|o|, i requires 0 <= i < |o| => o[i].key)
  }

  predicate UniqueKeys<V>(o: Obj<V>) {
    forall i, j :: 0 <= i < j < |o| ==> o[i].key != o[j].key
  }

  predicate HasKey<V>(o: Obj<V>, k: string) {
    exists i :: 0 <= i < |o| && o[i].key == k
  }

  /** `o[k]`, with `None` for `undefined` (an absent key) */
  function Lookup<V>(o: Obj<V>, k: string): (r: Option<V>)
    ensures r.None? <==> !HasKey(o, k)
    ensures r.Some? ==> exists i :: 0 <= i < |o| && o[i] == Entry(k, r.value)
  {
    if |o| == 0 then None
    else if o[0].key == k then Some(o[0].value)
    else
      var r := Lookup(o[1..], k);
      assert forall i :: 1 <= i < |o| ==> o[i] == o[1..][i - 1];
      r
  }

  /** `{ ...o, [k]: v }` */
  function Put<V>(o: Obj<V>, k: string, v: V): (r: Obj<V>)
    ensures HasKey(o, k) ==> |r| == |o|
    ensures !HasKey(o, k) ==> r == o + [Entry(k, v)]
    ensures forall i :: 0 <= i < |o| && o[i].key != k ==> r[i] == o[i]
    ensures forall i :: 0 <= i < |o| ==> r[i].key == o[i].key
    decreases |o|
  {
    if |o| == 0 then [Entry(k, v)]
    else if o[0].key == k then [Entry(k, v)] + o[1..]
    else
      var rest := Put(o[1..], k, v);
      assert HasKey(o, k) <==> HasKey(o[1..], k) by {
        if HasKey(o, k) {
          var i :| 0 <= i < |o| && o[i].key == k;
          assert o[1..][i - 1].key == k;
        }
        if HasKey(o[1..], k) {
          var i :| 0 <= i < |o[1..]| && o[1..][i].key == k;
          assert o[i + 1].key == k;
        }
      }
      [o[0]] + rest
  }

  /** Reading back what `Put` wrote. */
  lemma {:induction false} PutLookupSame<V>(o: Obj<V>, k: string, v: V)
    ensures Lookup(Put(o, k, v), k) == Some(v)
    decreases |o|
  {
    if |o| > 0 && o[0].key != k {
      PutLookupSame(o[1..], k, v);
      assert Put(o, k, v)[1..] == Put(o[1..], k, v);
    }
  }

  /** `Put` keeps the keys distinct. */
  lemma PutKeepsUnique<V>(o: Obj<V>, k: string, v: V)
    requires UniqueKeys(o)
    ensures UniqueKeys(Put(o, k, v))
  {
    var r := Put(o, k, v);
    forall i, j | 0 <= i < j < |r| ensures r[i].key != r[j].key {
      if j >= |o| {
        assert r[j].key == k;
        assert r[i].key == o[i].key;
      }
    }
  }

  /** `Put` leaves every other key's value alone. */
  lemma {:induction false} PutLookupOther<V>(o: Obj<V>, k: string, v: V, k': string)
    requires k' != k
    ensures Lookup(Put(o, k, v), k') == Lookup(o, k')
    decreases |o|
  {
    if |o| > 0 && o[0].key != k {
      PutLookupOther(o[1..], k, v, k');
      assert Put(o, k, v)[1..] == Put(o[1..], k, v);
    } else if |o| > 0 {
      assert Put(o, k, v)[1..] == o[1..];
    }
  }
}
