/** A JavaScript `Map<number, V>`: its entries in insertion order. Iterating
    over `map.values()` visits them in that order; `set` on a present key
    replaces that entry where it stands, on a new key appends. */
module InsertionMap {
  import opened Schema

  datatype Entry<V> = Entry(key: int, value: V)

  predicate HasKey<V>(m: seq<Entry<V>>, k: int) {
    exists i :: 0 <= i < |m| && m[i].key == k
  }

  /** The keys of `m` are first, first + 1, first + 2, ... in order. */
  ghost predicate KeysFrom<V>(m: seq<Entry<V>>, first: int) {
    forall i :: 0 <= i < |m| ==> m[i].key == first + i
  }

  /** `map.get(k)`: the value stored under `k`, if any. */
  function Get<V>(m: seq<Entry<V>>, k: int): (r: Option<V>)
    ensures r.Some? <==> HasKey(m, k)
    ensures r.Some? ==> exists i :: 0 <= i < |m| && m[i] == Entry(k, r.value)
  {
    if |m| == 0 then None
    else if m[0].key == k then Some(m[0].value)
    else
      var r := Get(m[1..], k);
      assert r.Some? ==> exists i :: 0 <= i < |m[1..]| && m[1..][i] == Entry(k, r.value);
      assert HasKey(m[1..], k) ==> HasKey(m, k) by {
        if HasKey(m[1..], k) {
          var i :| 0 <= i < |m[1..]| && m[1..][i].key == k;
          assert m[i + 1].key == k;
        }
      }
      r
  }

  /** `map.set(k, v)`. */
  function Set<V>(m: seq<Entry<V>>, k: int, v: V): (r: seq<Entry<V>>)
    ensures !HasKey(m, k) ==> r == m + [Entry(k, v)]
    ensures HasKey(m, k) ==> exists i :: 0 <= i < |m| && m[i].key == k && r == m[i := Entry(k, v)]
    ensures HasKey(m, k) ==> |r| == |m|
    ensures Get(r, k) == Some(v)
    ensures forall k' :: k' != k ==> Get(r, k') == Get(m, k')
  {
    if |m| == 0 then [Entry(k, v)]
    else if m[0].key == k then
      assert [Entry(k, v)] + m[1..] == m[0 := Entry(k, v)];
      [Entry(k, v)] + m[1..]
    else
      var rest := Set(m[1..], k, v);
      HasKeyTail(m, k);
      assert ([m[0]] + rest)[1..] == rest;
      assert HasKey(m, k) ==> exists i :: 0 <= i < |m| && m[i].key == k && [m[0]] + rest == m[i := Entry(k, v)] by {
        if HasKey(m, k) {
          var j :| 0 <= j < |m[1..]| && m[1..][j].key == k && rest == m[1..][j := Entry(k, v)];
          UpdateBehindHead(m, j, Entry(k, v));
        }
      }
      [m[0]] + rest
  }

  /** A key other than the head's is present exactly when the tail holds it. */
  lemma HasKeyTail<V>(m: seq<Entry<V>>, k: int)
    requires |m| > 0 && m[0].key != k
    ensures HasKey(m, k) <==> HasKey(m[1..], k)
  {
    if HasKey(m, k) {
      var i :| 0 <= i < |m| && m[i].key == k;
      assert m[1..][i - 1].key == k;
    }
    if HasKey(m[1..], k) {
      var i :| 0 <= i < |m[1..]| && m[1..][i].key == k;
      assert m[i + 1].key == k;
    }
  }

  /** Replacing entry `j` of the tail is replacing entry `j + 1` of the whole. */
  lemma UpdateBehindHead<V>(m: seq<Entry<V>>, j: int, e: Entry<V>)
    requires 0 <= j < |m| - 1
    ensures [m[0]] + m[1..][j := e] == m[j + 1 := e]
  {
  }

  /** `Array.from(map.values())`. */
  function Values<V>(m: seq<Entry<V>>): seq<V> {
    seq(|m|, i requires 0 <= i < |m| => m[i].value)
  }

  /** When the keys are numbered consecutively from `first`, `Get` finds key
      `k` exactly at position `k - first`. */
  lemma {:induction false} GetNumbered<V>(m: seq<Entry<V>>, first: int, k: int)
    requires KeysFrom(m, first)
    ensures Get(m, k) == if first <= k < first + |m| then Some(m[k - first].value) else None
    decreases |m|
  {
    if |m| > 0 && m[0].key != k {
      GetNumbered(m[1..], first + 1, k);
    }
  }

  /** Numbered keys never repeat, so a new key is one past the last. */
  lemma NextKeyIsFresh<V>(m: seq<Entry<V>>, first: int)
    requires KeysFrom(m, first)
    ensures !HasKey(m, first + |m|)
  {
  }
}
