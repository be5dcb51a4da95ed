// The ordered map (std::map) the registries keep beside each TMap: entries in
// ascending order of a key's rank, where two keys of equal rank are the same
// entry (neither is less than the other). The map is the sequence of its
// entries in iteration order.
module OrderedMaps {
  import opened DisBase

  datatype Entry<K, V> = Entry(key: K, value: V)

  /** Strictly ascending ranks: the entries of a well-formed std::map in iteration order. */
  predicate Ordered<K, V>(m: seq<Entry<K, V>>, rank: K -> int)
  {
    forall i, j :: 0 <= i < j < |m| ==> rank(m[i].key) < rank(m[j].key)
  }

  /** Some entry's key is equivalent to `k`. */
  predicate Has<K, V>(m: seq<Entry<K, V>>, rank: K -> int, k: K)
  {
    exists i :: 0 <= i < |m| && rank(m[i].key) == rank(k)
  }

  /** find: the value of the first entry whose key is equivalent to `k`, if any. */
  function Find<K, V>(m: seq<Entry<K, V>>, rank: K -> int, k: K): (r: Option<V>)
    ensures r.None? <==> !Has(m, rank, k)
    ensures r.Some? ==> exists i :: 0 <= i < |m| && rank(m[i].key) == rank(k) && m[i].value == r.value
  {
    if |m| == 0 then None
    else if rank(m[0].key) == rank(k) then Some(m[0].value)
    else
      var r := Find(m[1..], rank, k);
      assert !Has(m[1..], rank, k) ==> !Has(m, rank, k) by {
        if Has(m, rank, k) {
          var i :| 0 <= i < |m| && rank(m[i].key) == rank(k);
          assert i > 0 && rank(m[1..][i - 1].key) == rank(k);
        }
      }
      r
  }

  /** The stored key of the entry equivalent to `k`, if any. */
  function FindKey<K, V>(m: seq<Entry<K, V>>, rank: K -> int, k: K): (r: Option<K>)
    ensures r.Some? ==> rank(r.value) == rank(k)
    ensures r.None? <==> Find(m, rank, k).None?
  {
    if |m| == 0 then None
    else if rank(m[0].key) == rank(k) then Some(m[0].key)
    else FindKey(m[1..], rank, k)
  }

  /**
   * insert_or_assign: an entry equivalent to `k` keeps its stored key and
   * takes the new value; otherwise a new entry goes in at its place in order.
   */
  function InsertOrAssign<K, V>(m: seq<Entry<K, V>>, rank: K -> int, k: K, v: V): (r: seq<Entry<K, V>>)
    ensures |m| <= |r| <= |m| + 1
  {
    if |m| == 0 then [Entry(k, v)]
    else if rank(k) < rank(m[0].key) then [Entry(k, v)] + m
    else if rank(k) == rank(m[0].key) then [Entry(m[0].key, v)] + m[1..]
    else [m[0]] + InsertOrAssign(m[1..], rank, k, v)
  }

  /** insert: nothing changes when an equivalent key is present; otherwise as insert_or_assign. */
  function Insert<K, V>(m: seq<Entry<K, V>>, rank: K -> int, k: K, v: V): (r: seq<Entry<K, V>>)
    ensures Has(m, rank, k) ==> r == m
  {
    if Find(m, rank, k).Some? then m else InsertOrAssign(m, rank, k, v)
  }

  /** erase: the map without its entries equivalent to `k`. */
  function Erase<K, V>(m: seq<Entry<K, V>>, rank: K -> int, k: K): (r: seq<Entry<K, V>>)
    ensures |r| <= |m|
  {
    if |m| == 0 then []
    else if rank(m[0].key) == rank(k) then Erase(m[1..], rank, k)
    else [m[0]] + Erase(m[1..], rank, k)
  }

  /** What erase returns: the number of entries removed. */
  function Erased<K, V>(m: seq<Entry<K, V>>, rank: K -> int, k: K): (n: nat)
  {
    |m| - |Erase(m, rank, k)|
  }

  /** After insert_or_assign, `k` finds `v` and every other key finds what it found before. */
  lemma {:induction false} InsertOrAssignFind<K, V>(m: seq<Entry<K, V>>, rank: K -> int, k: K, v: V, q: K)
    ensures Find(InsertOrAssign(m, rank, k, v), rank, q) ==
            if rank(q) == rank(k) then Some(v) else Find(m, rank, q)
  {
    if |m| > 0 && rank(k) > rank(m[0].key) {
      InsertOrAssignFind(m[1..], rank, k, v, q);
      var r := InsertOrAssign(m, rank, k, v);
      assert r[1..] == InsertOrAssign(m[1..], rank, k, v);
    } else if |m| > 0 && rank(k) < rank(m[0].key) {
      var r := InsertOrAssign(m, rank, k, v);
      assert r[1..] == m;
    } else if |m| > 0 {
      var r := InsertOrAssign(m, rank, k, v);
      assert r[1..] == m[1..];
    }
  }

  /** insert_or_assign keeps the key an equivalent entry was stored under. */
  lemma {:induction false} InsertOrAssignKeepsStoredKey<K, V>(m: seq<Entry<K, V>>, rank: K -> int, k: K, v: V)
    requires Ordered(m, rank)
    ensures FindKey(InsertOrAssign(m, rank, k, v), rank, k) ==
            if Find(m, rank, k).Some? then FindKey(m, rank, k) else Some(k)
  {
    if |m| > 0 && rank(k) > rank(m[0].key) {
      InsertOrAssignKeepsStoredKey(m[1..], rank, k, v);
      var r := InsertOrAssign(m, rank, k, v);
      assert r[1..] == InsertOrAssign(m[1..], rank, k, v);
    } else if |m| > 0 && rank(k) < rank(m[0].key) {
      assert !Has(m, rank, k) by {
        forall i | 0 < i < |m| ensures rank(m[i].key) != rank(k) {
          assert rank(m[0].key) < rank(m[i].key);
        }
      }
    }
  }

  /** The first entry of insert_or_assign's result is the new entry or the old first entry. */
  lemma {:induction false} InsertOrAssignHead<K, V>(m: seq<Entry<K, V>>, rank: K -> int, k: K, v: V)
    ensures var r := InsertOrAssign(m, rank, k, v);
            |r| > 0 && (rank(r[0].key) == rank(k) || (|m| > 0 && r[0] == m[0]))
  {
  }

  /** insert_or_assign keeps the entries in order. */
  lemma {:induction false} InsertOrAssignOrdered<K, V>(m: seq<Entry<K, V>>, rank: K -> int, k: K, v: V)
    requires Ordered(m, rank)
    ensures Ordered(InsertOrAssign(m, rank, k, v), rank)
  {
    var r := InsertOrAssign(m, rank, k, v);
    if |m| > 0 && rank(k) > rank(m[0].key) {
      var tail := InsertOrAssign(m[1..], rank, k, v);
      InsertOrAssignOrdered(m[1..], rank, k, v);
      InsertOrAssignHead(m[1..], rank, k, v);
      assert r == [m[0]] + tail;
      assert rank(m[0].key) < rank(tail[0].key);
      forall i, j | 0 <= i < j < |r|
        ensures rank(r[i].key) < rank(r[j].key)
      {
        if i == 0 && j > 1 {
          assert rank(tail[0].key) < rank(tail[j - 1].key);
        }
      }
    }
  }

  /** After insert, `k` finds what it found before if present, else `v`; other keys are unaffected. */
  lemma InsertFind<K, V>(m: seq<Entry<K, V>>, rank: K -> int, k: K, v: V, q: K)
    ensures Find(Insert(m, rank, k, v), rank, q) ==
            if rank(q) == rank(k) && Find(m, rank, k).None? then Some(v) else Find(m, rank, q)
  {
    if Find(m, rank, k).None? {
      InsertOrAssignFind(m, rank, k, v, q);
    } else if rank(q) == rank(k) {
      FindEquivalent(m, rank, k, q);
    }
  }

  /** Equivalent keys find the same entry. */
  lemma {:induction false} FindEquivalent<K, V>(m: seq<Entry<K, V>>, rank: K -> int, k: K, q: K)
    requires rank(k) == rank(q)
    ensures Find(m, rank, k) == Find(m, rank, q)
  {
    if |m| > 0 && rank(m[0].key) != rank(k) {
      FindEquivalent(m[1..], rank, k, q);
    }
  }

  /** insert keeps the entries in order. */
  lemma InsertOrdered<K, V>(m: seq<Entry<K, V>>, rank: K -> int, k: K, v: V)
    requires Ordered(m, rank)
    ensures Ordered(Insert(m, rank, k, v), rank)
  {
    if Find(m, rank, k).None? {
      InsertOrAssignOrdered(m, rank, k, v);
    }
  }

  /** After erase, `k` finds nothing and every other key finds what it found before. */
  lemma {:induction false} EraseFind<K, V>(m: seq<Entry<K, V>>, rank: K -> int, k: K, q: K)
    ensures Find(Erase(m, rank, k), rank, q) == if rank(q) == rank(k) then None else Find(m, rank, q)
  {
    if |m| > 0 {
      EraseFind(m[1..], rank, k, q);
      if rank(m[0].key) != rank(k) {
        assert Erase(m, rank, k)[1..] == Erase(m[1..], rank, k);
      }
    }
  }

  /** erase removes something exactly when an equivalent key was present. */
  lemma {:induction false} ErasedIffPresent<K, V>(m: seq<Entry<K, V>>, rank: K -> int, k: K)
    ensures Erased(m, rank, k) > 0 <==> Find(m, rank, k).Some?
  {
    if |m| > 0 {
      ErasedIffPresent(m[1..], rank, k);
    }
  }

  /** Every entry erase keeps was an entry of the map. */
  lemma {:induction false} EraseSubsequence<K, V>(m: seq<Entry<K, V>>, rank: K -> int, k: K)
    ensures forall e :: e in Erase(m, rank, k) ==> e in m
  {
    if |m| > 0 {
      EraseSubsequence(m[1..], rank, k);
    }
  }

  /** erase keeps the entries in order. */
  lemma {:induction false} EraseOrdered<K, V>(m: seq<Entry<K, V>>, rank: K -> int, k: K)
    requires Ordered(m, rank)
    ensures Ordered(Erase(m, rank, k), rank)
  {
    if |m| > 0 {
      EraseOrdered(m[1..], rank, k);
      var tail := Erase(m[1..], rank, k);
      EraseSubsequence(m[1..], rank, k);
      if rank(m[0].key) != rank(k) {
        var r := Erase(m, rank, k);
        assert r == [m[0]] + tail;
        forall i, j | 0 <= i < j < |r|
          ensures rank(r[i].key) < rank(r[j].key)
        {
          if i == 0 {
            assert r[j] in m[1..];
          }
        }
      }
    }
  }
}
