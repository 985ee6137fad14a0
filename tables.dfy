/**
 * The lookup every `switch` over string tokens in the front end performs: the case
 * labels are compared one after the other, the first that matches wins, and a value
 * matching none falls through to the default.
 */
module Tables {

  import opened Wrappers

  /** The value of the first entry whose key is `key`, if any. */
  function Find<K(==), V>(table: seq<(K, V)>, key: K): (r: Option<V>)
    decreases |table|
  {
    if |table| == 0 then None
    else if table[0].0 == key then Some(table[0].1)
    else Find(table[1..], key)
  }

  /** No key appears twice, so no case label shadows another. */
  predicate DistinctKeys<K(==), V>(table: seq<(K, V)>)
  {
    forall i, j | 0 <= i < j < |table| :: table[i].0 != table[j].0
  }

  /** No value appears twice, so a value tells which key asked for it. */
  predicate DistinctValues<K, V(==)>(table: seq<(K, V)>)
  {
    forall i, j | 0 <= i < j < |table| :: table[i].1 != table[j].1
  }

  /** A key of the table finds the value of its first entry. */
  lemma {:induction false} FindFirst<K, V>(table: seq<(K, V)>, key: K, i: nat)
    requires i < |table| && table[i].0 == key
    requires forall j | 0 <= j < i :: table[j].0 != key
    ensures Find(table, key) == Some(table[i].1)
    decreases i
  {
    if i > 0 {
      FindFirst(table[1..], key, i - 1);
    }
  }

  /** A key that is in no entry finds nothing. */
  lemma {:induction false} FindNone<K, V>(table: seq<(K, V)>, key: K)
    requires forall j | 0 <= j < |table| :: table[j].0 != key
    ensures Find(table, key).None?
    decreases |table|
  {
    if |table| > 0 {
      FindNone(table[1..], key);
    }
  }

  /** What is found is the value of an entry carrying the key. */
  lemma {:induction false} FindSound<K, V>(table: seq<(K, V)>, key: K)
    ensures Find(table, key).Some? ==> exists i | 0 <= i < |table| :: table[i] == (key, Find(table, key).value)
    decreases |table|
  {
    if |table| > 0 && table[0].0 != key {
      FindSound(table[1..], key);
      if Find(table, key).Some? {
        var i :| 0 <= i < |table| - 1 && table[1..][i] == (key, Find(table, key).value);
        assert table[i + 1] == table[1..][i];
      }
    }
  }

  /**
   * With distinct keys every entry is found by its key, and a key in no entry finds
   * nothing: the table is a total map from its keys.
   */
  lemma FindExactly<K, V>(table: seq<(K, V)>, key: K)
    requires DistinctKeys(table)
    ensures forall i | 0 <= i < |table| && table[i].0 == key :: Find(table, key) == Some(table[i].1)
    ensures (forall i | 0 <= i < |table| :: table[i].0 != key) <==> Find(table, key).None?
  {
    forall i | 0 <= i < |table| && table[i].0 == key
      ensures Find(table, key) == Some(table[i].1)
    {
      FindFirst(table, key, i);
    }
    if forall i | 0 <= i < |table| :: table[i].0 != key {
      FindNone(table, key);
    }
  }

  /** With distinct values, two keys finding the same value are the same key. */
  lemma FindInjective<K, V>(table: seq<(K, V)>, a: K, b: K)
    requires DistinctValues(table)
    requires Find(table, a).Some? && Find(table, a) == Find(table, b)
    ensures a == b
  {
    FindSound(table, a);
    FindSound(table, b);
    var i :| 0 <= i < |table| && table[i] == (a, Find(table, a).value);
    var j :| 0 <= j < |table| && table[j] == (b, Find(table, b).value);
    assert i == j;
  }
}
