/** The optional value that stands for a Go pointer or lookup that may be absent, and maps seen key by key. */
module Wrappers {
  datatype Option<+T> = None | Some(value: T)

  function Lookup<K, V>(entries: map<K, V>, key: K): Option<V> {
    if key in entries then Some(entries[key]) else None
  }

  lemma SameEverywhere<K, V>(a: map<K, V>, b: map<K, V>)
    requires forall key :: Lookup(a, key) == Lookup(b, key)
    ensures a == b
  {
    forall key ensures key in a <==> key in b {
      assert Lookup(a, key) == Lookup(b, key);
    }
    forall key | key in a ensures a[key] == b[key] {
      assert Lookup(a, key) == Lookup(b, key);
    }
  }
}
