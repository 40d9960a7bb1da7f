/** Datatypes shared by every module. */
module Common {
  datatype Option<+T> = None | Some(value: T)

  datatype Result<+T> = Success(value: T) | Failure

  function Lookup<K, V>(m: map<K, V>, k: K): Option<V> {
    if k in m then Some(m[k]) else None
  }

  predicate Distinct<T(==)>(s: seq<T>) { forall i, j | 0 <= i < j < |s| :: s[i] != s[j] }

  lemma Assoc<T>(a: seq<T>, b: seq<T>, c: seq<T>)
    ensures a + (b + c) == a + b + c
  {
  }

  lemma LastApart<T>(s: seq<T>)
    requires s != []
    ensures s == s[..|s| - 1] + [s[|s| - 1]]
  {
  }

  lemma LastOfDistinct<T>(s: seq<T>)
    requires s != [] && Distinct(s)
    ensures s[|s| - 1] in s && s[|s| - 1] !in s[..|s| - 1] && Distinct(s[..|s| - 1])
    ensures forall x | x in s[..|s| - 1] :: x in s
  {
  }

  lemma PlusNothing<K, V>(m: map<K, V>)
    ensures m + map[] == m && map[] + m == m
  {
  }

  lemma UpdateTwice<K, V>(m: map<K, V>, k: K, x: V, y: V)
    ensures m[k := x][k := y] == m[k := y]
  {
  }

  lemma UpdatesCommute<K, V>(m: map<K, V>, k: K, x: V, l: K, y: V)
    requires k != l
    ensures m[k := x][l := y] == m[l := y][k := x]
  {
  }
}
