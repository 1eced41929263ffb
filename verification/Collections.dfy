/** Sets, sequences and maps: shared notions, and facts that the solver needs spelled out. */
module Collections {

  predicate Distinct<T(==)>(items: seq<T>) {
    forall i, j :: 0 <= i < j < |items| ==> items[i] != items[j]
  }

  lemma SuffixOfAppended<T>(a: seq<T>, b: seq<T>)
    ensures (a + b)[|a|..] == b
  {
  }

  lemma Pick<T>(s: set<T>) returns (x: T)
    requires s != {}
    ensures x in s
  {
    x :| x in s;
  }

  lemma SubsetOfSameSize<T>(a: set<T>, b: set<T>)
    requires a <= b && |a| == |b|
    ensures a == b
  {
    assert |b - a| == |b| - |a|;
    assert b == a + (b - a);
  }

  lemma PickDifference<T>(a: set<T>, b: set<T>) returns (x: T)
    requires |a| == |b| && a != b
    ensures x in a && x !in b
  {
    x :| x in a;
    if exists y :: y in a && y !in b {
      x :| x in a && x !in b;
    } else {
      SubsetOfSameSize(a, b);
      assert false;
    }
  }

  lemma NothingMore<K, V>(done: map<K, V>, todo: map<K, V>)
    requires todo.Keys == {}
    ensures done + todo == done
  {
  }

  lemma NothingBefore<K, V>(m: map<K, V>)
    ensures map[] + m == m
  {
  }

  lemma MoveOne<K, V>(done: map<K, V>, todo: map<K, V>, key: K)
    requires key in todo
    ensures done[key := todo[key]] + (todo - {key}) == done + todo
  {
    var moved, whole := done[key := todo[key]] + (todo - {key}), done + todo;
    forall k ensures k in moved <==> k in whole {}
    forall k | k in moved ensures moved[k] == whole[k] {}
  }

  lemma OneKeyLess<K, V>(m: map<K, V>, key: K)
    requires key in m
    ensures (m - {key}).Keys == m.Keys - {key} && |(m - {key}).Keys| < |m.Keys|
  {
    assert (m - {key}).Keys == m.Keys - {key};
  }
}
