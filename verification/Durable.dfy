/**
 Small vocabulary shared by the models: an optional value, and a file that is
 replaced by "write a temporary file, sync it, rename it, sync the directory".
 */
module Durable {

  datatype Option<+T> = None | Some(value: T)

  /** How one atomic replacement ends.
      Written:   the rename and the directory sync both succeeded.
      Untouched: the replacement failed before the rename.
      Unsettled: the rename happened, the directory sync did not. */
  datatype Outcome = Written | Untouched | Unsettled

  /** What a process reads now, and every value a power loss may leave behind. */
  datatype File<T(==)> = File(visible: T, durable: set<T>)

  predicate Settled<T>(f: File<T>) {
    f.durable == {f.visible}
  }

  function Replace<T>(f: File<T>, value: T, outcome: Outcome): (r: File<T>)
    ensures f.visible in f.durable ==> r.visible in r.durable
    ensures outcome == Written ==> r.visible == value && Settled(r)
    ensures forall v :: v in r.durable ==> v == value || v in f.durable
  {
    match outcome
    case Written => File(value, {value})
    case Untouched => f
    case Unsettled => File(value, f.durable + {value})
  }

  lemma {:induction false} SubsetSize<T>(a: set<T>, b: set<T>)
    requires a <= b
    ensures |a| <= |b|
  {
    assert b == a + (b - a);
  }

  lemma SubmapSize<K, V>(a: map<K, V>, b: map<K, V>)
    requires forall k :: k in a ==> k in b
    ensures |a| <= |b|
  {
    assert a.Keys <= b.Keys;
    SubsetSize(a.Keys, b.Keys);
    assert |a| == |a.Keys| && |b| == |b.Keys|;
  }
}
