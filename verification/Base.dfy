/** Identifiers, presence values and the collection helpers shared by every module. */
module Base {
  type UserId = string
  type SessionId = string
  type JobId = string

  datatype Option<+T> = None | Some(value: T)

  /** The three presence values a session can hold (`active`, `idle`, `dnd`). */
  datatype Status = Active | Idle | Dnd

  /** The transition an operation reports: `none`, `online`, `offline` or `invisible`. */
  datatype Transition = NoChange | Online | Offline | Hidden

  /** A Redis collection key exists exactly while its collection is non-empty. */
  function PutSet<K, V>(m: map<K, set<V>>, k: K, v: set<V>): map<K, set<V>> {
    if v == {} then m - {k} else m[k := v]
  }

  /** `order` lists the elements of `s`, each once, as a Redis reply does. */
  ghost predicate Lists<T>(order: seq<T>, s: set<T>) {
    && (forall i, j | 0 <= i < j < |order| :: order[i] != order[j])
    && (forall x | x in s :: x in order)
    && (forall x | x in order :: x in s)
  }

  lemma {:induction false} SubsetSize<T>(a: set<T>, b: set<T>)
    requires a <= b
    ensures |a| <= |b|
    decreases a
  {
    if a != {} {
      var x :| x in a;
      SubsetSize(a - {x}, b - {x});
    }
  }
}
