/** Call logs, shared by both engine models: the calls of a log that a
    predicate keeps, in order. */
module CallLogs {

  /** The calls of `log` that satisfy `keep`, in their order. */
  function Kept<C>(log: seq<C>, keep: C -> bool): (r: seq<C>)
    ensures forall i | 0 <= i < |r| :: keep(r[i])
    ensures |r| <= |log|
  {
    if log == [] then []
    else (if keep(log[0]) then [log[0]] else []) + Kept(log[1..], keep)
  }

  /** Filtering a log in two pieces filters the whole log. */
  lemma {:induction false} KeptAppend<C>(a: seq<C>, b: seq<C>, keep: C -> bool)
    ensures Kept(a + b, keep) == Kept(a, keep) + Kept(b, keep)
  {
    if a == [] {
      assert a + b == b;
    } else {
      assert (a + b)[0] == a[0] && (a + b)[1..] == a[1..] + b;
      KeptAppend(a[1..], b, keep);
    }
  }

  /** A log none of whose calls is kept filters to nothing. */
  lemma {:induction false} KeptNone<C>(log: seq<C>, keep: C -> bool)
    requires forall i | 0 <= i < |log| :: !keep(log[i])
    ensures Kept(log, keep) == []
  {
    if log != [] {
      assert !keep(log[0]);
      KeptNone(log[1..], keep);
    }
  }
}
