/** Checks made in order, the first of which that fails is reported. */
module Checks {
  import opened Wrappers

  /** A condition under which a request is refused, and the code for it. */
  datatype Check<E> = Check(fails: bool, code: E)

  /** The code of the first check that fails; None if none does. */
  ghost predicate IsFirst<E(!new)>(checks: seq<Check<E>>, code: Option<E>) {
    match code
    case None => forall i | 0 <= i < |checks| :: !checks[i].fails
    case Some(x) => exists i | 0 <= i < |checks| :: checks[i].fails && checks[i].code == x && forall j | 0 <= j < i :: !checks[j].fails
  }

  lemma FirstIs<E(!new)>(checks: seq<Check<E>>, i: nat)
    requires i < |checks| && checks[i].fails && forall j | 0 <= j < i :: !checks[j].fails
    ensures IsFirst(checks, Some(checks[i].code))
  {}

  lemma FirstFailing<E(!new)>(checks: seq<Check<E>>) returns (k: nat)
    requires exists i | 0 <= i < |checks| :: checks[i].fails
    ensures k < |checks| && checks[k].fails && forall j | 0 <= j < k :: !checks[j].fails
  {
    k := 0;
    while !checks[k].fails
      invariant k < |checks| && forall j | 0 <= j < k :: !checks[j].fails
      decreases |checks| - k
    {
      k := k + 1;
    }
  }

  lemma FirstIsOne<E(!new)>(checks: seq<Check<E>>)
    ensures forall code :: IsFirst(checks, Some(code)) ==> !IsFirst(checks, None)
  {}
}
