/**
 * The request pipeline: a route's middlewares run in declared order, the
 * first one that fails ends the request with its error, and the terminal
 * handler runs only when every middleware passed.
 */
module Pipeline {
  import opened Wrappers

  /** Runs `checks` in order with `run` (None = pass, Some(e) = fail with e)
      and returns the position and error of the first failing check, or None
      when all of them pass. */
  function FirstFailure<C, E>(checks: seq<C>, run: C -> Option<E>): (r: Option<(nat, E)>)
    ensures r.None? <==> forall i :: 0 <= i < |checks| ==> run(checks[i]).None?
    ensures r.Some? ==>
      r.value.0 < |checks| &&
      run(checks[r.value.0]) == Some(r.value.1) &&
      forall i :: 0 <= i < r.value.0 ==> run(checks[i]).None?
  {
    if |checks| == 0 then None
    else match run(checks[0])
      case Some(e) => Some((0, e))
      case None =>
        match FirstFailure(checks[1..], run)
        case None => None
        case Some((i, e)) => Some((i + 1, e))
  }

  /** Precedence: a failing check wins over every check after it, failing or
      not, as soon as all the checks before it pass. */
  lemma {:induction false} FailureAt<C, E>(checks: seq<C>, run: C -> Option<E>, j: nat)
    requires j < |checks| && run(checks[j]).Some?
    requires forall i :: 0 <= i < j ==> run(checks[i]).None?
    ensures FirstFailure(checks, run) == Some((j, run(checks[j]).value))
  {
  }
}
