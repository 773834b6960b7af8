/**
 * The expression matcher list of metric filtering
 * (internal/filter/filtermetric/expr_matcher.go): building one matcher per
 * expression, failing on the first that does not compile, and matching a
 * metric as a short-circuiting OR over the list that stops at the first
 * error.
 *
 * The expression language itself is not part of this model: compiling an
 * expression and evaluating a compiled matcher against a metric are function
 * parameters (`compile`, `eval`) of arbitrary behaviour.
 */
module ExprMatcher {
  import opened Wrappers

  // ---------------------------------------------------------------------
  // newExprMatcher
  // ---------------------------------------------------------------------

  /** The first `n` expressions all compile. */
  ghost predicate AllCompile<M, E>(compile: string -> Result<M, E>, expressions: seq<string>, n: int)
    requires 0 <= n <= |expressions|
  {
    forall j :: 0 <= j < n ==> compile(expressions[j]).Success?
  }

  /**
   * newExprMatcher. On success the matchers are the compiled expressions,
   * one per expression and in the same order; otherwise the error is that of
   * the first expression that fails to compile.
   */
  method NewExprMatcher<M, E>(compile: string -> Result<M, E>, expressions: seq<string>)
    returns (r: Result<seq<M>, E>)
    ensures r.Success? <==> AllCompile(compile, expressions, |expressions|)
    ensures r.Success? ==>
      && |r.value| == |expressions|
      && forall i :: 0 <= i < |expressions| ==> compile(expressions[i]) == Success(r.value[i])
    ensures r.Failure? ==>
      exists i :: 0 <= i < |expressions| && AllCompile(compile, expressions, i)
        && compile(expressions[i]) == Failure(r.error)
  {
    var matchers: seq<M> := [];
    var k := 0;
    while k < |expressions|
      invariant 0 <= k <= |expressions|
      invariant AllCompile(compile, expressions, k)
      invariant |matchers| == k
      invariant forall i :: 0 <= i < k ==> compile(expressions[i]) == Success(matchers[i])
    {
      var compiled := compile(expressions[k]);
      if compiled.Failure? {
        return Failure(compiled.error);
      }
      matchers := matchers + [compiled.value];
      k := k + 1;
    }
    return Success(matchers);
  }

  // ---------------------------------------------------------------------
  // exprMatcher.MatchMetric
  // ---------------------------------------------------------------------

  /** A matcher's outcome that lets the loop go on: `(false, nil)`. */
  predicate Quiet<E>(outcome: Result<bool, E>) {
    outcome.Success? && !outcome.value
  }

  /** The matchers before index `n` all returned `(false, nil)`. */
  ghost predicate QuietBefore<M, T, E>(eval: (M, T) -> Result<bool, E>, matchers: seq<M>, metric: T, n: int)
    requires 0 <= n <= |matchers|
  {
    forall j :: 0 <= j < n ==> Quiet(eval(matchers[j], metric))
  }

  /** Index `i` holds the first outcome that is not `(false, nil)`. */
  ghost predicate FirstDecisive<M, T, E>(eval: (M, T) -> Result<bool, E>, matchers: seq<M>, metric: T, i: int) {
    0 <= i < |matchers| && QuietBefore(eval, matchers, metric, i) && !Quiet(eval(matchers[i], metric))
  }

  /**
   * exprMatcher.MatchMetric: the Go pair `(matched, err)`, and how many
   * matchers were evaluated before the loop returned.
   */
  method MatchMetric<M, T, E>(eval: (M, T) -> Result<bool, E>, matchers: seq<M>, metric: T)
    returns (matched: bool, err: Option<E>, evaluated: nat)
    // an error always comes with false
    ensures err.Some? ==> !matched
    // (true, nil) iff some matcher says true and every earlier one said (false, nil)
    ensures matched <==>
      exists i :: FirstDecisive(eval, matchers, metric, i) && eval(matchers[i], metric) == Success(true)
    // the first error, if it comes before any match, is the one returned
    ensures forall e :: err == Some(e) <==>
      exists i :: FirstDecisive(eval, matchers, metric, i) && eval(matchers[i], metric) == Failure(e)
    // (false, nil) iff every matcher returned (false, nil); in particular for an empty list
    ensures (!matched && err.None?) <==> QuietBefore(eval, matchers, metric, |matchers|)
    // with no erroring matcher, the result is the plain OR of the matchers
    ensures (forall j :: 0 <= j < |matchers| ==> eval(matchers[j], metric).Success?) ==>
      err.None? && (matched <==> exists i :: 0 <= i < |matchers| && eval(matchers[i], metric) == Success(true))
    // short circuit: evaluation stops right after the first decisive outcome
    ensures evaluated <= |matchers|
    ensures QuietBefore(eval, matchers, metric, |matchers|) ==> evaluated == |matchers|
    ensures forall i :: FirstDecisive(eval, matchers, metric, i) ==> evaluated == i + 1
  {
    var k := 0;
    while k < |matchers|
      invariant 0 <= k <= |matchers|
      invariant QuietBefore(eval, matchers, metric, k)
    {
      var outcome := eval(matchers[k], metric);
      if outcome.Failure? {
        FirstDecisiveUnique(eval, matchers, metric, k);
        return false, Some(outcome.error), k + 1;
      }
      if outcome.value {
        FirstDecisiveUnique(eval, matchers, metric, k);
        return true, None, k + 1;
      }
      k := k + 1;
    }
    return false, None, k;
  }

  /** At most one index is the first decisive one. */
  lemma FirstDecisiveUnique<M, T, E>(eval: (M, T) -> Result<bool, E>, matchers: seq<M>, metric: T, i: int)
    requires FirstDecisive(eval, matchers, metric, i)
    ensures forall j :: FirstDecisive(eval, matchers, metric, j) ==> j == i
    ensures !QuietBefore(eval, matchers, metric, |matchers|)
  {
  }
}
