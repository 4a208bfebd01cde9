/**
 * A strictly ordered, short-circuiting chain of checks: the reference
 * definition against which the node and install checks are proved. Each
 * check pairs the step it performs with the failure that step reports under
 * the given collaborators; running the chain performs steps in order and
 * stops at the first failure.
 */
module Chain {
  import opened Wrappers

  datatype Check<S, E> = Check(step: S, failure: Option<E>)

  /** What a run reports (the first failure, if any) and which steps it performed. */
  datatype ChainRun<S, E> = ChainRun(err: Option<E>, trace: seq<S>)

  /** The steps of a list of checks, in order. */
  function Steps<S, E>(checks: seq<Check<S, E>>): (steps: seq<S>)
    ensures |steps| == |checks|
    ensures forall i :: 0 <= i < |checks| ==> steps[i] == checks[i].step
  {
    seq(|checks|, i requires 0 <= i < |checks| => checks[i].step)
  }

  /** True when none of `checks[..n]` fails. */
  ghost predicate PassUpTo<S, E>(checks: seq<Check<S, E>>, n: nat)
    requires n <= |checks|
  {
    forall i :: 0 <= i < n ==> checks[i].failure.None?
  }

  /** Runs the checks in order and stops at the first failure. */
  function RunChain<S, E>(checks: seq<Check<S, E>>): (r: ChainRun<S, E>)
    ensures |r.trace| <= |checks|
    ensures r.err.Some? ==> 0 < |r.trace|
  {
    if checks == [] then ChainRun(None, [])
    else
      match checks[0].failure
      case Some(e) => ChainRun(Some(e), [checks[0].step])
      case None =>
        var rest := RunChain(checks[1..]);
        ChainRun(rest.err, [checks[0].step] + rest.trace)
  }

  /** What a chain run means: its trace is a prefix of the planned steps; it
      succeeds exactly when every check passes, and then every step ran; a
      failure is the first failing check's, and that check is the last step run. */
  lemma {:induction false} RunChainSpec<S, E>(checks: seq<Check<S, E>>)
    ensures var r := RunChain(checks);
      && r.trace == Steps(checks)[..|r.trace|]
      && (r.err.None? <==> PassUpTo(checks, |checks|))
      && (r.err.None? ==> r.trace == Steps(checks))
      && (r.err.Some? ==> checks[|r.trace| - 1].failure == r.err && PassUpTo(checks, |r.trace| - 1))
    decreases |checks|
  {
    if checks != [] && checks[0].failure.None? {
      RunChainSpec(checks[1..]);
      assert Steps(checks) == [checks[0].step] + Steps(checks[1..]);
    }
  }
}
