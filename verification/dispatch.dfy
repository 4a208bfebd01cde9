/**
 * The dispatcher (`ExecuteDiagnose`): runs the chain of checks that belongs
 * to the diagnose target and decides which banner, if any, is printed.
 */
module Dispatch {
  import opened Wrappers
  import opened DiagnoseTypes
  import opened NodeCheck
  import opened PodCheck
  import opened InstallCheck

  /** The diagnose subcommand; any other name reaches none of the chains. */
  datatype Target = NodeTarget | PodTarget | InstallTarget | OtherTarget(use: string)

  /** The closing pass/fail line, or none when the run stops at a usage error. */
  datatype Banner = NoBanner | PassBanner | FailBanner

  /** Outcome of one diagnose invocation: banner, error printed, options
      afterwards and every step performed. */
  datatype Execution = Execution(banner: Banner, err: Option<Error>, ops: DiagnoseOptions, trace: seq<Step>)

  function BannerFor(err: Option<Error>): (b: Banner)
    ensures b != NoBanner
    ensures b == PassBanner <==> err.None?
  {
    if err.None? then PassBanner else FailBanner
  }

  /** An install probe's error, reported unchanged. */
  function InstallError(err: Option<string>): (e: Option<Error>)
    ensures e.None? <==> err.None?
    ensures err.Some? ==> e == Some(ProbeFailed(err.value)) && Message(e.value) == err.value
  {
    match err
    case None => None
    case Some(cause) => Some(ProbeFailed(cause))
  }

  function ExecuteDiagnose(target: Target, env: Env, ops: DiagnoseOptions, args: seq<string>): (x: Execution)
    // The banner is missing only for a pod target without a pod name.
    ensures x.banner == NoBanner <==> target == PodTarget && |args| == 0
    // Otherwise it is the pass banner exactly when nothing failed.
    ensures x.banner != NoBanner ==> (x.banner == PassBanner <==> x.err.None?)
    // Only the data-source path of the options can change.
    ensures x.ops == ops.(dbPath := x.ops.dbPath)
  {
    match target
    case NodeTarget =>
      var node := DiagnoseNode(env.node, ops);
      Execution(BannerFor(node.err), node.err, node.ops, node.trace)
    case PodTarget =>
      if |args| == 0 then Execution(NoBanner, Some(MissingPodName), ops, [])
      else
        var node := DiagnoseNode(env.node, ops);
        if node.err.Some? then Execution(FailBanner, node.err, node.ops, node.trace)
        else
          var pod := DiagnosePod(env.db, node.ops, args[0]);
          Execution(BannerFor(pod.err), pod.err, pod.ops, node.trace + pod.trace)
    case InstallTarget =>
      var install := DiagnoseInstall(ops.checkOptions, env.install);
      var err := InstallError(install.err);
      Execution(BannerFor(err), err, ops, install.trace)
    case OtherTarget(_) =>
      Execution(PassBanner, None, ops, [])
  }

  /** A pod target without a name reports the usage error and runs nothing. */
  lemma PodWithoutNameRunsNothing(env: Env, ops: DiagnoseOptions)
    ensures ExecuteDiagnose(PodTarget, env, ops, []) == Execution(NoBanner, Some(MissingPodName), ops, [])
  {
  }

  /** A target name outside node, pod and install runs nothing and passes. */
  lemma UnknownTargetPasses(use: string, env: Env, ops: DiagnoseOptions, args: seq<string>)
    ensures ExecuteDiagnose(OtherTarget(use), env, ops, args) == Execution(PassBanner, None, ops, [])
  {
  }

  /** The pod check runs only after a passing node check; a failing node
      check is the reported result and no store step happens. */
  lemma PodAfterHealthyNode(env: Env, ops: DiagnoseOptions, args: seq<string>)
    requires |args| > 0
    ensures var x := ExecuteDiagnose(PodTarget, env, ops, args);
      var node := DiagnoseNode(env.node, ops);
      && (node.err.Some? ==>
            && x.err == node.err && x.trace == node.trace && x.banner == FailBanner && x.ops == node.ops
            && forall s :: s in x.trace ==> !s.InitDatabase? && !s.QueryMeta?)
      && (node.err.None? ==>
            var pod := DiagnosePod(env.db, node.ops, args[0]);
            x.err == pod.err && x.trace == node.trace + pod.trace)
  {
  }

  /** Node and install targets run exactly their own chain. */
  lemma SingleChainTargets(env: Env, ops: DiagnoseOptions, args: seq<string>)
    ensures var x := ExecuteDiagnose(NodeTarget, env, ops, args);
      var node := DiagnoseNode(env.node, ops);
      x.err == node.err && x.trace == node.trace && x.ops == node.ops
    ensures var x := ExecuteDiagnose(InstallTarget, env, ops, args);
      var install := DiagnoseInstall(ops.checkOptions, env.install);
      && x.trace == install.trace && x.ops == ops
      && (x.err.None? <==> install.err.None?)
      && (install.err.Some? ==> Message(x.err.value) == install.err.value)
  {
  }

  /** A pod diagnosis opens the store only at the data source the node check
      resolved and found on disk. */
  lemma DatabaseOpenedIsVerified(env: Env, ops: DiagnoseOptions, args: seq<string>, path: string)
    requires InitDatabase(path) in ExecuteDiagnose(PodTarget, env, ops, args).trace
    ensures path in env.node.existing
    ensures FileExists(path) in ExecuteDiagnose(PodTarget, env, ops, args).trace
    ensures ReachesDataSource(env.node, ops) && path == ResolveDataSource(env.node.parse(ops.config).value)
  {
    var node := DiagnoseNode(env.node, ops);
    var pod := DiagnosePod(env.db, node.ops, args[0]);
    NodeDbPath(env.node, ops);
    assert node.err.None?;
    var i :| 0 <= i < |node.trace + pod.trace| && (node.trace + pod.trace)[i] == InitDatabase(path);
    if i > |node.trace| {
      assert pod.trace[i - |node.trace|] in pod.trace[1..];
    }
  }
}
