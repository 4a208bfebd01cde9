/**
 * The node health check (`DiagnoseNode`): agent process running,
 * configuration file present and parseable, data source resolved and present,
 * EdgeHub enabled, cloud endpoint reachable over HTTPS. The chain stops at the
 * first failing step. Its one side effect is recording the resolved data
 * source in the options' `dbPath`.
 */
module NodeCheck {
  import opened Wrappers
  import opened DiagnoseTypes
  import opened Chain

  /** Outcome of a node check: the error (`None` on success), the options
      after the `dbPath` side effect, and the steps performed. */
  datatype NodeRun = NodeRun(err: Option<Error>, ops: DiagnoseOptions, trace: seq<Step>)

  /** The data source named by the configuration, or the built-in one when
      the configuration leaves it empty. */
  function ResolveDataSource(cfg: EdgeConfig): (path: string)
    ensures path != ""
    ensures cfg.dataSource != "" ==> path == cfg.dataSource
    ensures cfg.dataSource == "" ==> path == DefaultDataSource
  {
    if cfg.dataSource != "" then cfg.dataSource else DefaultDataSource
  }

  /** The URL probed for cloud connectivity. */
  function CloudURL(cfg: EdgeConfig): (url: string)
    ensures |url| == 8 + |cfg.edgeHubServer|
    ensures url[..8] == "https://" && url[8..] == cfg.edgeHubServer
  {
    "https://" + cfg.edgeHubServer
  }

  function DiagnoseNode(env: NodeEnv, ops: DiagnoseOptions): (run: NodeRun)
    // The process table is always queried first, and at most six steps run.
    ensures 1 <= |run.trace| <= 6 && run.trace[0] == ProcessQuery(EdgecoreBinaryName)
    // Only the data-source path of the options can change.
    ensures run.ops == ops.(dbPath := run.ops.dbPath)
    // On success the recorded data source is a file that exists.
    ensures run.err.None? ==> run.ops.dbPath in env.existing && run.ops.dbPath != ""
    ensures run.err.None? ==> FileExists(run.ops.dbPath) in run.trace
    // The node check never touches the metadata store or the install probes.
    ensures forall s :: s in run.trace ==>
      s.ProcessQuery? || s.FileExists? || s.ParseConfig? || s.EdgeHubEnabled? || s.HttpProbe?
  {
    var t0 := [ProcessQuery(EdgecoreBinaryName)];
    match env.processRunning(EdgecoreBinaryName)
    case Failure(_) => NodeRun(Some(GetEdgecoreStatusFail), ops, t0)
    case Success(running) =>
      if !running then NodeRun(Some(EdgecoreNotRunning), ops, t0)
      else
        var t1 := t0 + [FileExists(ops.config)];
        if ops.config !in env.existing then NodeRun(Some(EdgeConfigNotExists), ops, t1)
        else
          var t2 := t1 + [ParseConfig(ops.config)];
          match env.parse(ops.config)
          case None => NodeRun(Some(ParseConfigFailed), ops, t2)
          case Some(cfg) =>
            var dataSource := ResolveDataSource(cfg);
            var ops' := ops.(dbPath := dataSource);
            var t3 := t2 + [FileExists(dataSource)];
            if dataSource !in env.existing then NodeRun(Some(DataSourceNotExists), ops', t3)
            else
              var t4 := t3 + [EdgeHubEnabled];
              if !cfg.edgeHubEnable then NodeRun(Some(EdgeHubNotEnabled), ops', t4)
              else
                var url := CloudURL(cfg);
                var t5 := t4 + [HttpProbe(url)];
                if !env.reachable(url) then NodeRun(Some(WebsocketConnectionFailed), ops', t5)
                else NodeRun(None, ops', t5)
  }

  // ---------------------------------------------------------------------
  // The node check as an explicit chain of checks.

  /** The failure of the process step under the given process-table answer. */
  function ProcessFailure(answer: Result<bool, string>): Option<Error>
  {
    match answer
    case Failure(_) => Some(GetEdgecoreStatusFail)
    case Success(running) => if running then None else Some(EdgecoreNotRunning)
  }

  /** The checks that follow a successful parse of `cfg`. */
  function ConfigChecks(env: NodeEnv, cfg: EdgeConfig): seq<Check<Step, Error>>
  {
    var dataSource := ResolveDataSource(cfg);
    [ Check(FileExists(dataSource), if dataSource in env.existing then None else Some(DataSourceNotExists)),
      Check(EdgeHubEnabled, if cfg.edgeHubEnable then None else Some(EdgeHubNotEnabled)),
      Check(HttpProbe(CloudURL(cfg)), if env.reachable(CloudURL(cfg)) then None else Some(WebsocketConnectionFailed)) ]
  }

  /** The node check's planned steps, each with the failure it reports
      under `env`. Steps that need the parsed configuration exist only when
      parsing succeeds. */
  function NodePlan(env: NodeEnv, ops: DiagnoseOptions): seq<Check<Step, Error>>
  {
    [ Check(ProcessQuery(EdgecoreBinaryName), ProcessFailure(env.processRunning(EdgecoreBinaryName))),
      Check(FileExists(ops.config), if ops.config in env.existing then None else Some(EdgeConfigNotExists)),
      Check(ParseConfig(ops.config), if env.parse(ops.config).None? then Some(ParseConfigFailed) else None) ]
    + match env.parse(ops.config)
      case None => []
      case Some(cfg) => ConfigChecks(env, cfg)
  }

  /** The node check is exactly the short-circuiting chain over its plan. */
  lemma NodeIsChain(env: NodeEnv, ops: DiagnoseOptions)
    ensures DiagnoseNode(env, ops).err == RunChain(NodePlan(env, ops)).err
    ensures DiagnoseNode(env, ops).trace == RunChain(NodePlan(env, ops)).trace
  {
    var plan := NodePlan(env, ops);
    var first := ProcessQuery(EdgecoreBinaryName);
    if ProcessFailure(env.processRunning(EdgecoreBinaryName)).Some? {
      assert RunChain(plan) == ChainRun(plan[0].failure, [first]);
    } else {
      assert plan[1..][1..] == plan[2..];
      assert plan[2..][1..] == plan[3..];
      assert RunChain(plan) == ChainRun(RunChain(plan[1..]).err, [first] + RunChain(plan[1..]).trace);
      if ops.config !in env.existing {
        assert RunChain(plan[1..]) == ChainRun(Some(EdgeConfigNotExists), [FileExists(ops.config)]);
      } else {
        assert RunChain(plan[1..]) == ChainRun(RunChain(plan[2..]).err, [FileExists(ops.config)] + RunChain(plan[2..]).trace);
        match env.parse(ops.config)
        case None =>
          assert RunChain(plan[2..]) == ChainRun(Some(ParseConfigFailed), [ParseConfig(ops.config)]);
        case Some(cfg) =>
          var tail := ConfigChecks(env, cfg);
          assert plan[3..] == tail;
          assert RunChain(plan[2..]) == ChainRun(RunChain(tail).err, [ParseConfig(ops.config)] + RunChain(tail).trace);
          ConfigChecksRun(env, ops, cfg);
      }
    }
  }

  /** The chain over the post-parse checks matches the node check's tail. */
  lemma ConfigChecksRun(env: NodeEnv, ops: DiagnoseOptions, cfg: EdgeConfig)
    requires env.processRunning(EdgecoreBinaryName) == Success(true)
    requires ops.config in env.existing && env.parse(ops.config) == Some(cfg)
    ensures var prefix := [ProcessQuery(EdgecoreBinaryName), FileExists(ops.config), ParseConfig(ops.config)];
      && DiagnoseNode(env, ops).err == RunChain(ConfigChecks(env, cfg)).err
      && DiagnoseNode(env, ops).trace == prefix + RunChain(ConfigChecks(env, cfg)).trace
  {
    var tail := ConfigChecks(env, cfg);
    var dataSource := ResolveDataSource(cfg);
    assert tail[1..][1..] == tail[2..];
    assert tail[2..][1..] == [];
    if dataSource !in env.existing {
      assert RunChain(tail) == ChainRun(Some(DataSourceNotExists), [FileExists(dataSource)]);
    } else if !cfg.edgeHubEnable {
      assert RunChain(tail[1..]) == ChainRun(Some(EdgeHubNotEnabled), [EdgeHubEnabled]);
    } else {
      assert RunChain(tail[2..]).trace == [HttpProbe(CloudURL(cfg))];
    }
  }

  /** Steps run in plan order, and a failure is reported by the last step run
      after every earlier step passed. */
  lemma NodeShortCircuits(env: NodeEnv, ops: DiagnoseOptions)
    ensures DiagnoseNode(env, ops).trace == Steps(NodePlan(env, ops))[..|DiagnoseNode(env, ops).trace|]
    ensures DiagnoseNode(env, ops).err.Some? ==>
      var n := |DiagnoseNode(env, ops).trace|;
      && NodePlan(env, ops)[n - 1].failure == DiagnoseNode(env, ops).err
      && PassUpTo(NodePlan(env, ops), n - 1)
  {
    NodeIsChain(env, ops);
    RunChainSpec(NodePlan(env, ops));
  }

  // ---------------------------------------------------------------------
  // Properties of the node check.

  /** Everything the node check needs, stated declaratively. */
  ghost predicate NodeHealthy(env: NodeEnv, ops: DiagnoseOptions)
  {
    && env.processRunning(EdgecoreBinaryName) == Success(true)
    && ops.config in env.existing
    && env.parse(ops.config).Some?
    && var cfg := env.parse(ops.config).value;
       && ResolveDataSource(cfg) in env.existing
       && cfg.edgeHubEnable
       && env.reachable(CloudURL(cfg))
  }

  lemma NodeSucceedsIff(env: NodeEnv, ops: DiagnoseOptions)
    ensures DiagnoseNode(env, ops).err.None? <==> NodeHealthy(env, ops)
  {
  }

  /** A failing or errored process query ends the check before any file is looked at. */
  lemma NodeProcessFirst(env: NodeEnv, ops: DiagnoseOptions)
    requires env.processRunning(EdgecoreBinaryName) != Success(true)
    ensures var run := DiagnoseNode(env, ops);
      && run.err == Some(if env.processRunning(EdgecoreBinaryName).Failure?
                         then GetEdgecoreStatusFail else EdgecoreNotRunning)
      && run.trace == [ProcessQuery(EdgecoreBinaryName)]
      && (forall p :: FileExists(p) !in run.trace)
      && run.ops == ops
  {
  }

  /** With EdgeHub disabled the HTTPS probe never runs. */
  lemma NodeHubDisabledNoProbe(env: NodeEnv, ops: DiagnoseOptions)
    requires env.parse(ops.config).Some? && !env.parse(ops.config).value.edgeHubEnable
    ensures DiagnoseNode(env, ops).err.Some?
    ensures forall u :: HttpProbe(u) !in DiagnoseNode(env, ops).trace
    ensures NodeHealthy(env, ops) == false
    ensures ReachesDataSource(env, ops) && ResolveDataSource(env.parse(ops.config).value) in env.existing ==>
      DiagnoseNode(env, ops).err == Some(EdgeHubNotEnabled)
  {
  }

  /** Whenever the HTTPS probe runs, it targets "https://" followed by the configured server. */
  lemma NodeProbedUrl(env: NodeEnv, ops: DiagnoseOptions, u: string)
    requires HttpProbe(u) in DiagnoseNode(env, ops).trace
    ensures env.parse(ops.config).Some?
    ensures u == "https://" + env.parse(ops.config).value.edgeHubServer
  {
  }

  /** True when the check reaches the data-source step, i.e. the process
      runs and the configuration exists and parses. */
  ghost predicate ReachesDataSource(env: NodeEnv, ops: DiagnoseOptions)
  {
    && env.processRunning(EdgecoreBinaryName) == Success(true)
    && ops.config in env.existing
    && env.parse(ops.config).Some?
  }

  /** `dbPath` becomes the resolved data source exactly when that step is
      reached (even if the file then turns out to be missing) and is left
      alone otherwise. */
  lemma NodeDbPath(env: NodeEnv, ops: DiagnoseOptions)
    ensures ReachesDataSource(env, ops) ==>
      DiagnoseNode(env, ops).ops.dbPath == ResolveDataSource(env.parse(ops.config).value)
    ensures !ReachesDataSource(env, ops) ==> DiagnoseNode(env, ops).ops == ops
    ensures DiagnoseNode(env, ops).err == Some(DataSourceNotExists) ==>
      && ReachesDataSource(env, ops)
      && DiagnoseNode(env, ops).ops.dbPath == ResolveDataSource(env.parse(ops.config).value)
      && DiagnoseNode(env, ops).ops.dbPath !in env.existing
  {
  }
}
