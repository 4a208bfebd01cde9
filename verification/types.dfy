/**
 * Data model of the edge-node `diagnose` command: options, the parts of the
 * edge agent configuration and of a pod's status that the command reads, the
 * error kinds it reports, the steps it performs, and the oracles that stand in
 * for every side-effecting collaborator.
 */
module DiagnoseTypes {
  import opened Wrappers

  // ---------------------------------------------------------------------
  // Well-known constants of the edge agent.

  /** Name of the edge agent binary looked up in the process table. */
  const EdgecoreBinaryName: string := "edgecore"
  /** Default location of the edge agent configuration file. */
  const EdgecoreConfigPath: string := "/etc/kubeedge/config/edgecore.yaml"
  /** Built-in data source (metadata store file) used when the config declares none. */
  const DefaultDataSource: string := "/var/lib/kubeedge/edgecore.db"
  /** Namespace used by `diagnose pod` when `-n` is not given. */
  const DefaultNamespace: string := "default"
  /** Default timeout, in seconds, handed to the install network probe. */
  const DefaultTimeout: int := 3
  /** The only pod phase the readiness evaluation compares against. */
  const RunningPhase: string := "Running"

  // ---------------------------------------------------------------------
  // Options.

  /** Parameters of the installation probes (`diagnose install` flags). */
  datatype CheckOptions = CheckOptions(
    dnsIP: string,
    domain: string,
    ip: string,
    cloudHubServer: string,
    edgecoreServer: string,
    config: string,
    timeout: int)

  /** The option bundle shared by all diagnose targets. `dbPath` is the only
      field written after construction: the node check fills it in. */
  datatype DiagnoseOptions = DiagnoseOptions(
    namespace: string,
    config: string,
    dbPath: string,
    checkOptions: CheckOptions)

  /** Options as constructed before any flag is parsed. */
  function NewDiagnoseOptions(): (o: DiagnoseOptions)
    ensures o.namespace == DefaultNamespace && o.config == EdgecoreConfigPath
    ensures o.dbPath == ""
    ensures o.checkOptions.ip == "" && o.checkOptions.timeout == DefaultTimeout
    ensures o.checkOptions.domain == "" && o.checkOptions.dnsIP == ""
    ensures o.checkOptions.cloudHubServer == "" && o.checkOptions.edgecoreServer == ""
    ensures o.checkOptions.config == ""
  {
    DiagnoseOptions(
      DefaultNamespace,
      EdgecoreConfigPath,
      "",
      CheckOptions("", "", "", "", "", "", DefaultTimeout))
  }

  // ---------------------------------------------------------------------
  // Edge agent configuration: only the fields the node check reads.

  datatype EdgeConfig = EdgeConfig(
    dataSource: string,       // DataBase.DataSource
    edgeHubEnable: bool,      // Modules.EdgeHub.WebSocket.Enable
    edgeHubServer: string)    // Modules.EdgeHub.WebSocket.Server

  // ---------------------------------------------------------------------
  // Pod status: phase, conditions and container statuses.

  datatype PodCondition = PodCondition(kind: string, status: string, reason: string, message: string)

  /** Reason and message of a waiting or terminated container. */
  datatype StateDetail = StateDetail(reason: string, message: string)

  /** A container's state; at most the waiting and terminated parts are read,
      and waiting is inspected first. */
  datatype ContainerState = ContainerState(waiting: Option<StateDetail>, terminated: Option<StateDetail>)

  datatype ContainerStatus = ContainerStatus(name: string, ready: bool, restartCount: int, state: ContainerState)

  datatype PodStatus = PodStatus(
    phase: string,
    conditions: seq<PodCondition>,
    containerStatuses: seq<ContainerStatus>)

  // ---------------------------------------------------------------------
  // Steps: every collaborator call, plus the EdgeHub switch test, in the
  // order a run performs them.

  datatype Step =
    | ProcessQuery(binary: string)
    | FileExists(path: string)
    | ParseConfig(path: string)
    | EdgeHubEnabled
    | HttpProbe(url: string)
    | InitDatabase(path: string)
    | QueryMeta(key: string)
    | DecodePod(record: string)
    | DecodePodStatus(record: string)
    | CheckCPU
    | CheckMemory
    | CheckDisk
    | CheckDNS(domain: string, dnsIP: string)
    | CheckNetwork(ip: string, timeout: int, cloudHubServer: string, edgecoreServer: string, config: string)
    | CheckPid

  // ---------------------------------------------------------------------
  // Errors, one constructor per error the command can report.

  datatype Error =
    | GetEdgecoreStatusFail
    | EdgecoreNotRunning
    | EdgeConfigNotExists
    | ParseConfigFailed
    | DataSourceNotExists
    | EdgeHubNotEnabled
    | WebsocketConnectionFailed
    | MissingPodName
    | InitDatabaseFailed(cause: string)
    | ReadDatabaseFail(cause: string)
    | NotFoundInDatabase(key: string)
    | DecodeFailed(cause: string)        // the decoder's own error, unchanged
    | PodNotReady(podName: string)
    | ProbeFailed(cause: string)         // an install probe's own error, unchanged

  /** The text printed for an error. */
  function Message(e: Error): (m: string)
    // The decoder's and the install probes' errors are printed verbatim.
    ensures e.DecodeFailed? || e.ProbeFailed? ==> m == e.cause
    // The other causes, keys and pod names appear in the text unchanged.
    ensures e.ReadDatabaseFail? ==> |m| >= |e.cause| && m[|m| - |e.cause|..] == e.cause
    ensures e.InitDatabaseFailed? ==> |m| > |e.cause| && m[|m| - |e.cause| - 1..|m| - 1] == e.cause
    ensures e.NotFoundInDatabase? ==> |m| >= 9 + |e.key| && m[9..9 + |e.key|] == e.key
    ensures e.PodNotReady? ==> |m| >= 4 + |e.podName| && m[4..4 + |e.podName|] == e.podName
  {
    match e
    case GetEdgecoreStatusFail => "get edgecore status fail"
    case EdgecoreNotRunning => "edgecore is not running"
    case EdgeConfigNotExists => "edge config is not exists"
    case ParseConfigFailed => "parse edgecore config failed"
    case DataSourceNotExists => "dataSource is not exists"
    case EdgeHubNotEnabled => "edgehub is not enable"
    case WebsocketConnectionFailed => "cloudcore websocket connection failed"
    case MissingPodName => "error: You must specify a pod name"
    case InitDatabaseFailed(c) => "failed to initialize database: " + c + " "
    case ReadDatabaseFail(c) => "read database fail: " + c
    case NotFoundInDatabase(k) => "not find " + k + " in datebase"
    case DecodeFailed(c) => c
    case PodNotReady(n) => "pod " + n + " is not Ready"
    case ProbeFailed(c) => c
  }

  /** The errors the node check can report. */
  predicate IsNodeError(e: Error)
  {
    e.GetEdgecoreStatusFail? || e.EdgecoreNotRunning? || e.EdgeConfigNotExists? || e.ParseConfigFailed?
    || e.DataSourceNotExists? || e.EdgeHubNotEnabled? || e.WebsocketConnectionFailed?
  }

  /** Each failing node step prints its own text, so the message names the step. */
  lemma NodeMessagesDistinct(e1: Error, e2: Error)
    requires IsNodeError(e1) && IsNodeError(e2) && e1 != e2
    ensures Message(e1) != Message(e2)
  {
  }

  // ---------------------------------------------------------------------
  // Oracles for the collaborators.

  /** Outcome of decoding one stored record: the status value the decoder
      produced (possibly partial) and the decoder's error, if any. */
  datatype Decoded = Decoded(status: PodStatus, err: Option<string>)

  /** Outcome of one metadata-store query by key. */
  datatype QueryResult = Records(rows: seq<string>) | QueryError(cause: string)

  /** Collaborators of the node check: the process-table query (by binary
      name), the set of existing files, the configuration parser (`None` on a
      parse error) and the HTTPS reachability probe (true when it succeeds). */
  datatype NodeEnv = NodeEnv(
    processRunning: string -> Result<bool, string>,
    existing: set<string>,
    parse: string -> Option<EdgeConfig>,
    reachable: string -> bool)

  /** Collaborators of the pod check: opening the store at a path (`Some` is
      the open error), the key query, and the two JSON decoders. */
  datatype DbEnv = DbEnv(
    initDB: string -> Option<string>,
    query: string -> QueryResult,
    decodePod: string -> Decoded,
    decodePodStatus: string -> Decoded)

  /** Collaborators of the install check: each probe's error, if any. */
  datatype InstallEnv = InstallEnv(
    cpu: Option<string>,
    memory: Option<string>,
    disk: Option<string>,
    dns: (string, string) -> Option<string>,
    network: (string, int, string, string, string) -> Option<string>,
    pid: Option<string>)

  datatype Env = Env(node: NodeEnv, db: DbEnv, install: InstallEnv)
}
