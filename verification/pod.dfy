/**
 * The pod check: resolving a pod's status from the metadata store
 * (`QueryPodFromDatabase`), evaluating its readiness, and the surrounding
 * `DiagnosePod` that opens the store first.
 */
module PodCheck {
  import opened Wrappers
  import opened DiagnoseTypes

  // ---------------------------------------------------------------------
  // Store keys.

  /** Key of the stored pod object. */
  function PodKey(namespace: string, podName: string): (key: string)
    ensures |key| == |namespace| + 5 + |podName|
    ensures key[..|namespace|] == namespace && key[|namespace|..|namespace| + 5] == "/pod/"
    ensures key[|namespace| + 5..] == podName
  {
    namespace + "/pod/" + podName
  }

  /** Key of the dedicated pod-status record. */
  function PodStatusKey(namespace: string, podName: string): (key: string)
    ensures |key| == |namespace| + 11 + |podName|
    ensures key[..|namespace|] == namespace && key[|namespace|..|namespace| + 11] == "/podstatus/"
    ensures key[|namespace| + 11..] == podName
  {
    namespace + "/podstatus/" + podName
  }

  /** The two lookups of one pod never use the same key. */
  lemma KeysDistinct(namespace: string, podName: string)
    ensures PodKey(namespace, podName) != PodStatusKey(namespace, podName)
  {
    var n := |namespace|;
    assert PodKey(namespace, podName)[n + 4] == '/';
    assert PodStatusKey(namespace, podName)[n + 4] == 's';
  }

  // ---------------------------------------------------------------------
  // Status resolution.

  /** Outcome of a lookup: Go's `(*PodStatus, error)` pair, in which a
      status may come back together with an error, plus the steps run. */
  datatype PodLookup = PodLookup(status: Option<PodStatus>, err: Option<Error>, trace: seq<Step>)

  /** The lookup reporting a decode outcome: the attempted value is always
      returned, and the decoder's error with it when there is one. */
  function FromDecoded(d: Decoded, trace: seq<Step>): (r: PodLookup)
    ensures r.status == Some(d.status) && r.trace == trace
    ensures r.err.None? <==> d.err.None?
    ensures d.err.Some? ==> r.err == Some(DecodeFailed(d.err.value))
  {
    match d.err
    case None => PodLookup(Some(d.status), None, trace)
    case Some(cause) => PodLookup(Some(d.status), Some(DecodeFailed(cause)), trace)
  }

  function QueryPodFromDatabase(db: DbEnv, namespace: string, podName: string): (r: PodLookup)
    // A status is missing only together with an error.
    ensures r.status.None? ==> r.err.Some?
    // The pod-object key is always queried first.
    ensures 1 <= |r.trace| <= 3 && r.trace[0] == QueryMeta(PodKey(namespace, podName))
    // The second step, when there is one, queries the pod-status key.
    ensures 2 <= |r.trace| ==> r.trace[1] == QueryMeta(PodStatusKey(namespace, podName))
    // The pod-status key is queried exactly when the pod query found records.
    ensures 2 <= |r.trace| <==>
      var p := db.query(PodKey(namespace, podName)); p.Records? && |p.rows| > 0
    // A status comes back exactly when a record was decoded, as the third step.
    ensures r.status.Some? <==> |r.trace| == 3
    ensures |r.trace| == 3 ==> r.trace[2].DecodePod? || r.trace[2].DecodePodStatus?
    // Only store queries and decodes are performed.
    ensures forall s :: s in r.trace ==> s.QueryMeta? || s.DecodePod? || s.DecodePodStatus?
  {
    var podKey := PodKey(namespace, podName);
    var t0 := [QueryMeta(podKey)];
    match db.query(podKey)
    case QueryError(cause) => PodLookup(None, Some(ReadDatabaseFail(cause)), t0)
    case Records(pods) =>
      if |pods| == 0 then PodLookup(None, Some(NotFoundInDatabase(podKey)), t0)
      else
        var statusKey := PodStatusKey(namespace, podName);
        var t1 := t0 + [QueryMeta(statusKey)];
        match db.query(statusKey)
        case QueryError(cause) => PodLookup(None, Some(ReadDatabaseFail(cause)), t1)
        case Records(statuses) =>
          if |statuses| == 0 then
            FromDecoded(db.decodePod(pods[0]), t1 + [DecodePod(pods[0])])
          else
            FromDecoded(db.decodePodStatus(statuses[0]), t1 + [DecodePodStatus(statuses[0])])
  }

  /** No pod object: not found, and the status record is never queried. */
  lemma PodNotFoundShortCircuits(db: DbEnv, namespace: string, podName: string)
    requires db.query(PodKey(namespace, podName)) == Records([])
    ensures var r := QueryPodFromDatabase(db, namespace, podName);
      && r.err == Some(NotFoundInDatabase(PodKey(namespace, podName)))
      && r.status.None?
      && QueryMeta(PodStatusKey(namespace, podName)) !in r.trace
  {
    KeysDistinct(namespace, podName);
  }

  /** A store error on either query is reported as a database read failure. */
  lemma StoreErrorPropagated(db: DbEnv, namespace: string, podName: string)
    ensures var r := QueryPodFromDatabase(db, namespace, podName);
      var podAnswer := db.query(PodKey(namespace, podName));
      var statusAnswer := db.query(PodStatusKey(namespace, podName));
      && (podAnswer.QueryError? ==>
            r == PodLookup(None, Some(ReadDatabaseFail(podAnswer.cause)), [QueryMeta(PodKey(namespace, podName))]))
      && (podAnswer.Records? && |podAnswer.rows| > 0 && statusAnswer.QueryError? ==>
            && r.status.None? && r.err == Some(ReadDatabaseFail(statusAnswer.cause))
            && r.trace == [QueryMeta(PodKey(namespace, podName)), QueryMeta(PodStatusKey(namespace, podName))])
  {
  }

  /** The dedicated status record, when present, decides the result; the
      pod object is then never decoded. */
  lemma StatusRecordTakesPrecedence(db: DbEnv, namespace: string, podName: string)
    requires var p := db.query(PodKey(namespace, podName)); p.Records? && |p.rows| > 0
    requires var s := db.query(PodStatusKey(namespace, podName)); s.Records? && |s.rows| > 0
    ensures var r := QueryPodFromDatabase(db, namespace, podName);
      var record := db.query(PodStatusKey(namespace, podName)).rows[0];
      && r.status == Some(db.decodePodStatus(record).status)
      && (r.err.None? <==> db.decodePodStatus(record).err.None?)
      && forall x :: DecodePod(x) !in r.trace
  {
  }

  /** Without a status record, the status embedded in the first pod object is used. */
  lemma EmbeddedStatusFallback(db: DbEnv, namespace: string, podName: string)
    requires var p := db.query(PodKey(namespace, podName)); p.Records? && |p.rows| > 0
    requires db.query(PodStatusKey(namespace, podName)) == Records([])
    ensures var r := QueryPodFromDatabase(db, namespace, podName);
      var record := db.query(PodKey(namespace, podName)).rows[0];
      && r.status == Some(db.decodePod(record).status)
      && (r.err.None? <==> db.decodePod(record).err.None?)
  {
  }

  /** The decoder consulted by a decode step. */
  function DecodeAt(db: DbEnv, step: Step): Decoded
    requires step.DecodePod? || step.DecodePodStatus?
  {
    if step.DecodePod? then db.decodePod(step.record) else db.decodePodStatus(step.record)
  }

  /** Whenever a record is decoded, the attempted status is returned, and a
      decode error is returned with it rather than swallowed. */
  lemma DecodeErrorNotSwallowed(db: DbEnv, namespace: string, podName: string)
    ensures var r := QueryPodFromDatabase(db, namespace, podName);
      |r.trace| == 3 ==>
        var d := DecodeAt(db, r.trace[2]);
        && r.status == Some(d.status)
        && (d.err.Some? ==> r.err == Some(DecodeFailed(d.err.value)))
        && (d.err.None? ==> r.err.None?)
  {
  }

  // ---------------------------------------------------------------------
  // Readiness.

  predicate IsReadyTrue(c: PodCondition)
  {
    c.kind == "Ready" && c.status == "True"
  }

  /** The phase test: it can only clear the flag, never set it. */
  function PhaseCheck(phase: string, ready: bool): (r: bool)
    ensures r ==> ready
    ensures phase != RunningPhase ==> !r
    ensures phase == RunningPhase ==> r == ready
  {
    if phase != RunningPhase then false else ready
  }

  /** The loop over conditions: a Ready/True condition sets the flag and
      nothing clears it. */
  function ConditionsFold(conditions: seq<PodCondition>, ready: bool): (r: bool)
    // Once set, the flag stays set.
    ensures ready ==> r
    decreases |conditions|
  {
    if conditions == [] then ready
    else ConditionsFold(conditions[1..], ready || IsReadyTrue(conditions[0]))
  }

  /** Some condition is Ready with status True. */
  ghost predicate HasReadyTrue(conditions: seq<PodCondition>)
  {
    exists i :: 0 <= i < |conditions| && IsReadyTrue(conditions[i])
  }

  lemma {:induction false} ConditionsFoldSpec(conditions: seq<PodCondition>, ready: bool)
    ensures ConditionsFold(conditions, ready) <==> ready || HasReadyTrue(conditions)
    decreases |conditions|
  {
    if conditions != [] {
      var rest := conditions[1..];
      ConditionsFoldSpec(rest, ready || IsReadyTrue(conditions[0]));
      if HasReadyTrue(rest) {
        var i :| 0 <= i < |rest| && IsReadyTrue(rest[i]);
        assert IsReadyTrue(conditions[i + 1]);
      }
      if HasReadyTrue(conditions) && !IsReadyTrue(conditions[0]) {
        var i :| 0 <= i < |conditions| && IsReadyTrue(conditions[i]);
        assert IsReadyTrue(rest[i - 1]);
      }
    }
  }

  /** The readiness verdict: the flag starts false, the phase test runs, then the condition loop. */
  function Readiness(status: PodStatus): (ready: bool)
    ensures ready <==> HasReadyTrue(status.conditions)
  {
    ConditionsFoldSpec(status.conditions, PhaseCheck(status.phase, false));
    ConditionsFold(status.conditions, PhaseCheck(status.phase, false))
  }

  /** Neither the phase nor the container statuses affect the verdict. */
  lemma ReadinessIgnoresPhaseAndContainers(status: PodStatus, phase: string, containers: seq<ContainerStatus>)
    ensures Readiness(status.(phase := phase, containerStatuses := containers)) == Readiness(status)
  {
  }

  // ---------------------------------------------------------------------
  // Diagnostic report of a resolved status.

  /** How one container is reported. */
  datatype ContainerReport =
    | ContainerWaiting(name: string, detail: StateDetail, restartCount: int)
    | ContainerTerminated(name: string, detail: StateDetail, restartCount: int)
    | ContainerNotReady(name: string)
    | ContainerReady(name: string)

  function ClassifyContainer(c: ContainerStatus): (r: ContainerReport)
    ensures r.name == c.name
    ensures r.ContainerReady? <==> c.ready
    ensures r.ContainerWaiting? <==> !c.ready && c.state.waiting.Some?
    ensures r.ContainerTerminated? ==> !c.ready && c.state.terminated.Some?
    ensures r.ContainerNotReady? ==> c.state.waiting.None? && c.state.terminated.None?
    // A waiting or terminated container is reported with its own reason, message and restart count.
    ensures r.ContainerWaiting? ==> r.detail == c.state.waiting.value && r.restartCount == c.restartCount
    ensures r.ContainerTerminated? ==> r.detail == c.state.terminated.value && r.restartCount == c.restartCount
  {
    if !c.ready then
      match c.state.waiting
      case Some(w) => ContainerWaiting(c.name, w, c.restartCount)
      case None =>
        match c.state.terminated
        case Some(t) => ContainerTerminated(c.name, t, c.restartCount)
        case None => ContainerNotReady(c.name)
    else ContainerReady(c.name)
  }

  /** The conditions whose status is not "True", in their original order. */
  function NotTrueConditions(conditions: seq<PodCondition>): (r: seq<PodCondition>)
    ensures |r| <= |conditions|
    ensures forall c :: c in r <==> c in conditions && c.status != "True"
  {
    if conditions == [] then []
    else
      var rest := NotTrueConditions(conditions[1..]);
      assert forall c :: c in conditions <==> c == conditions[0] || c in conditions[1..];
      if conditions[0].status != "True" then [conditions[0]] + rest else rest
  }

  /** A single condition is reported exactly when its status is not "True". */
  lemma NotTrueConditionsSingle(c: PodCondition)
    ensures c.status != "True" ==> NotTrueConditions([c]) == [c]
    ensures c.status == "True" ==> NotTrueConditions([c]) == []
  {
    assert [c][1..] == [];
  }

  /** The report of a concatenation is the concatenation of the reports:
      together with the single-condition case, the reported list is the
      order-preserving filter of the conditions. */
  lemma {:induction false} NotTrueConditionsAppend(a: seq<PodCondition>, b: seq<PodCondition>)
    ensures NotTrueConditions(a + b) == NotTrueConditions(a) + NotTrueConditions(b)
    decreases |a|
  {
    if a == [] {
      assert a + b == b;
    } else {
      assert (a + b)[0] == a[0];
      assert (a + b)[1..] == a[1..] + b;
      NotTrueConditionsAppend(a[1..], b);
    }
  }

  /** What the pod check prints about a resolved status, and its verdict. */
  datatype PodReport = PodReport(
    phase: string,
    notTrue: seq<PodCondition>,
    containers: seq<ContainerReport>,
    ready: bool)

  function Report(status: PodStatus): (r: PodReport)
    ensures r.phase == status.phase
    ensures |r.containers| == |status.containerStatuses|
    ensures forall i :: 0 <= i < |r.containers| ==>
      r.containers[i] == ClassifyContainer(status.containerStatuses[i])
    ensures r.ready <==> HasReadyTrue(status.conditions)
    // The non-True conditions are reported, in order, once per occurrence.
    ensures r.notTrue == NotTrueConditions(status.conditions)
  {
    PodReport(
      status.phase,
      NotTrueConditions(status.conditions),
      seq(|status.containerStatuses|, i requires 0 <= i < |status.containerStatuses| =>
        ClassifyContainer(status.containerStatuses[i])),
      Readiness(status))
  }

  // ---------------------------------------------------------------------
  // The pod check.

  /** Outcome of the pod check: error, options after the `dbPath` default,
      the report when a status was resolved cleanly, and the steps run. */
  datatype PodRun = PodRun(err: Option<Error>, ops: DiagnoseOptions, report: Option<PodReport>, trace: seq<Step>)

  /** The store path the pod check opens. */
  function DatabasePath(ops: DiagnoseOptions): (path: string)
    ensures path != ""
    ensures ops.dbPath != "" ==> path == ops.dbPath
    ensures ops.dbPath == "" ==> path == DefaultDataSource
  {
    if ops.dbPath == "" then DefaultDataSource else ops.dbPath
  }

  function DiagnosePod(db: DbEnv, ops: DiagnoseOptions, podName: string): (run: PodRun)
    // The store is opened first, at the recorded data source or the default.
    ensures 1 <= |run.trace| && run.trace[0] == InitDatabase(DatabasePath(ops))
    ensures run.ops == ops.(dbPath := DatabasePath(ops))
    ensures forall s :: s in run.trace[1..] ==> s.QueryMeta? || s.DecodePod? || s.DecodePodStatus?
    // Success means a clean lookup whose status has a Ready/True condition.
    ensures run.err.None? <==>
      && db.initDB(DatabasePath(ops)).None?
      && var r := QueryPodFromDatabase(db, ops.namespace, podName);
         r.err.None? && HasReadyTrue(r.status.value.conditions)
    // A report exists exactly when the lookup succeeded; otherwise the failure is reported as is.
    ensures run.report.Some? ==> run.report.value.ready == run.err.None?
    ensures run.err.Some? && run.report.Some? ==> run.err == Some(PodNotReady(podName))
    // Once the store is open, the lookup's steps follow, in order.
    ensures db.initDB(DatabasePath(ops)).None? ==>
      run.trace == [InitDatabase(DatabasePath(ops))] + QueryPodFromDatabase(db, ops.namespace, podName).trace
    // A store that cannot be opened is the result, and nothing is queried.
    ensures db.initDB(DatabasePath(ops)).Some? ==>
      && run.err == Some(InitDatabaseFailed(db.initDB(DatabasePath(ops)).value))
      && run.trace == [InitDatabase(DatabasePath(ops))]
    // A cleanly resolved status is always reported; if it is not ready the
    // check fails with "pod <name> is not Ready".
    ensures db.initDB(DatabasePath(ops)).None? && QueryPodFromDatabase(db, ops.namespace, podName).err.None? ==>
      && run.report == Some(Report(QueryPodFromDatabase(db, ops.namespace, podName).status.value))
      && (run.err.Some? ==> run.err == Some(PodNotReady(podName)))
  {
    var path := DatabasePath(ops);
    var ops' := ops.(dbPath := path);
    var t0 := [InitDatabase(path)];
    match db.initDB(path)
    case Some(cause) => PodRun(Some(InitDatabaseFailed(cause)), ops', None, t0)
    case None =>
      var lookup := QueryPodFromDatabase(db, ops.namespace, podName);
      var t1 := t0 + lookup.trace;
      if lookup.err.Some? then PodRun(lookup.err, ops', None, t1)
      else
        var report := Report(lookup.status.value);
        if report.ready then PodRun(None, ops', Some(report), t1)
        else PodRun(Some(PodNotReady(podName)), ops', Some(report), t1)
  }

  /** A lookup error, including a decode error that came with a partial
      status, is the pod check's result; the partial status is not evaluated. */
  lemma PodLookupErrorIsResult(db: DbEnv, ops: DiagnoseOptions, podName: string)
    requires db.initDB(DatabasePath(ops)).None?
    requires QueryPodFromDatabase(db, ops.namespace, podName).err.Some?
    ensures DiagnosePod(db, ops, podName).err == QueryPodFromDatabase(db, ops.namespace, podName).err
    ensures DiagnosePod(db, ops, podName).report.None?
  {
  }
}
