# Edge-node `diagnose` command — verified model

This project models the decision logic of the edge-node `keadm debug diagnose`
command of KubeEdge: the dispatcher that picks a chain of checks for the
`node`, `pod` or `install` target, the node health check, the pod status
resolver that reads the local metadata store, the readiness verdict, and the
installation readiness check. Every side-effecting collaborator is an oracle
value in an environment datatype (`DiagnoseTypes.NodeEnv`, `DbEnv`,
`InstallEnv`): the process-table query, the set of existing files, the
configuration parser, the HTTPS probe, opening the store, the key query, the
two JSON decoders and the six install probes. Every run returns the steps it
performed, in order, so ordering and short-circuit properties are statements
about that trace.

Modules:

- `Wrappers` — `Option` and `Result`.
- `DiagnoseTypes` — options, configuration, pod status, steps, errors and the collaborator oracles.
- `Chain` — a generic strictly ordered, short-circuiting chain of checks (`RunChain`). It is the reference definition: the node and install checks are written as the source writes them and then proved equal to a chain over an explicit plan.
- `NodeCheck` — `DiagnoseNode` and its properties.
- `PodCheck` — store keys, `QueryPodFromDatabase`, the readiness verdict, the report of conditions and containers, and `DiagnosePod`.
- `InstallCheck` — `DiagnoseInstall` and its properties.
- `Dispatch` — `ExecuteDiagnose` and the cross-chain properties.

Three points where the code behaves differently from what a reader might expect; the model follows the code:

- Readiness. The phase test suggests a pod must be `Running` and have a `Ready`/`True` condition to be ready. In the code the flag starts false, the phase test can only write false, and the condition loop sets it true on any `Ready`/`True` condition. So the verdict is decided by the conditions alone (`PodCheck.Readiness`, `PodCheck.ReadinessIgnoresPhaseAndContainers`). A `Pending` pod with a `Ready`/`True` condition is therefore reported ready.
- Decode errors. On a decode error the code does not return a zero-value status. It returns whatever status the decoder produced, which may be partial. The decoder oracle supplies that value.
- Unknown targets. A target name other than the three falls through the dispatcher's switch with no error, so the pass banner is printed (`Dispatch.ExecuteDiagnose`, case `OtherTarget`).

## Model

| member | source | states |
|---|---|---|
| DiagnoseTypes.NewDiagnoseOptions | keadm/cmd/keadm/app/cmd/debug/diagnose.go:79-89 | fresh options use namespace "default", the default config path, IP "" and timeout 3; every other field is empty |
| DiagnoseTypes.Message | keadm/cmd/keadm/app/cmd/debug/diagnose.go:98-235 | the text printed for each error; decoder and install-probe errors are printed verbatim, and store causes, keys and pod names appear in the text unchanged |
| DiagnoseTypes.NodeMessagesDistinct | keadm/cmd/keadm/app/cmd/debug/diagnose.go:121-162 | the seven node-check failures print pairwise different texts, so the message names the failing step |
| Dispatch.ExecuteDiagnose | keadm/cmd/keadm/app/cmd/debug/diagnose.go:91-116 | no banner exactly for a pod target without a name; otherwise the pass banner exactly when no error was returned; only `dbPath` of the options can change |
| Dispatch.PodWithoutNameRunsNothing | keadm/cmd/keadm/app/cmd/debug/diagnose.go:96-100 | a pod target without a pod name reports the usage error, performs no step, prints no banner and leaves the options alone |
| Dispatch.UnknownTargetPasses | keadm/cmd/keadm/app/cmd/debug/diagnose.go:93-116 | a target name outside node, pod and install runs no step, reports no error and prints the pass banner |
| Dispatch.PodAfterHealthyNode | keadm/cmd/keadm/app/cmd/debug/diagnose.go:101-105 | the pod check runs only after the node check passed; a node failure is the reported result, with the node check's options, and no store step happens |
| Dispatch.SingleChainTargets | keadm/cmd/keadm/app/cmd/debug/diagnose.go:93-108 | node and install targets run exactly their own chain; the node target returns the node check's options; an install probe's error text is reported unchanged |
| Dispatch.BannerFor | keadm/cmd/keadm/app/cmd/debug/diagnose.go:110-115 | a banner is always printed once a chain ran, and it is the pass banner exactly when there is no error |
| Dispatch.InstallError | keadm/cmd/keadm/app/cmd/debug/diagnose.go:107-111 | an install probe error is carried to the printed message verbatim, and no error stays no error |
| Dispatch.DatabaseOpenedIsVerified | keadm/cmd/keadm/app/cmd/debug/diagnose.go:142-173 | a pod diagnosis opens the store only at the data source the node check resolved from the configuration and found on disk |
| NodeCheck.DiagnoseNode | keadm/cmd/keadm/app/cmd/debug/diagnose.go:118-166 | the process table is queried first; only `dbPath` changes; on success the recorded data source exists and its existence check was performed; no store or install step is run |
| NodeCheck.ResolveDataSource | keadm/cmd/keadm/app/cmd/debug/diagnose.go:141-145 | the data source is the configured one when non-empty, else the built-in default; never empty |
| NodeCheck.CloudURL | keadm/cmd/keadm/app/cmd/debug/diagnose.go:158-159 | the probed URL is "https://" followed by the configured EdgeHub server, nothing else |
| NodeCheck.NodeIsChain | keadm/cmd/keadm/app/cmd/debug/diagnose.go:118-166 | the node check equals the short-circuiting chain over its plan: process, config exists, config parses, data source exists, EdgeHub enabled, HTTPS probe |
| NodeCheck.ConfigChecksRun | keadm/cmd/keadm/app/cmd/debug/diagnose.go:141-165 | after a successful parse, the rest of the node check is the chain over data source, EdgeHub switch and HTTPS probe |
| NodeCheck.NodeShortCircuits | keadm/cmd/keadm/app/cmd/debug/diagnose.go:118-166 | steps run in plan order; a failure comes from the last step run and every earlier step passed |
| NodeCheck.NodeSucceedsIff | keadm/cmd/keadm/app/cmd/debug/diagnose.go:118-166 | the node check succeeds exactly when the process runs, the config exists and parses, the data source exists, EdgeHub is enabled and the cloud URL is reachable |
| NodeCheck.NodeProcessFirst | keadm/cmd/keadm/app/cmd/debug/diagnose.go:119-127 | a process-query error or a stopped agent fails with its own error before any file-existence check, and the options are unchanged |
| NodeCheck.NodeHubDisabledNoProbe | keadm/cmd/keadm/app/cmd/debug/diagnose.go:153-156 | with EdgeHub disabled the check fails and no HTTPS probe is made; when every earlier step passed the error is "edgehub is not enable" |
| NodeCheck.NodeProbedUrl | keadm/cmd/keadm/app/cmd/debug/diagnose.go:158-159 | the probed URL is exactly "https://" followed by the configured EdgeHub server |
| NodeCheck.NodeDbPath | keadm/cmd/keadm/app/cmd/debug/diagnose.go:141-150 | `dbPath` becomes the resolved data source exactly when that step is reached, also when the file is then missing; otherwise the options are untouched |
| PodCheck.PodKey | keadm/cmd/keadm/app/cmd/debug/diagnose.go:227-229 | the pod key is the namespace, then "/pod/", then the pod name |
| PodCheck.PodStatusKey | keadm/cmd/keadm/app/cmd/debug/diagnose.go:239-241 | the pod-status key is the namespace, then "/podstatus/", then the pod name |
| PodCheck.KeysDistinct | keadm/cmd/keadm/app/cmd/debug/diagnose.go:227-241 | the pod key and the pod-status key of one pod always differ |
| PodCheck.FromDecoded | keadm/cmd/keadm/app/cmd/debug/diagnose.go:250-254 | a decode returns the attempted status, with the decoder's error exactly when there is one |
| PodCheck.QueryPodFromDatabase | keadm/cmd/keadm/app/cmd/debug/diagnose.go:226-265 | the pod key is queried first, and the pod-status key second exactly when the pod query found records; a status is missing only together with an error; a status comes back exactly when a record was decoded |
| PodCheck.PodNotFoundShortCircuits | keadm/cmd/keadm/app/cmd/debug/diagnose.go:234-236 | zero pod records give a not-found error naming the pod key, no status, and the pod-status key is never queried |
| PodCheck.StoreErrorPropagated | keadm/cmd/keadm/app/cmd/debug/diagnose.go:230-245 | a store error on either query becomes a database read failure carrying the store's cause, with no status; a failed pod-status query still appears in the trace after the pod query |
| PodCheck.StatusRecordTakesPrecedence | keadm/cmd/keadm/app/cmd/debug/diagnose.go:256-264 | when a pod-status record exists, the result is decoded from the first one and the pod object is never decoded |
| PodCheck.EmbeddedStatusFallback | keadm/cmd/keadm/app/cmd/debug/diagnose.go:246-255 | without a pod-status record, the result is the status embedded in the first pod record |
| PodCheck.DecodeErrorNotSwallowed | keadm/cmd/keadm/app/cmd/debug/diagnose.go:248-264 | whenever a record is decoded, the attempted status is returned and a decode error is returned with it |
| PodCheck.PhaseCheck | keadm/cmd/keadm/app/cmd/debug/diagnose.go:184-186 | the phase test clears the ready flag for any phase other than Running and leaves it unchanged for Running; it never sets it |
| PodCheck.ConditionsFold | keadm/cmd/keadm/app/cmd/debug/diagnose.go:192-200 | the condition loop never clears the ready flag once it is set |
| PodCheck.Readiness | keadm/cmd/keadm/app/cmd/debug/diagnose.go:169-200 | the verdict (flag starts false, phase test, condition loop) is true exactly when some condition is Ready/True |
| PodCheck.ConditionsFoldSpec | keadm/cmd/keadm/app/cmd/debug/diagnose.go:192-200 | the condition loop ends with the flag set exactly when it started set or some condition is Ready/True |
| PodCheck.ReadinessIgnoresPhaseAndContainers | keadm/cmd/keadm/app/cmd/debug/diagnose.go:183-216 | changing the phase or the container statuses never changes the verdict |
| PodCheck.ClassifyContainer | keadm/cmd/keadm/app/cmd/debug/diagnose.go:202-215 | a container is reported ready exactly when it is ready; a not-ready one is waiting if it has a waiting state, else terminated if terminated, else plainly not ready; waiting and terminated reports carry that state's reason and message and the container's restart count |
| PodCheck.NotTrueConditions | keadm/cmd/keadm/app/cmd/debug/diagnose.go:196-199 | the reported conditions are among the input and are exactly those whose status is not True |
| PodCheck.NotTrueConditionsSingle | keadm/cmd/keadm/app/cmd/debug/diagnose.go:196-199 | one condition is reported exactly when its status is not True |
| PodCheck.NotTrueConditionsAppend | keadm/cmd/keadm/app/cmd/debug/diagnose.go:192-200 | the report of a concatenation is the concatenation of the reports, so the reported list keeps the loop's order and one entry per occurrence |
| PodCheck.Report | keadm/cmd/keadm/app/cmd/debug/diagnose.go:183-216 | every container is reported, in order, with its classification; the non-True conditions are reported in order; the verdict is ready exactly when some condition is Ready/True |
| PodCheck.DatabasePath | keadm/cmd/keadm/app/cmd/debug/diagnose.go:170-172 | the store is opened at the recorded data source, or at the built-in default when none was recorded; never at "" |
| PodCheck.DiagnosePod | keadm/cmd/keadm/app/cmd/debug/diagnose.go:168-224 | the store is opened first and the lookup's steps follow in order; a store that cannot be opened is the result and nothing is queried; the check succeeds exactly when the store opens, the lookup has no error and some condition is Ready/True; a cleanly resolved status is always reported, and an unready one fails with "pod … is not Ready" |
| PodCheck.PodLookupErrorIsResult | keadm/cmd/keadm/app/cmd/debug/diagnose.go:178-181 | a lookup error, including a decode error returned with a partial status, is the pod check's result and the partial status is not evaluated |
| InstallCheck.DiagnoseInstall | keadm/cmd/keadm/app/cmd/debug/diagnose.go:267-290 | the CPU probe runs first, at most six probes run, and the DNS probe runs only for a non-empty domain |
| InstallCheck.InstallIsChain | keadm/cmd/keadm/app/cmd/debug/diagnose.go:267-290 | the install check equals the short-circuiting chain over CPU, memory, disk, DNS (with a domain), network, PID |
| InstallCheck.LaterChecksRun | keadm/cmd/keadm/app/cmd/debug/diagnose.go:277-289 | once the resource probes pass, the check continues as the chain over DNS (with a domain), network and PID |
| InstallCheck.InstallFirstFailure | keadm/cmd/keadm/app/cmd/debug/diagnose.go:267-290 | probes run in canonical order; the first failing probe's error is returned unchanged and nothing after it runs; success means every probe passed and all ran |
| InstallCheck.InstallCpuFailureStops | keadm/cmd/keadm/app/cmd/debug/diagnose.go:268-270 | a failing CPU probe is the result and no other probe runs |
| InstallCheck.InstallDnsRunsForDomain | keadm/cmd/keadm/app/cmd/debug/diagnose.go:277-281 | with a domain and passing resource probes, the fourth probe is DNS for that domain and DNS server |
| Chain.RunChainSpec | keadm/cmd/keadm/app/cmd/debug/diagnose.go:118-166 | the early-return pattern shared by the chains: the trace is a prefix of the plan, success exactly when every check passes, a failure is the first failing check's |

## Left out

- Command wiring and flag registration (`NewDiagnose`, `NewSubDiagnose`): command-line plumbing; the subcommand registry is iterated in Go map order.
- The subcommand names (`common.ArgDiagnoseNode` and siblings): their values live in a package that is not part of this model, so targets are the datatype `Dispatch.Target`.
- Console text: the success lines, `util.PrintFail` and `util.PrintSucceed` are modelled only as the banner kind, the error's message (`DiagnoseTypes.Message`) and the pod report.
- The process-table query, `files.FileExists`, `util.ParseEdgecoreConfig`, `InitDB` and the ORM behind `dao.QueryMeta`: I/O and foreign calls, given as oracles. `InitDB` is modelled as one call per invocation; its reuse of an already open connection is not modelled.
- JSON decoding and the Kubernetes pod schema beyond phase, conditions and container statuses (waiting and terminated state): decoding is an oracle returning a status and an optional error.
- `CheckHTTP` with its TLS and timeout behaviour, and the bodies of `CheckCPU`, `CheckMemory`, `CheckDisk`, `CheckDNSSpecify`, `CheckNetWork` and `CheckPid`: network and system I/O, given as oracles.
- The default paths and binary name (`constants.EdgecoreConfigPath`, `constants.KubeEdgeBinaryName`, `v1alpha2.DataBaseDataSource`): their defining packages are not part of this model; the constants carry the upstream values, and no property depends on them beyond the data-source default being non-empty.
