/**
 * The installation readiness check (`DiagnoseInstall`): CPU, memory and disk
 * probes, a DNS probe only when a domain is given, then the network and PID
 * probes. The first probe error is returned unchanged.
 */
module InstallCheck {
  import opened Wrappers
  import opened DiagnoseTypes
  import opened Chain

  /** Outcome of the install check: the first probe error and the probes run. */
  type InstallRun = ChainRun<Step, string>

  function DnsStep(ob: CheckOptions): Step
  {
    CheckDNS(ob.domain, ob.dnsIP)
  }

  function NetworkStep(ob: CheckOptions): Step
  {
    CheckNetwork(ob.ip, ob.timeout, ob.cloudHubServer, ob.edgecoreServer, ob.config)
  }

  function DiagnoseInstall(ob: CheckOptions, env: InstallEnv): (run: InstallRun)
    ensures 1 <= |run.trace| <= 6 && run.trace[0] == CheckCPU
    // The DNS probe runs only for a given domain.
    ensures DnsStep(ob) in run.trace ==> ob.domain != ""
  {
    if env.cpu.Some? then ChainRun(env.cpu, [CheckCPU])
    else if env.memory.Some? then ChainRun(env.memory, [CheckCPU, CheckMemory])
    else if env.disk.Some? then ChainRun(env.disk, [CheckCPU, CheckMemory, CheckDisk])
    else
      var t := [CheckCPU, CheckMemory, CheckDisk];
      var dnsErr := if ob.domain != "" then env.dns(ob.domain, ob.dnsIP) else None;
      var t' := if ob.domain != "" then t + [DnsStep(ob)] else t;
      if dnsErr.Some? then ChainRun(dnsErr, t')
      else
        var netErr := env.network(ob.ip, ob.timeout, ob.cloudHubServer, ob.edgecoreServer, ob.config);
        if netErr.Some? then ChainRun(netErr, t' + [NetworkStep(ob)])
        else ChainRun(env.pid, t' + [NetworkStep(ob), CheckPid])
  }

  /** The install probes in canonical order, each with its error under `env`. */
  function InstallPlan(ob: CheckOptions, env: InstallEnv): seq<Check<Step, string>>
  {
    [Check(CheckCPU, env.cpu), Check(CheckMemory, env.memory), Check(CheckDisk, env.disk)]
    + (if ob.domain != "" then [Check(DnsStep(ob), env.dns(ob.domain, ob.dnsIP))] else [])
    + [ Check(NetworkStep(ob), env.network(ob.ip, ob.timeout, ob.cloudHubServer, ob.edgecoreServer, ob.config)),
        Check(CheckPid, env.pid) ]
  }

  /** The probes that follow the three resource probes. */
  function LaterChecks(ob: CheckOptions, env: InstallEnv): seq<Check<Step, string>>
  {
    (if ob.domain != "" then [Check(DnsStep(ob), env.dns(ob.domain, ob.dnsIP))] else [])
    + [ Check(NetworkStep(ob), env.network(ob.ip, ob.timeout, ob.cloudHubServer, ob.edgecoreServer, ob.config)),
        Check(CheckPid, env.pid) ]
  }

  /** The install check is exactly the short-circuiting chain over its plan. */
  lemma InstallIsChain(ob: CheckOptions, env: InstallEnv)
    ensures DiagnoseInstall(ob, env) == RunChain(InstallPlan(ob, env))
  {
    var plan := InstallPlan(ob, env);
    assert plan[1..][1..] == plan[2..];
    assert plan[2..][1..] == plan[3..];
    if env.cpu.Some? {
      assert RunChain(plan) == ChainRun(env.cpu, [CheckCPU]);
    } else if env.memory.Some? {
      assert RunChain(plan[1..]) == ChainRun(env.memory, [CheckMemory]);
    } else if env.disk.Some? {
      assert RunChain(plan[2..]) == ChainRun(env.disk, [CheckDisk]);
      assert RunChain(plan[1..]) == ChainRun(env.disk, [CheckMemory, CheckDisk]);
    } else {
      var tail := LaterChecks(ob, env);
      assert plan[3..] == tail;
      assert RunChain(plan[2..]) == ChainRun(RunChain(tail).err, [CheckDisk] + RunChain(tail).trace);
      assert RunChain(plan[1..]) == ChainRun(RunChain(tail).err, [CheckMemory, CheckDisk] + RunChain(tail).trace);
      LaterChecksRun(ob, env);
    }
  }

  /** Once the resource probes pass, the install check runs the later probes as a chain. */
  lemma LaterChecksRun(ob: CheckOptions, env: InstallEnv)
    requires env.cpu.None? && env.memory.None? && env.disk.None?
    ensures var tail := RunChain(LaterChecks(ob, env));
      DiagnoseInstall(ob, env) == ChainRun(tail.err, [CheckCPU, CheckMemory, CheckDisk] + tail.trace)
  {
    var net := env.network(ob.ip, ob.timeout, ob.cloudHubServer, ob.edgecoreServer, ob.config);
    var last := [Check(NetworkStep(ob), net), Check(CheckPid, env.pid)];
    var t := [CheckCPU, CheckMemory, CheckDisk];
    assert last[1..] == [Check(CheckPid, env.pid)];
    assert RunChain(last[1..]) == ChainRun(env.pid, [CheckPid]);
    var rest := RunChain(last);
    if ob.domain != "" {
      var dns := env.dns(ob.domain, ob.dnsIP);
      var tail := LaterChecks(ob, env);
      assert tail[1..] == last;
      if dns.None? {
        assert RunChain(tail) == ChainRun(rest.err, [DnsStep(ob)] + rest.trace);
        assert t + [DnsStep(ob)] + rest.trace == t + ([DnsStep(ob)] + rest.trace);
      }
    } else {
      assert LaterChecks(ob, env) == last;
    }
  }

  /** Probes run in the order CPU, memory, disk, DNS (given a domain),
      network, PID; the first failing probe's error is returned unchanged and
      is the last probe run; success means every probe passed. */
  lemma InstallFirstFailure(ob: CheckOptions, env: InstallEnv)
    ensures var run := DiagnoseInstall(ob, env);
      var plan := InstallPlan(ob, env);
      && run.trace == Steps(plan)[..|run.trace|]
      && (run.err.Some? ==>
            plan[|run.trace| - 1].failure == run.err && PassUpTo(plan, |run.trace| - 1))
      && (run.err.None? <==> PassUpTo(plan, |plan|))
      && (run.err.None? ==> run.trace == Steps(plan))
  {
    InstallIsChain(ob, env);
    RunChainSpec(InstallPlan(ob, env));
  }

  /** A failing CPU probe stops the check before any other probe. */
  lemma InstallCpuFailureStops(ob: CheckOptions, env: InstallEnv)
    requires env.cpu.Some?
    ensures DiagnoseInstall(ob, env) == ChainRun(env.cpu, [CheckCPU])
  {
  }

  /** With a domain and passing resource probes, the DNS probe runs for that domain and DNS server. */
  lemma InstallDnsRunsForDomain(ob: CheckOptions, env: InstallEnv)
    requires ob.domain != "" && env.cpu.None? && env.memory.None? && env.disk.None?
    ensures DiagnoseInstall(ob, env).trace[3] == CheckDNS(ob.domain, ob.dnsIP)
  {
  }
}
