/** The three phases of traffic-runner and the order `main` runs them in:
    `set_up` and `clean_up` issue their commands one after another and stop at
    the first command whose `output()` returns an `Err`; `spawn_task` runs one
    worker per host and then waits for `count` completion signals. Subprocesses are issued
    to an abstract runner that decides each command's outcome. */
module Phases {
  import opened Wrappers
  import opened Format
  import opened Planner
  import opened Commands

  /** Why a subprocess could not be spawned (`std::io::Error`, abstracted). */
  datatype IoError = IoError(code: int)

  /** What awaiting `Command::output()` gives: an `Err` (in practice the spawn
      failed; waiting on the child or reading its pipes can also fail), or the
      command ran to completion with some exit status. */
  datatype Outcome = SpawnFailed(error: IoError) | Completed(status: int)

  /** The external world: the outcome of the `k`-th command a phase issues. */
  type Runner = (nat, Cmd) -> Outcome

  /** What `set_up` or `clean_up` returns, with the commands it issued. */
  datatype PhaseRun = PhaseRun(result: Result<(), IoError>, trace: seq<Cmd>)

  /** A successful phase result carries nothing but `()`. */
  lemma OkIsUnit(r: Result<(), IoError>)
    requires r.Ok?
    ensures r == Ok(())
  {
    var u: () := r.value;
    assert u == ();
  }

  /** The first `n` commands of `plan` all ran to completion. */
  predicate AllCompleted(plan: seq<Cmd>, run: Runner, n: nat)
    requires n <= |plan|
  {
    forall k :: 0 <= k < n ==> run(k, plan[k]).Completed?
  }

  /** The behaviour of a loop of `let _ = cmd.output().await?;` over `plan`: the
      commands are issued in plan order; the first one whose spawn fails ends the
      phase with its error and nothing after it is issued; exit statuses are never
      looked at; without a spawn failure the whole plan is issued and the result
      is `Ok`. */
  predicate FailFast(plan: seq<Cmd>, run: Runner, p: PhaseRun) {
    && |p.trace| <= |plan|
    && p.trace == plan[..|p.trace|]
    && match p.result
       case Ok(_) => |p.trace| == |plan| && AllCompleted(plan, run, |plan|)
       case Err(e) =>
         && 0 < |p.trace|
         && AllCompleted(plan, run, |p.trace| - 1)
         && run(|p.trace| - 1, plan[|p.trace| - 1]) == SpawnFailed(e)
  }

  /** `set_up`: for each host in ascending order, the seven provisioning commands. */
  method SetUp(config: LocalConfig, run: Runner) returns (p: PhaseRun)
    ensures FailFast(SetUpPlan(config), run, p)
  {
    var hosts := Hosts(config);
    ghost var plan := SetUpPlan(config);
    ProvisionPlanLength(config, hosts);
    var trace: seq<Cmd> := [];
    for i := 0 to |hosts|
      invariant |trace| == 7 * i && Issuing(plan, run, trace)
    {
      var failed;
      trace, failed := ProvisionHost(config, hosts[i], run, trace);
      if failed.Some? {
        return PhaseRun(Err(failed.value), trace);
      }
    }
    Finished(plan, run, trace);
    return PhaseRun(Ok(()), trace);
  }

  /** One iteration of `set_up`'s loop: the seven commands of host `h`, each
      awaited with `?`, after the commands `trace0` of the hosts before it. */
  method ProvisionHost(config: LocalConfig, h: Host, run: Runner, trace0: seq<Cmd>)
    returns (trace: seq<Cmd>, failed: Option<IoError>)
    requires h.index < |Hosts(config)| && h == Hosts(config)[h.index]
    requires |trace0| == 7 * h.index && Issuing(SetUpPlan(config), run, trace0)
    ensures failed.None? ==> |trace| == 7 * (h.index + 1) && Issuing(SetUpPlan(config), run, trace)
    ensures failed.Some? ==> FailFast(SetUpPlan(config), run, PhaseRun(Err(failed.value), trace))
  {
    var cmds := ProvisionCommands(config, h);
    SetUpPlanOrder(config, h.index);
    trace, failed := AwaitEach(SetUpPlan(config), cmds, run, trace0);
  }

  /** Issues `cmds`, which stand next in `plan`, one after another and awaits
      each; stops at the first whose spawn fails. */
  method AwaitEach(ghost plan: seq<Cmd>, cmds: seq<Cmd>, run: Runner, trace0: seq<Cmd>)
    returns (trace: seq<Cmd>, failed: Option<IoError>)
    requires |trace0| + |cmds| <= |plan| && plan[|trace0| .. |trace0| + |cmds|] == cmds
    requires Issuing(plan, run, trace0)
    ensures failed.None? ==> |trace| == |trace0| + |cmds| && Issuing(plan, run, trace)
    ensures failed.Some? ==> FailFast(plan, run, PhaseRun(Err(failed.value), trace))
  {
    ghost var start := |trace0|;
    trace := trace0;
    for j := 0 to |cmds|
      invariant |trace| == start + j && Issuing(plan, run, trace)
    {
      assert plan[|trace|] == plan[start .. start + |cmds|][j];
      var outcome := run(|trace|, cmds[j]);
      ghost var before := trace;
      trace := trace + [cmds[j]];
      if outcome.SpawnFailed? {
        Stopped(plan, run, before, cmds[j], outcome.error);
        return trace, Some(outcome.error);
      }
      Issued(plan, run, before, cmds[j]);
    }
    return trace, None;
  }

  predicate Issuing(plan: seq<Cmd>, run: Runner, trace: seq<Cmd>) {
    |trace| <= |plan| && trace == plan[..|trace|] && AllCompleted(plan, run, |trace|)
  }

  /** The next command of the plan ran to completion. */
  lemma Issued(plan: seq<Cmd>, run: Runner, trace: seq<Cmd>, c: Cmd)
    requires Issuing(plan, run, trace) && |trace| < |plan| && plan[|trace|] == c
    requires run(|trace|, c).Completed?
    ensures Issuing(plan, run, trace + [c])
  {
    assert plan[..|trace| + 1] == plan[..|trace|] + [plan[|trace|]];
  }

  /** The next command of the plan failed to spawn: the phase ends with its error. */
  lemma Stopped(plan: seq<Cmd>, run: Runner, trace: seq<Cmd>, c: Cmd, e: IoError)
    requires Issuing(plan, run, trace) && |trace| < |plan| && plan[|trace|] == c
    requires run(|trace|, c) == SpawnFailed(e)
    ensures FailFast(plan, run, PhaseRun(Err(e), trace + [c]))
  {
    assert plan[..|trace| + 1] == plan[..|trace|] + [plan[|trace|]];
  }

  /** The whole plan ran: the phase ends with `Ok`. */
  lemma Finished(plan: seq<Cmd>, run: Runner, trace: seq<Cmd>)
    requires Issuing(plan, run, trace) && |trace| == |plan|
    ensures FailFast(plan, run, PhaseRun(Ok(()), trace))
  {
    assert plan[..|plan|] == plan;
  }

  /** `clean_up`: one `ip netns del` per host, in ascending order. */
  method CleanUp(config: LocalConfig, run: Runner) returns (p: PhaseRun)
    ensures FailFast(CleanUpPlan(config), run, p)
  {
    var hosts := Hosts(config);
    ghost var plan := CleanUpPlan(config);
    var trace: seq<Cmd> := [];
    for i := 0 to |hosts|
      invariant |trace| == i && Issuing(plan, run, trace)
    {
      var cmd := DeleteCommand(config, hosts[i]);
      var outcome := run(|trace|, cmd);
      ghost var before := trace;
      trace := trace + [cmd];
      if outcome.SpawnFailed? {
        Stopped(plan, run, before, cmd, outcome.error);
        return PhaseRun(Err(outcome.error), trace);
      }
      Issued(plan, run, before, cmd);
    }
    Finished(plan, run, trace);
    return PhaseRun(Ok(()), trace);
  }

  /** A phase run meeting the specification is at least as long as any other:
      a shorter one would have stopped at a command the other saw complete. */
  lemma FailFastNotShorter(plan: seq<Cmd>, run: Runner, p: PhaseRun, q: PhaseRun)
    requires FailFast(plan, run, p) && FailFast(plan, run, q)
    ensures |q.trace| <= |p.trace|
  {
  }

  /** The specification of a phase run determines it completely. */
  lemma FailFastUnique(plan: seq<Cmd>, run: Runner, p: PhaseRun, q: PhaseRun)
    requires FailFast(plan, run, p) && FailFast(plan, run, q)
    ensures p == q
  {
    FailFastNotShorter(plan, run, p, q);
    FailFastNotShorter(plan, run, q, p);
    assert p.trace == plan[..|p.trace|] == q.trace;
    if 0 < |p.trace| {
      var k := |p.trace| - 1;
      var last := run(k, plan[k]);
    }
    if p.result.Ok? && q.result.Ok? {
      OkIsUnit(p.result);
      OkIsUnit(q.result);
    }
  }

  /** The phase stops at the first command whose spawn fails. */
  lemma FailFastStopsAtFirst(plan: seq<Cmd>, run: Runner, p: PhaseRun, f: nat)
    requires FailFast(plan, run, p)
    requires f < |plan| && AllCompleted(plan, run, f) && run(f, plan[f]).SpawnFailed?
    ensures p.trace == plan[..f + 1]
    ensures p.result == Err(run(f, plan[f]).error)
  {
    var q := PhaseRun(Err(run(f, plan[f]).error), plan[..f + 1]);
    assert FailFast(plan, run, q);
    FailFastUnique(plan, run, p, q);
  }

  /** When every command runs, the whole plan is issued and the result is `Ok`. */
  lemma FailFastAllRan(plan: seq<Cmd>, run: Runner, p: PhaseRun)
    requires FailFast(plan, run, p) && AllCompleted(plan, run, |plan|)
    ensures p == PhaseRun(Ok(()), plan)
  {
    var q := PhaseRun(Ok(()), plan);
    assert plan[..|plan|] == plan;
    FailFastUnique(plan, run, p, q);
  }

  /** Two outcomes that agree on whether, and why, the spawn failed; they may
      differ in exit status. */
  predicate SameSpawn(o: Outcome, o': Outcome) {
    (o.SpawnFailed? <==> o'.SpawnFailed?) && (o.SpawnFailed? ==> o == o')
  }

  /** Exit statuses never matter: runners that agree on spawn failures give the
      same phase run. */
  lemma FailFastIgnoresStatus(plan: seq<Cmd>, run: Runner, run': Runner, p: PhaseRun)
    requires forall k :: 0 <= k < |plan| ==> SameSpawn(run(k, plan[k]), run'(k, plan[k]))
    requires FailFast(plan, run, p)
    ensures FailFast(plan, run', p)
  {
    if p.result.Err? {
      var k := |p.trace| - 1;
      assert SameSpawn(run(k, plan[k]), run'(k, plan[k]));
    }
  }

  /** Without spawn failures `set_up` issues seven commands for each of the
      `count` hosts and returns `Ok`. */
  lemma SetUpAllRan(config: LocalConfig, run: Runner, p: PhaseRun)
    requires WellFormed(config)
    requires FailFast(SetUpPlan(config), run, p)
    requires AllCompleted(SetUpPlan(config), run, |SetUpPlan(config)|)
    ensures p.result == Ok(()) && |p.trace| == 7 * config.count
  {
    FailFastAllRan(SetUpPlan(config), run, p);
    if config.count > 0 {
      SetUpPlanOrder(config, 0);
    }
  }

  /** The messages the dispatch workers of the first `n` commands send: a
      worker whose command ran sends one `0`, a worker whose spawn failed sends
      nothing. */
  function Signals(plan: seq<Cmd>, run: Runner, n: nat): (signals: seq<int>)
    requires n <= |plan|
    ensures |signals| <= n
    ensures forall i :: 0 <= i < |signals| ==> signals[i] == 0
  {
    if n == 0 then []
    else Signals(plan, run, n - 1) + (if run(n - 1, plan[n - 1]).Completed? then [0] else [])
  }

  /** Each signal is a `0`, and there are as many as there are workers exactly
      when no spawn failed. */
  lemma {:induction false} SignalsCount(plan: seq<Cmd>, run: Runner, n: nat)
    requires n <= |plan|
    ensures |Signals(plan, run, n)| <= n
    ensures |Signals(plan, run, n)| == n <==> AllCompleted(plan, run, n)
    ensures forall i :: 0 <= i < |Signals(plan, run, n)| ==> Signals(plan, run, n)[i] == 0
  {
    if n > 0 {
      SignalsCount(plan, run, n - 1);
    }
  }

  /** What `spawn_task` did: the workers' commands, the signals they sent, the
      signals the consumer received, and whether the consumer finished its
      `count` receives. When it did not, the receive numbered `|received|`
      found the channel empty with every sender gone, and `recv().unwrap()`
      panicked. */
  datatype DispatchRun = DispatchRun(trace: seq<Cmd>, sent: seq<int>, received: seq<int>, drained: bool)

  predicate DispatchSpec(config: LocalConfig, smbAddress: Ipv4Addr, filename: string,
                         run: Runner, d: DispatchRun) {
    && d.trace == DispatchPlan(config, smbAddress, filename)
    && d.sent == Signals(d.trace, run, |d.trace|)
    && d.drained == (config.count <= |d.sent|)
    && d.received == (if d.drained then d.sent[..config.count] else d.sent)
  }

  /** `spawn_task`: one worker per host, each issuing its smbclient command and
      sending `0` if it ran; then `config.count` receives. The workers run
      concurrently in main.rs; here they are issued in spawning order, which
      changes nothing the consumer can observe, since it counts signals only. */
  method SpawnTask(config: LocalConfig, smbAddress: Ipv4Addr, filename: string, run: Runner)
    returns (d: DispatchRun)
    ensures DispatchSpec(config, smbAddress, filename, run, d)
  {
    var hosts := Hosts(config);
    ghost var plan := DispatchPlan(config, smbAddress, filename);
    var trace: seq<Cmd> := [];
    var sent: seq<int> := [];
    for i := 0 to |hosts|
      invariant trace == plan[..i]
      invariant sent == Signals(plan, run, i)
    {
      var cmd := ClientCommand(config, hosts[i], smbAddress, filename);
      var outcome := run(i, cmd);
      trace := trace + [cmd];
      match outcome {
        case Completed(_) => sent := sent + [0];
        case SpawnFailed(_) =>
      }
    }
    assert plan[..|hosts|] == plan;
    SignalsCount(plan, run, |plan|);

    var received, drained := Receive(config.count, sent);
    return DispatchRun(trace, sent, received, drained);
  }

  /** The consumer of `spawn_task`: `count` calls of `recv().unwrap()` on a
      channel whose senders have sent `sent` and are all gone. A receive finding
      the channel empty panics, which ends the loop with `drained` false. */
  method Receive(count: nat, sent: seq<int>) returns (received: seq<int>, drained: bool)
    ensures drained == (count <= |sent|)
    ensures received == if drained then sent[..count] else sent
  {
    received := [];
    drained := true;
    var ii := 0;
    while ii < count && drained
      invariant ii <= count && ii <= |sent|
      invariant received == sent[..ii]
      invariant drained || (ii == |sent| && ii < count)
      decreases count - ii, drained
    {
      if ii < |sent| {
        received := received + [sent[ii]];
        ii := ii + 1;
      } else {
        drained := false;
      }
    }
    assert !drained ==> sent[..ii] == sent;
  }

  /** For a configuration from `set_up_config`, the consumer completes its
      `count` receives, all of them `0`, exactly when every worker's command ran;
      with a spawn failure it receives one signal per worker that ran and then
      panics on the next receive. */
  lemma DispatchDrainsIffAllRan(config: LocalConfig, smbAddress: Ipv4Addr, filename: string,
                                run: Runner, d: DispatchRun)
    requires WellFormed(config) && DispatchSpec(config, smbAddress, filename, run, d)
    ensures |d.trace| == config.count
    ensures d.drained <==> AllCompleted(d.trace, run, config.count)
    ensures d.drained ==> |d.received| == config.count
    ensures !d.drained ==> |d.received| < config.count
    ensures forall i :: 0 <= i < |d.received| ==> d.received[i] == 0
  {
    SignalsCount(d.trace, run, |d.trace|);
  }

  /** With no hosts, `set_up` and `clean_up` issue nothing and succeed, and the
      consumer performs no receive. */
  lemma EmptyRange(config: LocalConfig, smbAddress: Ipv4Addr, filename: string,
                   run: Runner, p: PhaseRun, q: PhaseRun, d: DispatchRun)
    requires WellFormed(config) && config.hosts.start > config.hosts.end
    requires FailFast(SetUpPlan(config), run, p) && FailFast(CleanUpPlan(config), run, q)
    requires DispatchSpec(config, smbAddress, filename, run, d)
    ensures p == PhaseRun(Ok(()), []) && q == PhaseRun(Ok(()), [])
    ensures d == DispatchRun([], [], [], true)
  {
    HostsEmpty(config);
    SetUpPlanEmpty(config);
    assert CleanUpPlan(config) == [];
    assert p.trace == [] && q.trace == [];
    OkIsUnit(p.result);
    OkIsUnit(q.result);
  }

  /** One run of the tool after its options are parsed. */
  datatype RunRecord = RunRecord(config: LocalConfig, setUp: PhaseRun, dispatch: DispatchRun,
                                 cleanUp: Option<PhaseRun>)

  /** `main` after option parsing: build the configuration, run `set_up` and
      ignore its result, run `spawn_task`, then `clean_up`. A panic in
      `spawn_task`'s consumer ends the process, so `clean_up` runs only when the
      consumer finished its receives. */
  method TrafficRun(baseAddress: Ipv4Addr, endAddress: Ipv4Addr, cidrSuffix: string,
                    interface: string, baseNamespace: string,
                    smbAddress: Ipv4Addr, filename: string,
                    provision: Runner, dispatch: Runner, reclaim: Runner)
    returns (r: RunRecord)
    ensures r.config == SetUpConfig(baseAddress, endAddress, cidrSuffix, interface, baseNamespace).value
    ensures FailFast(SetUpPlan(r.config), provision, r.setUp)
    ensures DispatchSpec(r.config, smbAddress, filename, dispatch, r.dispatch)
    ensures r.cleanUp.Some? <==> AllCompleted(r.dispatch.trace, dispatch, |r.dispatch.trace|)
    ensures r.cleanUp.Some? ==> FailFast(CleanUpPlan(r.config), reclaim, r.cleanUp.value)
  {
    var configured := SetUpConfig(baseAddress, endAddress, cidrSuffix, interface, baseNamespace);
    var config := configured.value;
    var setUp := SetUp(config, provision);
    var d := SpawnTask(config, smbAddress, filename, dispatch);
    DispatchDrainsIffAllRan(config, smbAddress, filename, dispatch, d);
    if !d.drained {
      return RunRecord(config, setUp, d, None);
    }
    var cleanUp := CleanUp(config, reclaim);
    return RunRecord(config, setUp, d, Some(cleanUp));
  }
}
