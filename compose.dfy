/** The older harness design: a caller-owned `TestContext` that `RunTest`
    updates in place. A run builds the project once, resolves and caches the
    Docker address, brings Compose up detached (registering `down`), starts
    following the Compose logs once, numbers the run in the log, polls the
    health check until the server answers 204 or 30 s have passed, and then
    runs the test function with the cached address. The deferred end marker
    and `down` run on every exit after they were registered.

    Every external effect (a command's exit status and output, a health
    check's answer and how long it took, a test function calling `t.Fatal`)
    is an input of type `Oracle`. The clock is integer milliseconds since the
    polling started. `RunSpec` specifies a run as a function; the class
    method `RunTest` performs it imperatively and is proved to agree. */
module Compose {
  import opened Harness

  /** Why a run called `t.Fatal`. */
  datatype Reason =
    | BuildFailed
    | MachineIpFailed
    | UpFailed
    | LogsFailed
    | ServerTimedOut
    | TestFuncFatal
    | DownFailed

  /** What a run does that an observer could see, in order. */
  datatype Event =
    | Built                             // ./build.sh
    | MachineActive                     // `docker-machine active`
    | MachineIp(name: string)           // `docker-machine ip <name>`
    | Up                                // `docker-compose up -d`
    | LogCreated                        // os.Create("test.log")
    | LogsFollowed                      // start of `docker-compose logs --no-color`
    | Wrote(text: string)               // a write to the log file
    | Probe(ip: string)                 // HEAD of the health check at `ip`
    | TestFunc(ip: string)
    | Down                              // `docker-compose down`
    | Fatal(reason: Reason)

  /** What one health check returned: no response (a transport error), or
      a response with a status code. */
  datatype Answer = NoResponse | Status(code: int)

  /** The server is ready only on a response with status 204 (No Content);
      errors and every other status mean "not ready yet". */
  predicate Healthy(a: Answer) {
    a == Status(204)
  }

  /** Milliseconds slept between two health checks, and the time after
      which an unhealthy answer makes the run give up. */
  const PollInterval: nat := 250
  const PollDeadline: nat := 30000

  /** The answers of the outside world for one run. `answer(i)` is what the
      i-th health check returns and `latency(i)` how many milliseconds it
      takes; `funcFails` says whether the test function calls `t.Fatal`. */
  datatype Oracle = Oracle(
    short: bool,
    buildOk: bool,
    machineActive: Cmd,
    machineIp: Cmd,
    upOk: bool,
    logsStartOk: bool,
    answer: nat -> Answer,
    latency: nat -> nat,
    funcFails: bool,
    downOk: bool)

  /** The fields of `TestContext`; `logFile` says whether the log file has
      been created and `log` holds what has been written to it. */
  datatype Ctx = Ctx(built: bool, ip: string, logFile: bool, log: seq<string>, testNum: nat)

  /** The zero value `TestContext{}`. */
  const Zero: Ctx := Ctx(false, [], false, [], 0)

  /** A deferred action; the end marker carries the number it was
      registered with, as Go evaluates a deferred call's arguments at the
      `defer` statement. */
  datatype Deferred = ComposeDown | WriteEndMarker(n: nat)

  /** A run in progress: the context, the events so far, the deferred
      actions registered so far (most recent last) and the first `t.Fatal`. */
  datatype Progress = Progress(ctx: Ctx, trace: seq<Event>, defers: seq<Deferred>, failure: Option<Reason>)

  datatype RunResult = RunResult(ctx: Ctx, outcome: Outcome<Reason>, trace: seq<Event>)

  /** How the context may evolve: the build flag only goes from false to
      true, a non-empty address is never replaced, the log file once created
      stays, and the sequence number never goes down. */
  predicate Evolves(c: Ctx, d: Ctx) {
    && (c.built ==> d.built)
    && (|c.ip| > 0 ==> d.ip == c.ip)
    && (c.logFile ==> d.logFile)
    && c.testNum <= d.testNum
  }

  // ---------------------------------------------------------------------
  // The readiness poll
  // ---------------------------------------------------------------------

  /** How the wait for the server ended: after `probes` health checks,
      `elapsed` milliseconds after the start. */
  datatype Readiness = Ready(probes: nat, elapsed: nat) | GaveUp(probes: nat, elapsed: nat)

  /** The loop of compose.go:73-86 from the i-th health check on, `elapsed`
      milliseconds after the start; each of the `i` earlier checks was
      followed by a sleep. */
  function PollFrom(o: Oracle, i: nat, elapsed: nat): Readiness
    requires PollInterval * i <= elapsed
    decreases PollDeadline + PollInterval - PollInterval * i
  {
    var now := elapsed + o.latency(i);
    if Healthy(o.answer(i)) then Ready(i + 1, now)
    else if now > PollDeadline then GaveUp(i + 1, now)
    else PollFrom(o, i + 1, now + PollInterval)
  }

  /** One turn of the loop. */
  lemma PollStep(o: Oracle, i: nat, elapsed: nat)
    requires PollInterval * i <= elapsed
    ensures var now := elapsed + o.latency(i);
      PollFrom(o, i, elapsed)
      == if Healthy(o.answer(i)) then Ready(i + 1, now)
         else if now > PollDeadline then GaveUp(i + 1, now)
         else PollFrom(o, i + 1, now + PollInterval)
  {
  }

  /** The whole wait, from the first health check on: at least one check
      is sent, the wait ends ready exactly when the last check was healthy,
      and it gives up only after more than 30 s. */
  function Poll(o: Oracle): (r: Readiness)
    ensures 0 < r.probes
    ensures r.Ready? <==> Healthy(o.answer(r.probes - 1))
    ensures r.GaveUp? ==> r.elapsed > PollDeadline
  {
    PollEnds(o, 0, 0);
    PollFrom(o, 0, 0)
  }

  /** From check `i` on, the loop sends at least one more check, ends ready
      exactly when its last check was healthy, and gives up only after the
      deadline. */
  lemma {:induction false} PollEnds(o: Oracle, i: nat, elapsed: nat)
    requires PollInterval * i <= elapsed
    ensures var r := PollFrom(o, i, elapsed);
      && i < r.probes
      && (r.Ready? <==> Healthy(o.answer(r.probes - 1)))
      && (r.GaveUp? ==> r.elapsed > PollDeadline)
    decreases PollDeadline + PollInterval - PollInterval * i
  {
    var now := elapsed + o.latency(i);
    PollStep(o, i, elapsed);
    if !Healthy(o.answer(i)) && now <= PollDeadline {
      PollEnds(o, i + 1, now + PollInterval);
    }
  }

  /** The health checks of a run, all against the cached address. */
  function Probes(ip: string, n: nat): seq<Event> {
    if n == 0 then [] else Probes(ip, n - 1) + [Probe(ip)]
  }

  lemma ProbesGrow(t: seq<Event>, ip: string, n: nat)
    ensures t + Probes(ip, n) + [Probe(ip)] == t + Probes(ip, n + 1)
  {
    assert Probes(ip, n + 1) == Probes(ip, n) + [Probe(ip)];
  }

  // ---------------------------------------------------------------------
  // The steps of RunTest, as functions of the progress so far
  // ---------------------------------------------------------------------

  function Emit(p: Progress, e: Event): (r: Progress)
    ensures r.ctx == p.ctx && r.defers == p.defers && r.failure == p.failure
    ensures r.trace == p.trace + [e]
  {
    p.(trace := p.trace + [e])
  }

  /** `t.Fatal(why)`: record it; the first one decides the outcome. */
  function Fail(p: Progress, why: Reason): (r: Progress)
    ensures r.ctx == p.ctx && r.defers == p.defers && r.trace == p.trace + [Fatal(why)]
    ensures r.failure.Some? && (p.failure.Some? ==> r.failure == p.failure)
  {
    Emit(p, Fatal(why)).(failure := if p.failure.None? then Some(why) else p.failure)
  }

  /** A write to the log file. */
  function Write(p: Progress, text: string): (r: Progress)
    ensures r.ctx == p.ctx.(log := p.ctx.log + [text]) && r.trace == p.trace + [Wrote(text)]
    ensures r.defers == p.defers && r.failure == p.failure
  {
    Emit(p, Wrote(text)).(ctx := p.ctx.(log := p.ctx.log + [text]))
  }

  /** compose.go:25-31. Build once; a failed build leaves the flag unset. */
  function BuildStage(p: Progress, o: Oracle): (r: Progress)
    ensures Evolves(p.ctx, r.ctx) && r.ctx == p.ctx.(built := r.ctx.built) && r.defers == p.defers
    ensures r.ctx.built <==> p.ctx.built || o.buildOk
    ensures r.failure.Some? <==> p.failure.Some? || (!p.ctx.built && !o.buildOk)
  {
    if p.ctx.built then p
    else
      var ran := Emit(p, Built);
      if !o.buildOk then Fail(ran, BuildFailed)
      else ran.(ctx := ran.ctx.(built := true))
  }

  /** compose.go:33-45. Resolve and cache the Docker address when none is
      cached yet. */
  function IpStage(p: Progress, o: Oracle): (r: Progress)
    ensures Evolves(p.ctx, r.ctx) && r.ctx == p.ctx.(ip := r.ctx.ip) && r.defers == p.defers
    ensures |p.ctx.ip| > 0 ==> r == p
  {
    if |p.ctx.ip| > 0 then p
    else if o.machineActive.CmdErr? then
      Emit(p, MachineActive).(ctx := p.ctx.(ip := Loopback))
    else
      var queried := Emit(Emit(p, MachineActive), MachineIp(MachineName(o.machineActive)));
      match ResolvedIp(o.machineActive, o.machineIp)
      case None => Fail(queried, MachineIpFailed)
      case Some(addr) => queried.(ctx := queried.ctx.(ip := addr))
  }

  /** compose.go:47-55. Bring Compose up detached; only then is `down`
      registered. */
  function UpStage(p: Progress, o: Oracle): (r: Progress)
    ensures r.ctx == p.ctx
    ensures r.defers == if o.upOk then p.defers + [ComposeDown] else p.defers
  {
    var tried := Emit(p, Up);
    if !o.upOk then Fail(tried, UpFailed)
    else tried.(defers := tried.defers + [ComposeDown])
  }

  /** compose.go:57-67. On the first run create the log file and start
      following the logs into it; the file is recorded before the follower
      is started, so a failed start is not retried by a later run. */
  function LogStage(p: Progress, o: Oracle): (r: Progress)
    ensures Evolves(p.ctx, r.ctx) && r.ctx.logFile && r.defers == p.defers
    ensures r.ctx == p.ctx.(logFile := true, log := r.ctx.log)
    ensures p.ctx.logFile ==> r == p
  {
    if p.ctx.logFile then p
    else
      var created := Emit(p, LogCreated).(ctx := p.ctx.(logFile := true, log := []));
      var following := Emit(created, LogsFollowed);
      if !o.logsStartOk then Fail(following, LogsFailed) else following
  }

  /** compose.go:68-70. Number the run, write its start marker and register
      the end marker with the same number. */
  function MarkerStage(p: Progress): (r: Progress)
    ensures r.ctx == p.ctx.(testNum := p.ctx.testNum + 1, log := p.ctx.log + [StartMarker(p.ctx.testNum + 1)])
    ensures r.defers == p.defers + [WriteEndMarker(p.ctx.testNum + 1)] && r.failure == p.failure
  {
    var n := p.ctx.testNum + 1;
    var marked := Write(p.(ctx := p.ctx.(testNum := n)), StartMarker(n));
    marked.(defers := marked.defers + [WriteEndMarker(n)])
  }

  /** compose.go:72-86. Poll the health check; give up once too much time
      has passed. */
  function PollStage(p: Progress, o: Oracle): (r: Progress)
    ensures r.ctx == p.ctx && r.defers == p.defers
  {
    var w := Poll(o);
    var probed := p.(trace := p.trace + Probes(p.ctx.ip, w.probes));
    if w.GaveUp? then Fail(probed, ServerTimedOut) else probed
  }

  /** compose.go:88-89. */
  function FuncStage(p: Progress, o: Oracle): (r: Progress)
    ensures r.ctx == p.ctx && r.defers == p.defers
  {
    var ran := Emit(p, TestFunc(p.ctx.ip));
    if o.funcFails then Fail(ran, TestFuncFatal) else ran
  }

  /** One deferred action: the end marker (compose.go:70) or `down`
      (compose.go:51-55). */
  function RunDeferred(d: Deferred, p: Progress, o: Oracle): (r: Progress)
    ensures r.ctx == p.ctx.(log := r.ctx.log) && r.defers == p.defers
  {
    match d
    case WriteEndMarker(n) => Write(p, EndMarker(n))
    case ComposeDown =>
      var down := Emit(p, Down);
      if o.downOk then down else Fail(down, DownFailed)
  }

  /** The deferred actions run last-registered first, each to its end even
      after an earlier `t.Fatal`. */
  function Unwind(p: Progress, o: Oracle): (r: Progress)
    ensures r.ctx == p.ctx.(log := r.ctx.log) && r.defers == []
    ensures p.failure.Some? ==> r.failure == p.failure
    decreases |p.defers|
  {
    if p.defers == [] then p
    else
      var last := p.defers[|p.defers| - 1];
      Unwind(RunDeferred(last, p.(defers := p.defers[..|p.defers| - 1]), o), o)
  }

  function Finish(p: Progress, o: Oracle): RunResult {
    var q := Unwind(p, o);
    RunResult(q.ctx, OutcomeOf(q.failure), q.trace)
  }

  /** The steps up to and including the log follower (compose.go:25-67),
      stopping at the first `t.Fatal`. */
  function SetUp(c: Ctx, o: Oracle): (r: Progress)
    ensures Evolves(c, r.ctx) && r.ctx.testNum == c.testNum
    ensures r.failure.None? ==> r.ctx.logFile && r.defers == [ComposeDown]
  {
    var built := BuildStage(Progress(c, [], [], None), o);
    if built.failure.Some? then built
    else
      var addressed := IpStage(built, o);
      if addressed.failure.Some? then addressed
      else
        var up := UpStage(addressed, o);
        if up.failure.Some? then up
        else LogStage(up, o)
  }

  /** The whole of `RunTest` (compose.go:20-90) as a function of the context
      before the run and the oracle. */
  function RunSpec(c: Ctx, o: Oracle): (r: RunResult)
    ensures Evolves(c, r.ctx) && r.ctx.testNum <= c.testNum + 1
    ensures r.outcome.Skipped? <==> o.short
  {
    if o.short then RunResult(c, Skipped, [])
    else
      var prepared := SetUp(c, o);
      if prepared.failure.Some? then Finish(prepared, o)
      else
        var polled := PollStage(MarkerStage(prepared), o);
        if polled.failure.Some? then Finish(polled, o)
        else Finish(FuncStage(polled, o), o)
  }

  // ---------------------------------------------------------------------
  // The caller-owned context, updated in place
  // ---------------------------------------------------------------------

  /** `TestContext` (compose.go:13-18). `RunTest` is split into one method
      per step; each takes the events so far and the deferred actions
      registered so far, and is proved to perform its step function. */
  class TestContext {
    var built: bool
    var ip: string
    var logFile: bool
    var log: seq<string>
    var testNum: nat

    function Snapshot(): Ctx
      reads this
    {
      Ctx(built, ip, logFile, log, testNum)
    }

    function At(trace: seq<Event>, defers: seq<Deferred>, failure: Option<Reason>): Progress
      reads this
    {
      Progress(Snapshot(), trace, defers, failure)
    }

    /** `&TestContext{}`. */
    constructor ()
      ensures Snapshot() == Zero
    {
      built, ip, logFile, log, testNum := false, [], false, [], 0;
    }

    /** compose.go:25-31. */
    method Build(o: Oracle) returns (trace: seq<Event>, failure: Option<Reason>)
      modifies this
      ensures At(trace, [], failure) == BuildStage(old(At([], [], None)), o)
    {
      trace, failure := [], None;
      if !built {
        trace := [Built];
        if !o.buildOk {
          trace := trace + [Fatal(BuildFailed)];
          failure := Some(BuildFailed);
          return;
        }
        built := true;
      }
    }

    /** compose.go:33-45. */
    method ResolveIp(o: Oracle, trace0: seq<Event>) returns (trace: seq<Event>, failure: Option<Reason>)
      modifies this
      ensures At(trace, [], failure) == IpStage(old(At(trace0, [], None)), o)
    {
      trace, failure := trace0, None;
      if |ip| == 0 {
        trace := trace + [MachineActive];
        if o.machineActive.CmdErr? {
          ip := Loopback;
        } else {
          trace := trace + [MachineIp(MachineName(o.machineActive))];
          if o.machineIp.CmdErr? {
            trace := trace + [Fatal(MachineIpFailed)];
            failure := Some(MachineIpFailed);
            return;
          }
          ip := Trim(o.machineIp.out);
        }
      }
    }

    /** compose.go:47-55: a running Compose gets the deferred `down`. */
    method ComposeUp(o: Oracle, trace0: seq<Event>) returns (trace: seq<Event>, defers: seq<Deferred>, failure: Option<Reason>)
      ensures At(trace, defers, failure) == UpStage(At(trace0, [], None), o)
    {
      trace, defers, failure := trace0 + [Up], [], None;
      if !o.upOk {
        trace := trace + [Fatal(UpFailed)];
        failure := Some(UpFailed);
        return;
      }
      defers := [ComposeDown];
    }

    /** compose.go:57-67. */
    method FollowLogs(o: Oracle, trace0: seq<Event>, ghost defers: seq<Deferred>) returns (trace: seq<Event>, failure: Option<Reason>)
      modifies this
      ensures At(trace, defers, failure) == LogStage(old(At(trace0, defers, None)), o)
    {
      trace, failure := trace0, None;
      if !logFile {
        logFile, log := true, [];
        trace := trace + [LogCreated, LogsFollowed];
        if !o.logsStartOk {
          trace := trace + [Fatal(LogsFailed)];
          failure := Some(LogsFailed);
        }
      }
    }

    /** compose.go:68-70: the end marker is registered with the new number. */
    method RecordTestNum(trace0: seq<Event>, defers0: seq<Deferred>) returns (trace: seq<Event>, defers: seq<Deferred>)
      modifies this
      ensures At(trace, defers, None) == MarkerStage(old(At(trace0, defers0, None)))
    {
      testNum := testNum + 1;
      log := log + [StartMarker(testNum)];
      trace := trace0 + [Wrote(StartMarker(testNum))];
      defers := defers0 + [WriteEndMarker(testNum)];
    }

    /** The loop of compose.go:73-86. `elapsed` is the time since the start
        of the loop when the next health check is sent. */
    method AwaitHealthy(o: Oracle, trace0: seq<Event>) returns (trace: seq<Event>, w: Readiness)
      ensures w == Poll(o)
      ensures trace == trace0 + Probes(ip, w.probes)
    {
      var i: nat, elapsed: nat := 0, 0;
      trace := trace0;
      while true
        invariant PollInterval * i <= elapsed
        invariant PollFrom(o, i, elapsed) == Poll(o)
        invariant trace == trace0 + Probes(ip, i)
        decreases PollDeadline + PollInterval - PollInterval * i
      {
        ProbesGrow(trace0, ip, i);
        trace := trace + [Probe(ip)];
        var now := elapsed + o.latency(i);
        PollStep(o, i, elapsed);
        if Healthy(o.answer(i)) {
          w := Ready(i + 1, now);
          return;
        }
        if now > PollDeadline {
          w := GaveUp(i + 1, now);
          return;
        }
        elapsed, i := now + PollInterval, i + 1;
      }
    }

    /** compose.go:72-86: a wait that ends unhealthy calls `t.Fatal`. */
    method WaitForServer(o: Oracle, trace0: seq<Event>, ghost defers: seq<Deferred>) returns (trace: seq<Event>, failure: Option<Reason>)
      ensures At(trace, defers, failure) == PollStage(At(trace0, defers, None), o)
    {
      var w;
      trace, w := AwaitHealthy(o, trace0);
      failure := None;
      if w.GaveUp? {
        trace := trace + [Fatal(ServerTimedOut)];
        failure := Some(ServerTimedOut);
      }
    }

    /** compose.go:88-89. */
    method RunTestFunc(o: Oracle, trace0: seq<Event>, ghost defers: seq<Deferred>) returns (trace: seq<Event>, failure: Option<Reason>)
      ensures At(trace, defers, failure) == FuncStage(At(trace0, defers, None), o)
    {
      trace, failure := trace0 + [TestFunc(ip)], None;
      if o.funcFails {
        trace := trace + [Fatal(TestFuncFatal)];
        failure := Some(TestFuncFatal);
      }
    }

    /** The deferred actions, most recent first (Go's defer order). */
    method RunDeferred(o: Oracle, trace0: seq<Event>, defers: seq<Deferred>, failure0: Option<Reason>)
      returns (trace: seq<Event>, failure: Option<Reason>)
      modifies this
      ensures At(trace, [], failure) == old(Unwind(At(trace0, defers, failure0), o))
    {
      trace, failure := trace0, failure0;
      var rest := defers;
      while rest != []
        invariant Unwind(At(trace, rest, failure), o) == old(Unwind(At(trace0, defers, failure0), o))
        decreases |rest|
      {
        var d := rest[|rest| - 1];
        rest := rest[..|rest| - 1];
        match d
        case WriteEndMarker(n) =>
          log := log + [EndMarker(n)];
          trace := trace + [Wrote(EndMarker(n))];
        case ComposeDown =>
          trace := trace + [Down];
          if !o.downOk {
            trace := trace + [Fatal(DownFailed)];
            if failure.None? {
              failure := Some(DownFailed);
            }
          }
      }
    }

    /** Leaving `RunTest`: the deferred actions run, and the first
        `t.Fatal` decides the outcome. */
    method Conclude(o: Oracle, trace0: seq<Event>, defers: seq<Deferred>, failure0: Option<Reason>)
      returns (outcome: Outcome<Reason>, trace: seq<Event>)
      modifies this
      ensures RunResult(Snapshot(), outcome, trace) == old(Finish(At(trace0, defers, failure0), o))
    {
      var failure;
      trace, failure := RunDeferred(o, trace0, defers, failure0);
      outcome := OutcomeOf(failure);
    }

    /** compose.go:20-90: one end-to-end test under Compose. */
    method RunTest(o: Oracle) returns (outcome: Outcome<Reason>, trace: seq<Event>)
      modifies this
      ensures RunResult(Snapshot(), outcome, trace) == RunSpec(old(Snapshot()), o)
    {
      if o.short {
        return Skipped, [];
      }
      ghost var c := Snapshot();
      var defers: seq<Deferred> := [];
      var failure: Option<Reason>;
      trace, failure := Build(o);
      ghost var p := At(trace, defers, failure);
      if failure.Some? {
        assert p == SetUp(c, o);
        outcome, trace := Conclude(o, trace, defers, failure);
        return;
      }
      trace, failure := ResolveIp(o, trace);
      ghost var q := At(trace, defers, failure);
      assert q == IpStage(p, o);
      if failure.Some? {
        assert q == SetUp(c, o);
        outcome, trace := Conclude(o, trace, defers, failure);
        return;
      }
      trace, defers, failure := ComposeUp(o, trace);
      ghost var u := At(trace, defers, failure);
      assert u == UpStage(q, o);
      if failure.Some? {
        assert u == SetUp(c, o);
        outcome, trace := Conclude(o, trace, defers, failure);
        return;
      }
      trace, failure := FollowLogs(o, trace, defers);
      assert At(trace, defers, failure) == SetUp(c, o);
      if failure.Some? {
        outcome, trace := Conclude(o, trace, defers, failure);
        return;
      }
      ghost var prepared := At(trace, defers, failure);
      trace, defers := RecordTestNum(trace, defers);
      assert At(trace, defers, None) == MarkerStage(prepared);
      trace, failure := WaitForServer(o, trace, defers);
      if failure.Some? {
        outcome, trace := Conclude(o, trace, defers, failure);
        return;
      }
      trace, failure := RunTestFunc(o, trace, defers);
      outcome, trace := Conclude(o, trace, defers, failure);
    }
  }
}
