/** What a run of the older design does, read off the context and the
    oracle: the readiness poll (how many health checks, when it gives up),
    the one-time steps, the pairing of `up -d` with `down`, the markers, the
    outcome, and what several runs do to the context. */
module ComposeProperties {
  import opened Harness
  import opened Compose

  // ---------------------------------------------------------------------
  // The readiness poll
  // ---------------------------------------------------------------------

  /** The most health checks a run sends: checks 0 to 120 can all return
      within the 30 s (each is followed by a 250 ms sleep), check 121 never
      can. */
  const MaxProbes: nat := PollDeadline / PollInterval + 2

  /** Milliseconds the first `n` health checks took together. */
  function Spent(o: Oracle, n: nat): nat {
    if n == 0 then 0 else Spent(o, n - 1) + o.latency(n - 1)
  }

  /** When health check `i` is sent: after the earlier checks and one sleep
      after each of them. */
  function SentAt(o: Oracle, i: nat): nat {
    Spent(o, i) + PollInterval * i
  }

  /** When health check `i` returns. */
  function ReturnedAt(o: Oracle, i: nat): nat {
    SentAt(o, i) + o.latency(i)
  }

  /** From check `i` on: the loop stops at the first check that is healthy
      or returns after the deadline, and it is `Ready` exactly when that
      check was healthy; it never sends more than `MaxProbes` checks. */
  lemma {:induction false} PollFromFacts(o: Oracle, i: nat)
    requires SentAt(o, i) <= PollDeadline + PollInterval
    ensures var r := PollFrom(o, i, SentAt(o, i));
      && i < r.probes <= MaxProbes
      && r.elapsed == ReturnedAt(o, r.probes - 1)
      && (r.Ready? <==> Healthy(o.answer(r.probes - 1)))
      && (r.GaveUp? ==> r.elapsed > PollDeadline)
      && (forall j :: i <= j < r.probes - 1 ==> !Healthy(o.answer(j)) && ReturnedAt(o, j) <= PollDeadline)
    decreases PollDeadline + PollInterval - PollInterval * i
  {
    var now := ReturnedAt(o, i);
    PollStep(o, i, SentAt(o, i));
    if !Healthy(o.answer(i)) && now <= PollDeadline {
      assert SentAt(o, i + 1) == now + PollInterval;
      PollFromFacts(o, i + 1);
    }
  }

  /** The whole wait: at most `MaxProbes` health checks; it ends at the
      first check that is healthy (then the server is ready) or that
      returns after more than 30 s (then the run gives up); every earlier
      check was unhealthy and returned within the 30 s. */
  lemma PollFacts(o: Oracle)
    ensures var r := Poll(o);
      && 0 < r.probes <= MaxProbes
      && r.elapsed == ReturnedAt(o, r.probes - 1)
      && (r.Ready? <==> Healthy(o.answer(r.probes - 1)))
      && (r.GaveUp? ==> r.elapsed > PollDeadline)
      && (forall j :: 0 <= j < r.probes - 1 ==> !Healthy(o.answer(j)) && ReturnedAt(o, j) <= PollDeadline)
  {
    assert SentAt(o, 0) == 0;
    PollFromFacts(o, 0);
  }

  /** A healthy first answer ends the wait at once, without a sleep. */
  lemma HealthyAtOnce(o: Oracle)
    requires Healthy(o.answer(0))
    ensures Poll(o) == Ready(1, o.latency(0))
  {
    PollStep(o, 0, 0);
  }

  lemma {:induction false} InstantSpent(o: Oracle, n: nat)
    requires forall j :: o.latency(j) == 0
    ensures Spent(o, n) == 0
  {
    if n > 0 {
      InstantSpent(o, n - 1);
    }
  }

  /** A server that answers at once but never healthily is given up on
      after exactly `MaxProbes` checks, 30.25 s after the start: the check
      that returns at exactly 30 s is followed by one more. So the bound of
      `PollFacts` is reached, and "more than 30 s" is strict. */
  lemma NeverHealthyGivesUpAtBound(o: Oracle)
    requires forall j :: o.latency(j) == 0 && !Healthy(o.answer(j))
    ensures Poll(o) == GaveUp(MaxProbes, PollDeadline + PollInterval)
  {
    PollFacts(o);
    var r := Poll(o);
    var last := r.probes - 1;
    assert MaxProbes == 122;
    assert !Healthy(o.answer(last));
    InstantSpent(o, last);
    assert o.latency(last) == 0;
    assert ReturnedAt(o, last) == PollInterval * last;
    assert last == 121;
  }

  // ---------------------------------------------------------------------
  // The steps before the markers
  // ---------------------------------------------------------------------

  /** The build calls `t.Fatal` in this run. */
  predicate BuildFails(c: Ctx, o: Oracle) {
    !c.built && !o.buildOk
  }

  /** The address query calls `t.Fatal` in this run. */
  predicate QueryFails(c: Ctx, o: Oracle) {
    |c.ip| == 0 && o.machineActive.CmdOk? && o.machineIp.CmdErr?
  }

  /** `docker-compose up -d` is started and succeeds, so `down` is registered. */
  predicate Upped(c: Ctx, o: Oracle) {
    !BuildFails(c, o) && !QueryFails(c, o) && o.upOk
  }

  /** The log follower is started in this run and fails to start. */
  predicate LogsFail(c: Ctx, o: Oracle) {
    !c.logFile && !o.logsStartOk
  }

  /** The run gets to compose.go:68: it is numbered and polls the server. */
  predicate Numbered(c: Ctx, o: Oracle) {
    Upped(c, o) && !LogsFail(c, o)
  }

  /** The events of each step before the markers, when that step is reached. */
  function BuildEvents(c: Ctx, o: Oracle): seq<Event> {
    if c.built then [] else [Built] + (if o.buildOk then [] else [Fatal(BuildFailed)])
  }

  function AddressEvents(c: Ctx, o: Oracle): seq<Event> {
    if |c.ip| > 0 then []
    else if o.machineActive.CmdErr? then [MachineActive]
    else [MachineActive, MachineIp(MachineName(o.machineActive))] + (if o.machineIp.CmdErr? then [Fatal(MachineIpFailed)] else [])
  }

  function UpEvents(o: Oracle): seq<Event> {
    [Up] + (if o.upOk then [] else [Fatal(UpFailed)])
  }

  function LogEvents(c: Ctx, o: Oracle): seq<Event> {
    if c.logFile then [] else [LogCreated, LogsFollowed] + (if o.logsStartOk then [] else [Fatal(LogsFailed)])
  }

  /** The events up to the log follower: each step in order, up to the
      first that fails. */
  function SetUpEvents(c: Ctx, o: Oracle): seq<Event> {
    if BuildFails(c, o) then BuildEvents(c, o)
    else if QueryFails(c, o) then BuildEvents(c, o) + AddressEvents(c, o)
    else if !o.upOk then BuildEvents(c, o) + AddressEvents(c, o) + UpEvents(o)
    else BuildEvents(c, o) + AddressEvents(c, o) + UpEvents(o) + LogEvents(c, o)
  }

  /** The address a context holding `ip` holds after the address step. */
  function Resolve(ip: string, o: Oracle): string {
    if |ip| > 0 then ip
    else match ResolvedIp(o.machineActive, o.machineIp)
      case None => ip
      case Some(addr) => addr
  }

  /** The context after the steps up to the log follower. */
  function SetUpCtx(c: Ctx, o: Oracle): Ctx {
    c.(built := c.built || o.buildOk,
       ip := if BuildFails(c, o) then c.ip else Resolve(c.ip, o),
       logFile := c.logFile || Upped(c, o),
       log := if Upped(c, o) && !c.logFile then [] else c.log)
  }

  /** The first `t.Fatal` of the steps up to the log follower. */
  function SetUpFailure(c: Ctx, o: Oracle): Option<Reason> {
    if BuildFails(c, o) then Some(BuildFailed)
    else if QueryFails(c, o) then Some(MachineIpFailed)
    else if !o.upOk then Some(UpFailed)
    else if LogsFail(c, o) then Some(LogsFailed)
    else None
  }

  lemma BuildStep(p: Progress, o: Oracle)
    requires p.failure.None?
    ensures var r := BuildStage(p, o);
      && r.trace == p.trace + BuildEvents(p.ctx, o)
      && r.ctx == p.ctx.(built := p.ctx.built || o.buildOk)
      && r.failure == (if BuildFails(p.ctx, o) then Some(BuildFailed) else None)
  {
  }

  lemma IpStep(p: Progress, o: Oracle)
    requires p.failure.None?
    ensures var r := IpStage(p, o);
      && r.trace == p.trace + AddressEvents(p.ctx, o)
      && r.ctx == p.ctx.(ip := Resolve(p.ctx.ip, o))
      && r.failure == (if QueryFails(p.ctx, o) then Some(MachineIpFailed) else None)
  {
    if |p.ctx.ip| == 0 && o.machineActive.CmdOk? {
      var queried := Emit(Emit(p, MachineActive), MachineIp(MachineName(o.machineActive)));
      assert queried.trace == p.trace + [MachineActive, MachineIp(MachineName(o.machineActive))];
    }
  }

  lemma UpStep(p: Progress, o: Oracle)
    requires p.failure.None?
    ensures var r := UpStage(p, o);
      && r.trace == p.trace + UpEvents(o)
      && r.failure == (if o.upOk then None else Some(UpFailed))
  {
  }

  lemma LogStep(p: Progress, o: Oracle)
    requires p.failure.None?
    ensures var r := LogStage(p, o);
      && r.trace == p.trace + LogEvents(p.ctx, o)
      && r.ctx == p.ctx.(logFile := true, log := if p.ctx.logFile then p.ctx.log else [])
      && r.failure == (if LogsFail(p.ctx, o) then Some(LogsFailed) else None)
  {
    if !p.ctx.logFile {
      var created := Emit(p, LogCreated).(ctx := p.ctx.(logFile := true, log := []));
      assert Emit(created, LogsFollowed).trace == p.trace + [LogCreated, LogsFollowed];
    }
  }

  /** The stages of the set-up, as `SetUp` chains them. */
  function BuiltStage(c: Ctx, o: Oracle): Progress {
    BuildStage(Progress(c, [], [], None), o)
  }

  function AddressedStage(c: Ctx, o: Oracle): Progress {
    IpStage(BuiltStage(c, o), o)
  }

  function UpStageOf(c: Ctx, o: Oracle): Progress {
    UpStage(AddressedStage(c, o), o)
  }

  lemma BuiltFacts(c: Ctx, o: Oracle)
    ensures var b := BuiltStage(c, o);
      && b.trace == BuildEvents(c, o)
      && b.ctx == c.(built := c.built || o.buildOk)
      && b.failure == (if BuildFails(c, o) then Some(BuildFailed) else None)
      && b.defers == []
  {
    BuildStep(Progress(c, [], [], None), o);
  }

  lemma AddressedFacts(c: Ctx, o: Oracle)
    requires !BuildFails(c, o)
    ensures var a := AddressedStage(c, o);
      && a.trace == BuildEvents(c, o) + AddressEvents(c, o)
      && a.ctx == c.(built := c.built || o.buildOk, ip := Resolve(c.ip, o))
      && a.failure == (if QueryFails(c, o) then Some(MachineIpFailed) else None)
      && a.defers == []
  {
    BuiltFacts(c, o);
    IpStep(BuiltStage(c, o), o);
  }

  lemma UpFacts(c: Ctx, o: Oracle)
    requires !BuildFails(c, o) && !QueryFails(c, o)
    ensures var u := UpStageOf(c, o);
      && u.trace == BuildEvents(c, o) + AddressEvents(c, o) + UpEvents(o)
      && u.ctx == c.(built := c.built || o.buildOk, ip := Resolve(c.ip, o))
      && u.failure == (if o.upOk then None else Some(UpFailed))
      && u.defers == (if o.upOk then [ComposeDown] else [])
  {
    AddressedFacts(c, o);
    UpStep(AddressedStage(c, o), o);
  }

  lemma LoggedFacts(c: Ctx, o: Oracle)
    requires Upped(c, o)
    ensures var S := SetUp(c, o);
      && S.trace == SetUpEvents(c, o)
      && S.ctx == SetUpCtx(c, o)
      && S.failure == SetUpFailure(c, o)
      && S.defers == [ComposeDown]
  {
    UpFacts(c, o);
    LogStep(UpStageOf(c, o), o);
    assert SetUp(c, o) == LogStage(UpStageOf(c, o), o);
  }

  /** The steps up to the log follower, all of them: the events, the context
      they leave, the `t.Fatal` they call and the deferred actions. */
  lemma SetUpEffect(c: Ctx, o: Oracle)
    ensures var S := SetUp(c, o);
      && S.trace == SetUpEvents(c, o)
      && S.ctx == SetUpCtx(c, o)
      && S.failure == SetUpFailure(c, o)
      && S.defers == (if Upped(c, o) then [ComposeDown] else [])
  {
    if BuildFails(c, o) {
      BuiltFacts(c, o);
      assert SetUp(c, o) == BuiltStage(c, o);
    } else if QueryFails(c, o) {
      AddressedFacts(c, o);
      assert SetUp(c, o) == AddressedStage(c, o);
    } else if !o.upOk {
      UpFacts(c, o);
      assert SetUp(c, o) == UpStageOf(c, o);
    } else {
      LoggedFacts(c, o);
    }
  }

  // ---------------------------------------------------------------------
  // The deferred actions
  // ---------------------------------------------------------------------

  /** The events and the `t.Fatal` of the deferred `down`. */
  function DownEvents(o: Oracle): seq<Event> {
    [Down] + (if o.downOk then [] else [Fatal(DownFailed)])
  }

  function DownFailure(o: Oracle): Option<Reason> {
    if o.downOk then None else Some(DownFailed)
  }

  lemma UnwindDown(p: Progress, o: Oracle)
    requires p.defers == [ComposeDown]
    ensures var r := Unwind(p, o);
      && r.ctx == p.ctx
      && r.trace == p.trace + DownEvents(o)
      && r.failure == FirstOf(p.failure, DownFailure(o))
  {
    var q := RunDeferred(ComposeDown, p.(defers := []), o);
    assert Unwind(p, o) == Unwind(q, o);
  }

  /** A numbered run: the end marker with the number fixed at registration,
      then `down`. */
  lemma UnwindNumbered(p: Progress, o: Oracle, n: nat)
    requires p.defers == [ComposeDown, WriteEndMarker(n)]
    ensures var r := Unwind(p, o);
      && r.ctx == p.ctx.(log := p.ctx.log + [EndMarker(n)])
      && r.trace == p.trace + [Wrote(EndMarker(n))] + DownEvents(o)
      && r.failure == FirstOf(p.failure, DownFailure(o))
  {
    var q := Write(p.(defers := [ComposeDown]), EndMarker(n));
    assert p.defers[..1] == [ComposeDown];
    assert Unwind(p, o) == Unwind(q, o);
    UnwindDown(q, o);
  }

  // ---------------------------------------------------------------------
  // The numbered part of a run
  // ---------------------------------------------------------------------

  /** What happens after the health checks: the test function with the
      cached address if the server became ready, else the `t.Fatal` for the
      timeout. */
  function AfterPoll(ip: string, o: Oracle): seq<Event> {
    if Poll(o).GaveUp? then [Fatal(ServerTimedOut)]
    else [TestFunc(ip)] + (if o.funcFails then [Fatal(TestFuncFatal)] else [])
  }

  function TestFailure(o: Oracle): Option<Reason> {
    if Poll(o).GaveUp? then Some(ServerTimedOut)
    else if o.funcFails then Some(TestFuncFatal)
    else None
  }

  /** Where the numbered part leaves `RunTest`. */
  function Tested(S: Progress, o: Oracle): Progress {
    var polled := PollStage(MarkerStage(S), o);
    if polled.failure.Some? then polled else FuncStage(polled, o)
  }

  lemma TestedState(S: Progress, o: Oracle)
    requires S.failure.None?
    ensures var q, n := Tested(S, o), S.ctx.testNum + 1;
      && q.ctx == S.ctx.(testNum := n, log := S.ctx.log + [StartMarker(n)])
      && q.defers == S.defers + [WriteEndMarker(n)]
      && q.failure == TestFailure(o)
  {
  }

  lemma TestedTrace(S: Progress, o: Oracle)
    requires S.failure.None?
    ensures var n := S.ctx.testNum + 1;
      Tested(S, o).trace == S.trace + [Wrote(StartMarker(n))] + Probes(S.ctx.ip, Poll(o).probes) + AfterPoll(S.ctx.ip, o)
  {
    var n := S.ctx.testNum + 1;
    var m := MarkerStage(S);
    var probed := m.trace + Probes(S.ctx.ip, Poll(o).probes);
    assert PollStage(m, o).trace == probed + (if Poll(o).GaveUp? then [Fatal(ServerTimedOut)] else []);
    if Poll(o).Ready? {
      var ran := probed + [TestFunc(S.ctx.ip)];
      assert Tested(S, o).trace == ran + (if o.funcFails then [Fatal(TestFuncFatal)] else []);
    }
  }

  // ---------------------------------------------------------------------
  // A whole run
  // ---------------------------------------------------------------------

  function Leaving(c: Ctx, o: Oracle): Progress {
    var S := SetUp(c, o);
    if S.failure.Some? then S else Tested(S, o)
  }

  lemma RunIsFinish(c: Ctx, o: Oracle)
    requires !o.short
    ensures RunSpec(c, o) == Finish(Leaving(c, o), o)
  {
  }

  /** In short mode the run is skipped before anything happens. */
  lemma ShortRunSkips(c: Ctx, o: Oracle)
    requires o.short
    ensures RunSpec(c, o) == RunResult(c, Skipped, [])
  {
  }

  /** A run whose `up -d` is not reached or fails: nothing is deferred, so
      no `down` runs; it ends where it failed, with that reason. */
  lemma RunWithoutUp(c: Ctx, o: Oracle)
    requires !o.short && !Upped(c, o)
    ensures var r := RunSpec(c, o);
      && r.ctx == SetUpCtx(c, o)
      && r.trace == SetUpEvents(c, o)
      && Down !in r.trace
      && r.outcome == Failed(SetUpFailure(c, o).value)
  {
    SetUpEffect(c, o);
    RunIsFinish(c, o);
    NoDownBeforeUp(c, o);
  }

  lemma NoDownBeforeUp(c: Ctx, o: Oracle)
    requires !Upped(c, o)
    ensures Down !in SetUpEvents(c, o)
  {
    var b, a, u := BuildEvents(c, o), AddressEvents(c, o), UpEvents(o);
    assert Down !in b && Down !in a && Down !in u;
    assert forall x :: x in b + a + u ==> x in b || x in a || x in u;
  }

  /** A run whose log follower fails to start: `down` still runs. */
  lemma RunWithFailedLogs(c: Ctx, o: Oracle)
    requires !o.short && Upped(c, o) && LogsFail(c, o)
    ensures var r := RunSpec(c, o);
      && r.ctx == SetUpCtx(c, o)
      && r.trace == SetUpEvents(c, o) + DownEvents(o)
      && r.outcome == Failed(LogsFailed)
  {
    LoggedFacts(c, o);
    RunIsFinish(c, o);
    UnwindDown(SetUp(c, o), o);
  }

  /** The numbered part and the deferred actions after a successful set-up:
      the context, ... */
  lemma FinishTestedState(S: Progress, o: Oracle)
    requires S.failure.None? && S.defers == [ComposeDown]
    ensures var n := S.ctx.testNum + 1;
      Finish(Tested(S, o), o).ctx == S.ctx.(testNum := n, log := S.ctx.log + [StartMarker(n)] + [EndMarker(n)])
  {
    var n := S.ctx.testNum + 1;
    TestedState(S, o);
    UnwindNumbered(Tested(S, o), o, n);
  }

  /** ... the events ... */
  lemma FinishTestedTrace(S: Progress, o: Oracle)
    requires S.failure.None? && S.defers == [ComposeDown]
    ensures var n, ip := S.ctx.testNum + 1, S.ctx.ip;
      Finish(Tested(S, o), o).trace
      == S.trace + [Wrote(StartMarker(n))] + Probes(ip, Poll(o).probes) + AfterPoll(ip, o) + [Wrote(EndMarker(n))] + DownEvents(o)
  {
    var n := S.ctx.testNum + 1;
    TestedState(S, o);
    TestedTrace(S, o);
    UnwindNumbered(Tested(S, o), o, n);
  }

  /** ... and the outcome. */
  lemma FinishTestedOutcome(S: Progress, o: Oracle)
    requires S.failure.None? && S.defers == [ComposeDown]
    ensures Finish(Tested(S, o), o).outcome == OutcomeOf(FirstOf(TestFailure(o), DownFailure(o)))
  {
    TestedState(S, o);
    UnwindNumbered(Tested(S, o), o, S.ctx.testNum + 1);
  }

  /** A numbered run leaves the set-up without a `t.Fatal`, with `down`
      registered and the set-up's context. */
  lemma NumberedSetUp(c: Ctx, o: Oracle)
    requires Numbered(c, o)
    ensures var S := SetUp(c, o);
      S.failure.None? && S.defers == [ComposeDown] && S.ctx == SetUpCtx(c, o)
  {
    LoggedFacts(c, o);
  }

  lemma NumberedIsFinish(c: Ctx, o: Oracle)
    requires !o.short && Numbered(c, o)
    ensures RunSpec(c, o) == Finish(Tested(SetUp(c, o), o), o)
  {
    NumberedSetUp(c, o);
  }

  /** A numbered run: the sequence number goes up by one and the log gets
      the start and the end marker with that number. */
  lemma NumberedRunState(c: Ctx, o: Oracle)
    requires !o.short && Numbered(c, o)
    ensures var r, want, n := RunSpec(c, o), SetUpCtx(c, o), c.testNum + 1;
      r.ctx == want.(testNum := n, log := want.log + [StartMarker(n), EndMarker(n)])
  {
    var S, n := SetUp(c, o), c.testNum + 1;
    NumberedSetUp(c, o);
    NumberedIsFinish(c, o);
    FinishTestedState(S, o);
    Renumber(RunSpec(c, o).ctx, S.ctx, SetUpCtx(c, o), S.ctx.testNum + 1, n);
  }

  /** Replaces equals by equals in a numbered run's context. */
  lemma Renumber(r: Ctx, s: Ctx, s': Ctx, n: nat, n': nat)
    requires r == s.(testNum := n, log := s.log + [StartMarker(n)] + [EndMarker(n)])
    requires s == s' && n == n'
    ensures r == s'.(testNum := n', log := s'.log + [StartMarker(n'), EndMarker(n')])
  {
    assert s.log + [StartMarker(n)] + [EndMarker(n)] == s.log + [StartMarker(n), EndMarker(n)];
  }

  /** The trace of a numbered run: the set-up, the start marker, the health
      checks against the cached address, the test function (only after a
      healthy check) or the timeout, the end marker, and `down`. */
  lemma NumberedRunTrace(c: Ctx, o: Oracle)
    requires !o.short && Numbered(c, o)
    ensures var r, n, ip := RunSpec(c, o), c.testNum + 1, SetUpCtx(c, o).ip;
      r.trace == SetUpEvents(c, o) + [Wrote(StartMarker(n))] + Probes(ip, Poll(o).probes) + AfterPoll(ip, o)
                 + [Wrote(EndMarker(n))] + DownEvents(o)
  {
    var S := SetUp(c, o);
    NumberedSetUp(c, o);
    NumberedIsFinish(c, o);
    FinishTestedTrace(S, o);
    SetUpTraceIs(c, o);
    Reassemble(RunSpec(c, o).trace, S.trace, SetUpEvents(c, o), S.ctx.testNum + 1, c.testNum + 1,
               S.ctx.ip, SetUpCtx(c, o).ip, o);
  }

  /** Replaces equals by equals in a numbered run's trace. */
  lemma Reassemble(t: seq<Event>, s: seq<Event>, s': seq<Event>, n: nat, n': nat, ip: string, ip': string, o: Oracle)
    requires t == s + [Wrote(StartMarker(n))] + Probes(ip, Poll(o).probes) + AfterPoll(ip, o) + [Wrote(EndMarker(n))] + DownEvents(o)
    requires s == s' && n == n' && ip == ip'
    ensures t == s' + [Wrote(StartMarker(n'))] + Probes(ip', Poll(o).probes) + AfterPoll(ip', o) + [Wrote(EndMarker(n'))] + DownEvents(o)
  {
  }

  lemma SetUpTraceIs(c: Ctx, o: Oracle)
    ensures SetUp(c, o).trace == SetUpEvents(c, o)
  {
    SetUpEffect(c, o);
  }

  lemma NumberedRunOutcome(c: Ctx, o: Oracle)
    requires !o.short && Numbered(c, o)
    ensures RunSpec(c, o).outcome == OutcomeOf(FirstOf(TestFailure(o), DownFailure(o)))
  {
    NumberedSetUp(c, o);
    NumberedIsFinish(c, o);
    FinishTestedOutcome(SetUp(c, o), o);
  }

  /** The first `t.Fatal` of a run that is not skipped. */
  function RunFailure(c: Ctx, o: Oracle): Option<Reason> {
    if !Upped(c, o) then SetUpFailure(c, o)
    else FirstOf(if LogsFail(c, o) then Some(LogsFailed) else TestFailure(o), DownFailure(o))
  }

  lemma RunOutcome(c: Ctx, o: Oracle)
    ensures RunSpec(c, o).outcome == if o.short then Skipped else OutcomeOf(RunFailure(c, o))
  {
    if !o.short {
      if !Upped(c, o) {
        RunWithoutUp(c, o);
      } else if LogsFail(c, o) {
        RunWithFailedLogs(c, o);
      } else {
        NumberedRunOutcome(c, o);
      }
    }
  }

  /** A run passes exactly when it is not skipped and every step succeeds:
      the build if still needed, the address query if still needed, `up`,
      the log follower if started now, the wait for a healthy server, the
      test function and `down`. */
  lemma PassedIff(c: Ctx, o: Oracle)
    ensures RunSpec(c, o).outcome == Passed
            <==> && !o.short && (c.built || o.buildOk) && !QueryFails(c, o) && o.upOk
                 && (c.logFile || o.logsStartOk) && Poll(o).Ready? && !o.funcFails && o.downOk
  {
    RunOutcome(c, o);
  }

  /** `down` runs, last, exactly when `up -d` succeeded. */
  lemma DownPairsWithUp(c: Ctx, o: Oracle)
    requires !o.short
    ensures var r := RunSpec(c, o);
      && (Upped(c, o) ==> exists before :: r.trace == before + DownEvents(o))
      && (!Upped(c, o) ==> Down !in r.trace)
  {
    if !Upped(c, o) {
      RunWithoutUp(c, o);
    } else if LogsFail(c, o) {
      RunWithFailedLogs(c, o);
    } else {
      NumberedEndsWithDown(c, o);
    }
  }

  lemma NumberedEndsWithDown(c: Ctx, o: Oracle)
    requires !o.short && Numbered(c, o)
    ensures exists before :: RunSpec(c, o).trace == before + DownEvents(o)
  {
    NumberedRunTrace(c, o);
    var n, ip := c.testNum + 1, SetUpCtx(c, o).ip;
    EndsWith(RunSpec(c, o).trace, SetUpEvents(c, o) + [Wrote(StartMarker(n))] + Probes(ip, Poll(o).probes) + AfterPoll(ip, o)
             + [Wrote(EndMarker(n))], DownEvents(o));
  }

  lemma EndsWith(t: seq<Event>, before: seq<Event>, tail: seq<Event>)
    requires t == before + tail
    ensures exists b :: t == b + tail
  {
  }

  /** The test function runs only after a healthy health check: when the
      run reaches it, the last check was healthy and every earlier one not. */
  lemma FuncOnlyWhenHealthy(c: Ctx, o: Oracle)
    requires !o.short && Numbered(c, o) && Poll(o).Ready?
    ensures var k := Poll(o).probes;
      && 0 < k <= MaxProbes
      && Healthy(o.answer(k - 1))
      && (forall j :: 0 <= j < k - 1 ==> !Healthy(o.answer(j)))
      && AfterPoll(SetUpCtx(c, o).ip, o)[0] == TestFunc(SetUpCtx(c, o).ip)
  {
    PollFacts(o);
  }

  // ---------------------------------------------------------------------
  // Which events a run shows
  // ---------------------------------------------------------------------

  /** The events after the set-up: nothing without `up -d`; only `down`
      when the log follower fails; else the markers, the health checks, the
      test function or the timeout, and `down`. */
  function RunTail(c: Ctx, o: Oracle): seq<Event> {
    if !Upped(c, o) then []
    else if LogsFail(c, o) then DownEvents(o)
    else
      var n, ip := c.testNum + 1, SetUpCtx(c, o).ip;
      [Wrote(StartMarker(n))] + Probes(ip, Poll(o).probes) + AfterPoll(ip, o) + [Wrote(EndMarker(n))] + DownEvents(o)
  }

  /** The events of the set-up steps. */
  predicate Early(e: Event) {
    e.Built? || e.MachineActive? || e.MachineIp? || e.Up? || e.LogCreated? || e.LogsFollowed? || e.Fatal?
  }

  /** The events after the set-up steps. */
  predicate Late(e: Event) {
    e.Wrote? || e.Probe? || e.TestFunc? || e.Down? || e.Fatal?
  }

  /** Regroups a numbered run's trace as its set-up and its tail. */
  lemma Regroup(t: seq<Event>, s: seq<Event>, a: seq<Event>, b: seq<Event>, c: seq<Event>, d: seq<Event>, e: seq<Event>)
    requires t == s + a + b + c + d + e
    ensures t == s + (a + b + c + d + e)
  {
  }

  lemma NumberedTail(c: Ctx, o: Oracle)
    requires Numbered(c, o)
    ensures var n, ip := c.testNum + 1, SetUpCtx(c, o).ip;
      RunTail(c, o) == [Wrote(StartMarker(n))] + Probes(ip, Poll(o).probes) + AfterPoll(ip, o) + [Wrote(EndMarker(n))] + DownEvents(o)
  {
  }

  /** A run that is not skipped is its set-up followed by its tail. */
  lemma RunTraceSplit(c: Ctx, o: Oracle)
    requires !o.short
    ensures RunSpec(c, o).trace == SetUpEvents(c, o) + RunTail(c, o)
  {
    if !Upped(c, o) {
      UnuppedSplit(c, o);
    } else if LogsFail(c, o) {
      RunWithFailedLogs(c, o);
    } else {
      NumberedRunTrace(c, o);
      NumberedTail(c, o);
      var n, ip := c.testNum + 1, SetUpCtx(c, o).ip;
      Regroup(RunSpec(c, o).trace, SetUpEvents(c, o), [Wrote(StartMarker(n))], Probes(ip, Poll(o).probes),
              AfterPoll(ip, o), [Wrote(EndMarker(n))], DownEvents(o));
    }
  }

  lemma UnuppedSplit(c: Ctx, o: Oracle)
    requires !o.short && !Upped(c, o)
    ensures RunSpec(c, o).trace == SetUpEvents(c, o) + RunTail(c, o)
  {
    RunWithoutUp(c, o);
    assert RunTail(c, o) == [];
    assert SetUpEvents(c, o) + [] == SetUpEvents(c, o);
  }

  /** An event that the tail does not hold is in a run exactly when the
      set-up holds it. */
  lemma InSetUpPart(t: seq<Event>, s: seq<Event>, tail: seq<Event>, x: Event)
    requires t == s + tail && x !in tail
    ensures x in t <==> x in s
  {
  }

  lemma {:induction false} ProbesAre(ip: string, n: nat)
    ensures forall e :: e in Probes(ip, n) ==> e == Probe(ip)
  {
    if n > 0 {
      ProbesAre(ip, n - 1);
    }
  }

  lemma SetUpIsEarly(c: Ctx, o: Oracle)
    ensures forall e :: e in SetUpEvents(c, o) ==> Early(e)
  {
    var b, a, u, l := BuildEvents(c, o), AddressEvents(c, o), UpEvents(o), LogEvents(c, o);
    assert forall e :: e in b ==> Early(e);
    assert forall e :: e in a ==> Early(e);
    assert forall e :: e in u ==> Early(e);
    assert forall e :: e in l ==> Early(e);
  }

  lemma TailIsLate(c: Ctx, o: Oracle)
    ensures forall e :: e in RunTail(c, o) ==> Late(e)
  {
    if Numbered(c, o) {
      var n, ip := c.testNum + 1, SetUpCtx(c, o).ip;
      ProbesAre(ip, Poll(o).probes);
      var x, y, z := Probes(ip, Poll(o).probes), AfterPoll(ip, o), DownEvents(o);
      assert forall e :: e in x ==> Late(e);
      assert forall e :: e in y ==> Late(e);
      assert forall e :: e in z ==> Late(e);
    }
  }

  /** The test function appears in the tail exactly when the run is
      numbered and the server became healthy, and then with the cached
      address. */
  lemma FuncInTail(c: Ctx, o: Oracle, x: string)
    ensures TestFunc(x) in RunTail(c, o) <==> Numbered(c, o) && Poll(o).Ready? && x == SetUpCtx(c, o).ip
  {
    if Numbered(c, o) {
      var n, ip := c.testNum + 1, SetUpCtx(c, o).ip;
      ProbesAre(ip, Poll(o).probes);
      var w, p, y, v, z := [Wrote(StartMarker(n))], Probes(ip, Poll(o).probes), AfterPoll(ip, o), [Wrote(EndMarker(n))], DownEvents(o);
      assert RunTail(c, o) == w + p + y + v + z;
      assert TestFunc(x) !in w && TestFunc(x) !in p && TestFunc(x) !in v && TestFunc(x) !in z;
      assert TestFunc(x) in y <==> Poll(o).Ready? && x == ip;
    }
  }

  /** The test function runs exactly when the run is numbered and a health
      check was healthy before the deadline, and it gets the cached
      address; no other run calls it. */
  lemma TestFuncIffHealthy(c: Ctx, o: Oracle, x: string)
    ensures TestFunc(x) in RunSpec(c, o).trace
            <==> !o.short && Numbered(c, o) && Poll(o).Ready? && x == SetUpCtx(c, o).ip
  {
    if !o.short {
      RunTraceSplit(c, o);
      SetUpIsEarly(c, o);
      FuncInTail(c, o, x);
      assert TestFunc(x) !in SetUpEvents(c, o);
    }
  }

  /** Which one-time steps a run performs, read off its events: the build
      exactly when not built yet, the address query exactly when no address
      is cached and the build did not fail, and the log file and follower
      exactly when there is no log file and `up -d` succeeded. */
  lemma OneTimeEvents(c: Ctx, o: Oracle)
    requires !o.short
    ensures var t := RunSpec(c, o).trace;
      && (Built in t <==> !c.built)
      && (MachineActive in t <==> |c.ip| == 0 && !BuildFails(c, o))
      && (LogCreated in t <==> !c.logFile && Upped(c, o))
      && (LogsFollowed in t <==> !c.logFile && Upped(c, o))
  {
    var t, s, tail := RunSpec(c, o).trace, SetUpEvents(c, o), RunTail(c, o);
    RunTraceSplit(c, o);
    TailIsLate(c, o);
    assert !Late(Built) && !Late(MachineActive) && !Late(LogCreated) && !Late(LogsFollowed);
    InSetUpPart(t, s, tail, Built);
    InSetUpPart(t, s, tail, MachineActive);
    InSetUpPart(t, s, tail, LogCreated);
    InSetUpPart(t, s, tail, LogsFollowed);
    SetUpShowsSteps(c, o);
  }

  /** The same, for the set-up's events. */
  lemma SetUpShowsSteps(c: Ctx, o: Oracle)
    ensures var s := SetUpEvents(c, o);
      && (Built in s <==> !c.built)
      && (MachineActive in s <==> |c.ip| == 0 && !BuildFails(c, o))
      && (LogCreated in s <==> !c.logFile && Upped(c, o))
      && (LogsFollowed in s <==> !c.logFile && Upped(c, o))
  {
    var b, a, u, l := BuildEvents(c, o), AddressEvents(c, o), UpEvents(o), LogEvents(c, o);
    assert Built in b <==> !c.built;
    assert Built !in a && Built !in u && Built !in l;
    assert MachineActive in a <==> |c.ip| == 0;
    assert MachineActive !in b && MachineActive !in u && MachineActive !in l;
    assert LogCreated in l <==> !c.logFile;
    assert LogCreated !in b && LogCreated !in a && LogCreated !in u;
    assert LogsFollowed in l <==> !c.logFile;
    assert LogsFollowed !in b && LogsFollowed !in a && LogsFollowed !in u;
  }

  /** A run moves the context forward: it evolves, the sequence number
      goes up by one exactly when the run is numbered, and the build flag
      is set exactly when a build has succeeded. */
  lemma RunEvolves(c: Ctx, o: Oracle)
    ensures var r := RunSpec(c, o);
      && Evolves(c, r.ctx)
      && r.ctx.testNum == c.testNum + (if !o.short && Numbered(c, o) then 1 else 0)
      && (!o.short ==> (r.ctx.built <==> c.built || o.buildOk))
  {
    if !o.short {
      if !Upped(c, o) {
        RunWithoutUp(c, o);
      } else if LogsFail(c, o) {
        RunWithFailedLogs(c, o);
      } else {
        NumberedRunState(c, o);
      }
    }
  }

  // ---------------------------------------------------------------------
  // Several runs with one context
  // ---------------------------------------------------------------------

  /** The context after the runs `os`, one after the other. */
  function AfterRuns(c: Ctx, os: seq<Oracle>): Ctx
    decreases |os|
  {
    if os == [] then c else AfterRuns(RunSpec(c, os[0]).ctx, os[1..])
  }

  lemma {:induction false} RunsEvolve(c: Ctx, os: seq<Oracle>)
    ensures Evolves(c, AfterRuns(c, os))
    ensures AfterRuns(c, os).testNum <= c.testNum + |os|
    decreases |os|
  {
    if os != [] {
      RunEvolves(c, os[0]);
      RunsEvolve(RunSpec(c, os[0]).ctx, os[1..]);
    }
  }

  lemma {:induction false} AfterRunsSplit(c: Ctx, os: seq<Oracle>, k: nat)
    requires k <= |os|
    ensures AfterRuns(c, os) == AfterRuns(AfterRuns(c, os[..k]), os[k..])
    decreases k
  {
    if k == 0 {
      assert os[..0] == [] && os[0..] == os;
    } else {
      AfterRunsSplit(RunSpec(c, os[0]).ctx, os[1..], k - 1);
      assert os[..k][0] == os[0] && os[..k][1..] == os[1..][..k - 1];
      assert os[1..][k - 1..] == os[k..];
    }
  }

  /** Once a run has built the project, no later run builds it; once an
      address is cached, later runs keep it without a query; once the log
      file exists, later runs neither recreate it nor restart the follower. */
  lemma OneTimeAcrossRuns(c: Ctx, os: seq<Oracle>, i: nat, j: nat)
    requires i < j < |os|
    ensures var done, r := AfterRuns(c, os[..i + 1]), RunSpec(AfterRuns(c, os[..j]), os[j]);
      && (done.built ==> Built !in r.trace && r.ctx.built)
      && (|done.ip| > 0 ==> MachineActive !in r.trace && r.ctx.ip == done.ip)
      && (done.logFile ==> LogCreated !in r.trace && LogsFollowed !in r.trace && r.ctx.logFile)
  {
    var done := AfterRuns(c, os[..i + 1]);
    var before := AfterRuns(c, os[..j]);
    AfterRunsSplit(c, os[..j], i + 1);
    assert os[..j][..i + 1] == os[..i + 1];
    RunsEvolve(done, os[..j][i + 1..]);
    assert Evolves(done, before);
    RunEvolves(before, os[j]);
    if !os[j].short {
      OneTimeEvents(before, os[j]);
    }
  }
}
