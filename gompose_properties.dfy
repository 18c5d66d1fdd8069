/** What a run of the newer harness (gompose_testing.go) promises, stated
    about the specification `RunSpec` that `TestContext.Run` is proved to
    perform: the short-mode skip, the one-time steps and the evidence of
    them in the trace, the sequence number and its markers, the order of
    the per-run callbacks, the test body and the deferred actions, the
    shutdown protocol, the outcome, and what holds over a whole session of
    runs sharing one context. */
module GomposeTestingProperties {
  import opened Harness
  import opened GomposeTesting

  // ---------------------------------------------------------------------
  // Reference descriptions of the pieces of a run
  // ---------------------------------------------------------------------

  /** The set-up succeeds exactly when every one-time step still to do
      succeeds: the before-callbacks (unless they already ran), the address
      query (unless an address is cached or no machine is active), and the
      pull (unless the images were pulled). */
  predicate SetUpSucceeds(c: Ctx, o: Oracle) {
    && (c.beforeCallbackRan || FirstFailing(o.beforeFails, 0, |c.beforeCallbacks|).None?)
    && (|c.ip| > 0 || o.machineActive.CmdErr? || o.machineIp.CmdOk?)
    && (c.pulled || o.pull.CmdOk?)
  }

  /** A run that gets as far as a running `docker-compose up`. */
  predicate Started(c: Ctx, o: Oracle) {
    !o.short && SetUp(c, o).failure.None? && o.startOk
  }

  /** The events of the deferred shutdown, written out per branch of the
      `select`. */
  function ShutdownEvents(o: Oracle): seq<Event> {
    if !o.signalOk then [Interrupt, Fatal(SignalFailed)]
    else if o.wait == TimedOut then
      [Interrupt, Kill, Fatal(if o.killOk then KilledOnTimeout else KillFailed)]
    else
      [Interrupt] + (if o.wait == ExitedWithError then [Logged] else []) + [Rm]
      + (if o.rm.CmdErr? then [Fatal(RmFailed(o.rm.out))] else [])
  }

  /** The `t.Fatal` the shutdown calls, if any. */
  function ShutdownFailure(o: Oracle): Option<Reason> {
    if !o.signalOk then Some(SignalFailed)
    else if o.wait == TimedOut then Some(if o.killOk then KilledOnTimeout else KillFailed)
    else if o.rm.CmdErr? then Some(RmFailed(o.rm.out))
    else None
  }

  function SyncEvents(o: Oracle): seq<Event> {
    if o.syncOk then [LogSynced] else [LogSynced, Fatal(SyncFailed)]
  }

  function SyncFailure(o: Oracle): Option<Reason> {
    if o.syncOk then None else Some(SyncFailed)
  }

  /** The deferred actions of a started run, as events: the end marker of
      run `n`, the shutdown, the log sync. */
  function Epilogue(n: nat, o: Oracle): seq<Event> {
    [Wrote(EndMarker(n))] + ShutdownEvents(o) + SyncEvents(o)
  }

  // ---------------------------------------------------------------------
  // The shutdown protocol
  // ---------------------------------------------------------------------

  /** The shutdown starts with the interrupt; `rm -f` runs exactly when the
      process exited before the timer fired, a kill happens exactly when the
      timer fired, and a kill always ends in a failure. */
  lemma ShutdownOrder(o: Oracle)
    ensures ShutdownEvents(o)[0] == Interrupt
    ensures Rm in ShutdownEvents(o) <==> o.signalOk && o.wait != TimedOut
    ensures Kill in ShutdownEvents(o) <==> o.signalOk && o.wait == TimedOut
    ensures Kill in ShutdownEvents(o) ==> ShutdownFailure(o).Some?
    ensures ShutdownFailure(o).None? <==> o.signalOk && o.wait != TimedOut && o.rm.CmdOk?
  {
    var sd := ShutdownEvents(o);
    if o.signalOk && o.wait != TimedOut {
      var logged := if o.wait == ExitedWithError then [Logged] else [];
      assert sd[1 + |logged|] == Rm;
      assert Kill !in sd;
    }
  }

  /** The deferred shutdown performs exactly those events. */
  lemma ShutdownStepEvents(p: Progress, o: Oracle)
    ensures ShutdownStep(p, o).trace == p.trace + ShutdownEvents(o)
  {
    if !o.signalOk {
      SignalFailedEvents(p, o);
    } else if o.wait == TimedOut {
      KillEvents(p, o);
    } else {
      RemoveContainersEvents(Emit(p, Interrupt), o);
      var sd := ShutdownEvents(o);
      assert sd == [Interrupt] + sd[1..];
    }
  }

  /** ... and calls that `t.Fatal`, unless an earlier one decided the run. */
  lemma ShutdownStepFailure(p: Progress, o: Oracle)
    ensures ShutdownStep(p, o).failure == FirstOf(p.failure, ShutdownFailure(o))
  {
  }

  lemma SignalFailedEvents(p: Progress, o: Oracle)
    requires !o.signalOk
    ensures ShutdownStep(p, o).trace == p.trace + [Interrupt, Fatal(SignalFailed)]
  {
  }

  lemma KillEvents(p: Progress, o: Oracle)
    requires o.signalOk && o.wait == TimedOut
    ensures ShutdownStep(p, o).trace == p.trace + [Interrupt, Kill, Fatal(if o.killOk then KilledOnTimeout else KillFailed)]
  {
  }

  lemma RemoveContainersEvents(p: Progress, o: Oracle)
    requires o.signalOk && o.wait != TimedOut
    ensures RemoveContainers(p, o).trace == p.trace + ShutdownEvents(o)[1..]
  {
    var logged := if o.wait == ExitedWithError then [Logged] else [];
    var failed := if o.rm.CmdErr? then [Fatal(RmFailed(o.rm.out))] else [];
    var sd := ShutdownEvents(o);
    assert sd == [Interrupt] + logged + [Rm] + failed;
    assert sd[1..] == logged + [Rm] + failed;
    var waited := p.(trace := p.trace + logged);
    assert waited == if o.wait == ExitedWithError then Emit(p, Logged) else p;
    var removed := waited.(trace := waited.trace + [Rm]);
    assert removed == Emit(waited, Rm);
    assert removed.trace + failed == p.trace + sd[1..];
  }

  /** The deferred actions of a run that failed before `up` was started:
      only the log sync, when the log file had been reached. */
  lemma UnwindSync(p: Progress, o: Oracle)
    requires p.defers == [SyncLog]
    ensures var r := Unwind(p, o);
      && r.ctx == p.ctx && r.defers == []
      && r.trace == p.trace + SyncEvents(o)
      && r.failure == FirstOf(p.failure, SyncFailure(o))
  {
    var q := RunDeferred(SyncLog, p.(defers := []), o);
    assert Unwind(p, o) == Unwind(q, o);
  }

  /** The deferred actions of a started run, in reverse order of
      registration: the end marker (with the number the context holds when
      it runs), the shutdown, the log sync. */
  lemma {:induction false} UnwindStarted(p: Progress, o: Oracle)
    requires p.defers == [SyncLog, Shutdown, WriteEndMarker]
    ensures var r := Unwind(p, o);
      && r.ctx == p.ctx.(log := p.ctx.log + [EndMarker(p.ctx.testNum)]) && r.defers == []
      && r.trace == p.trace + Epilogue(p.ctx.testNum, o)
      && r.failure == FirstOf(FirstOf(p.failure, ShutdownFailure(o)), SyncFailure(o))
  {
    var m := EndMarker(p.ctx.testNum);
    var q1 := p.(defers := [SyncLog, Shutdown], ctx := p.ctx.(log := p.ctx.log + [m]), trace := p.trace + [Wrote(m)]);
    EndMarkerStep(p, o);
    var q2 := ShutdownStep(q1.(defers := [SyncLog]), o);
    ShutdownStepEvents(q1.(defers := [SyncLog]), o);
    ShutdownStepFailure(q1.(defers := [SyncLog]), o);
    ShutdownUnwinds(q1, o);
    UnwindSync(q2, o);
    assert Unwind(q2, o).trace == p.trace + [Wrote(m)] + ShutdownEvents(o) + SyncEvents(o);
    EpilogueAppend(p.trace, p.ctx.testNum, o);
  }

  lemma EpilogueAppend(t: seq<Event>, n: nat, o: Oracle)
    ensures t + Epilogue(n, o) == t + [Wrote(EndMarker(n))] + ShutdownEvents(o) + SyncEvents(o)
  {
  }

  lemma EndMarkerStep(p: Progress, o: Oracle)
    requires p.defers == [SyncLog, Shutdown, WriteEndMarker]
    ensures var m := EndMarker(p.ctx.testNum);
      Unwind(p, o) == Unwind(p.(defers := [SyncLog, Shutdown], ctx := p.ctx.(log := p.ctx.log + [m]), trace := p.trace + [Wrote(m)]), o)
  {
    assert p.defers[..2] == [SyncLog, Shutdown];
  }

  lemma ShutdownUnwinds(p: Progress, o: Oracle)
    requires p.defers == [SyncLog, Shutdown]
    ensures Unwind(p, o) == Unwind(ShutdownStep(p.(defers := [SyncLog]), o), o)
  {
    assert p.defers[..1] == [SyncLog];
  }

  // ---------------------------------------------------------------------
  // The one-time set-up steps
  // ---------------------------------------------------------------------

  /** A before-callback calls `t.Fatal` in this run. */
  predicate HooksFail(c: Ctx, o: Oracle) {
    !c.beforeCallbackRan && FirstFailing(o.beforeFails, 0, |c.beforeCallbacks|).Some?
  }

  /** The address query calls `t.Fatal` in this run. */
  predicate QueryFails(c: Ctx, o: Oracle) {
    |c.ip| == 0 && o.machineActive.CmdOk? && o.machineIp.CmdErr?
  }

  /** The run gets past the address step, to the log file. */
  predicate ReachesLog(c: Ctx, o: Oracle) {
    !HooksFail(c, o) && !QueryFails(c, o)
  }

  /** The before-callbacks a run calls: none once they all ran, else those
      up to the first that fails. */
  function HooksRun(c: Ctx, o: Oracle): seq<CallbackId> {
    var cbs := c.beforeCallbacks;
    if c.beforeCallbackRan then []
    else match FirstFailing(o.beforeFails, 0, |cbs|)
      case Some(k) => cbs[..k + 1]
      case None => cbs
  }

  /** The address the context holds after the set-up. */
  function AddressAfter(c: Ctx, o: Oracle): string {
    if |c.ip| > 0 || HooksFail(c, o) then c.ip
    else match ResolvedIp(o.machineActive, o.machineIp)
      case None => c.ip
      case Some(addr) => addr
  }

  /** What the log file holds after the set-up: a fresh file is empty; a
      pull writes its announcement, then "done" or the failed pull's output. */
  function LogAfter(c: Ctx, o: Oracle): seq<string> {
    if !ReachesLog(c, o) then c.log
    else
      var base := if c.logFile then c.log else [];
      if c.pulled then base
      else base + [PullingMsg, if o.pull.CmdOk? then DoneMsg else o.pull.out]
  }

  /** The one-time steps a run performs, read off the context and the oracle. */
  function SetUpShown(c: Ctx, o: Oracle): Shown {
    Shown(HooksRun(c, o), |c.ip| == 0 && !HooksFail(c, o), !c.logFile && ReachesLog(c, o), !c.pulled && ReachesLog(c, o))
  }

  /** The context after the set-up, read off the context and the oracle. */
  function SetUpCtx(c: Ctx, o: Oracle): Ctx {
    c.(beforeCallbackRan := !HooksFail(c, o),
       ip := AddressAfter(c, o),
       logFile := c.logFile || ReachesLog(c, o),
       pulled := c.pulled || (ReachesLog(c, o) && o.pull.CmdOk?),
       log := LogAfter(c, o))
  }

  /** The `t.Fatal` the set-up calls, read off the oracle: the first
      failing before-callback, else a failed address query, else a failed
      pull. */
  function SetUpFailure(c: Ctx, o: Oracle): Option<Reason> {
    if HooksFail(c, o) then Some(BeforeCallbackFatal(FirstFailing(o.beforeFails, 0, |c.beforeCallbacks|).value))
    else if QueryFails(c, o) then Some(MachineIpFailed)
    else if !c.pulled && o.pull.CmdErr? then Some(PullFailed)
    else None
  }

  /** The stages of the set-up, as `SetUp` chains them. */
  function Hooked(c: Ctx, o: Oracle): Progress {
    BeforeStage(Progress(c, [], [], None), o)
  }

  function Addressed(c: Ctx, o: Oracle): Progress {
    IpStage(Hooked(c, o), o)
  }

  function Logging(c: Ctx, o: Oracle): Progress {
    LogStage(Addressed(c, o))
  }

  lemma HookedShows(c: Ctx, o: Oracle)
    ensures ShownBy(Hooked(c, o).trace) == NothingShown.(hooks := HooksRun(c, o))
  {
    var cbs, p := c.beforeCallbacks, Progress(c, [], [], None);
    if !c.beforeCallbackRan {
      var ids := HooksRun(c, o);
      BeforeEventsShow(ids);
      EmitAllShows(p, BeforeEvents(ids));
      assert [] + ids == ids;
      if FirstFailing(o.beforeFails, 0, |cbs|).Some? {
        FailShows(EmitAll(p, BeforeEvents(ids)), BeforeCallbackFatal(FirstFailing(o.beforeFails, 0, |cbs|).value));
      }
    }
  }

  lemma HookedStep(c: Ctx, o: Oracle)
    ensures var h := Hooked(c, o);
      && ShownBy(h.trace) == NothingShown.(hooks := HooksRun(c, o))
      && h.ctx == c.(beforeCallbackRan := !HooksFail(c, o))
      && h.defers == []
      && (h.failure.Some? <==> HooksFail(c, o))
      && (h.failure.Some? ==> h.failure == SetUpFailure(c, o))
  {
    HookedShows(c, o);
  }

  /** The address the address step leaves in a context holding `ip`. */
  function Resolve(ip: string, o: Oracle): string {
    if |ip| > 0 then ip
    else match ResolvedIp(o.machineActive, o.machineIp)
      case None => ip
      case Some(addr) => addr
  }

  lemma IpStageShows(p: Progress, o: Oracle)
    ensures ShownBy(IpStage(p, o).trace) == ShownBy(p.trace).(address := ShownBy(p.trace).address || |p.ctx.ip| == 0)
  {
    if |p.ctx.ip| == 0 {
      var active := Emit(p, MachineActive);
      EmitShows(p, MachineActive);
      if o.machineActive.CmdOk? {
        var queried := Emit(active, MachineIp(MachineName(o.machineActive)));
        EmitShows(active, MachineIp(MachineName(o.machineActive)));
        FailShows(queried, MachineIpFailed);
      }
    }
  }

  lemma IpStageState(p: Progress, o: Oracle)
    requires p.failure.None?
    ensures var a := IpStage(p, o);
      && a.ctx == p.ctx.(ip := Resolve(p.ctx.ip, o))
      && a.defers == p.defers
      && (a.failure.Some? <==> |p.ctx.ip| == 0 && o.machineActive.CmdOk? && o.machineIp.CmdErr?)
      && (a.failure.Some? ==> a.failure == Some(MachineIpFailed))
  {
  }

  lemma LogStageShows(p: Progress)
    ensures ShownBy(LogStage(p).trace) == ShownBy(p.trace).(logCreated := ShownBy(p.trace).logCreated || !p.ctx.logFile)
  {
    EmitShows(p, LogCreated);
  }

  lemma PullStageShows(p: Progress, o: Oracle)
    requires p.ctx.logFile
    ensures ShownBy(PullStage(p, o).trace) == ShownBy(p.trace).(pull := ShownBy(p.trace).pull || !p.ctx.pulled)
  {
    if !p.ctx.pulled {
      var w := Write(p, PullingMsg);
      var e := Emit(w, PullRan);
      assert PullStage(p, o) == PullResult(e, o);
      PullResultShows(e, o);
      EmitShows(w, PullRan);
      WriteShows(p, PullingMsg);
      assert ShownBy(e.trace) == Note(ShownBy(p.trace), PullRan);
    }
  }

  lemma PullResultShows(p: Progress, o: Oracle)
    requires p.ctx.logFile
    ensures ShownBy(PullResult(p, o).trace) == ShownBy(p.trace)
  {
    match o.pull
    case CmdErr(out) =>
      WriteShows(p, out);
      FailShows(Write(p, out), PullFailed);
    case CmdOk(_) =>
      WriteShows(p.(ctx := p.ctx.(pulled := true)), DoneMsg);
  }

  lemma PullStageState(p: Progress, o: Oracle)
    requires p.ctx.logFile && p.failure.None?
    ensures var r := PullStage(p, o);
      && r.ctx == p.ctx.(pulled := p.ctx.pulled || o.pull.CmdOk?,
                         log := if p.ctx.pulled then p.ctx.log
                                else p.ctx.log + [PullingMsg, if o.pull.CmdOk? then DoneMsg else o.pull.out])
      && (r.failure.Some? <==> !p.ctx.pulled && o.pull.CmdErr?)
      && (r.failure.Some? ==> r.failure == Some(PullFailed))
  {
    if !p.ctx.pulled {
      var q := Emit(Write(p, PullingMsg), PullRan);
      assert q.ctx.log == p.ctx.log + [PullingMsg];
    }
  }

  lemma PulledStep(c: Ctx, o: Oracle)
    requires ReachesLog(c, o)
    ensures var a, S := Addressed(c, o), SetUp(c, o);
      && ShownBy(S.trace) == ShownBy(a.trace).(logCreated := !c.logFile, pull := !c.pulled)
      && S.ctx == a.ctx.(logFile := true, pulled := c.pulled || o.pull.CmdOk?, log := LogAfter(c, o))
      && S.failure == SetUpFailure(c, o)
  {
    HookedStep(c, o);
    var a := Addressed(c, o);
    IpStageShows(Hooked(c, o), o);
    IpStageState(Hooked(c, o), o);
    var l := LogStage(a);
    LogStageShows(a);
    PullStageShows(l, o);
    PullStageState(l, o);
    assert SetUp(c, o) == PullStage(l, o);
  }

  /** The set-up, all of it: which one-time steps it performs, the context
      it leaves, and the `t.Fatal` it calls. */
  lemma SetUpEffect(c: Ctx, o: Oracle)
    ensures var S := SetUp(c, o);
      && ShownBy(S.trace) == SetUpShown(c, o)
      && S.ctx == SetUpCtx(c, o)
      && S.failure == SetUpFailure(c, o)
  {
    if HooksFail(c, o) {
      HooksFailEffect(c, o);
    } else if QueryFails(c, o) {
      QueryFailsEffect(c, o);
    } else {
      ReachesLogEffect(c, o);
    }
  }

  lemma HooksFailEffect(c: Ctx, o: Oracle)
    requires HooksFail(c, o)
    ensures var S := SetUp(c, o);
      && ShownBy(S.trace) == SetUpShown(c, o)
      && S.ctx == SetUpCtx(c, o)
      && S.failure == SetUpFailure(c, o)
  {
    HookedStep(c, o);
    assert SetUp(c, o) == Hooked(c, o);
  }

  lemma QueryFailsEffect(c: Ctx, o: Oracle)
    requires !HooksFail(c, o) && QueryFails(c, o)
    ensures var S := SetUp(c, o);
      && ShownBy(S.trace) == SetUpShown(c, o)
      && S.ctx == SetUpCtx(c, o)
      && S.failure == SetUpFailure(c, o)
  {
    HookedStep(c, o);
    IpStageShows(Hooked(c, o), o);
    IpStageState(Hooked(c, o), o);
    assert SetUp(c, o) == Addressed(c, o);
  }

  lemma ReachesLogEffect(c: Ctx, o: Oracle)
    requires ReachesLog(c, o)
    ensures var S := SetUp(c, o);
      && ShownBy(S.trace) == SetUpShown(c, o)
      && S.ctx == SetUpCtx(c, o)
      && S.failure == SetUpFailure(c, o)
  {
    HookedStep(c, o);
    IpStageShows(Hooked(c, o), o);
    IpStageState(Hooked(c, o), o);
    PulledStep(c, o);
  }

  /** The set-up succeeds exactly when every one-time step still to do
      succeeds. */
  lemma SetUpSucceedsIff(c: Ctx, o: Oracle)
    ensures SetUp(c, o).failure.None? <==> SetUpSucceeds(c, o)
  {
    SetUpEffect(c, o);
  }

  // ---------------------------------------------------------------------
  // A whole run
  // ---------------------------------------------------------------------

  /** `ctx` and `trace` show the same one-time state and steps as `p`. */
  predicate SameOneTime(p: Progress, ctx: Ctx, trace: seq<Event>) {
    && ShownBy(trace) == ShownBy(p.trace)
    && ctx.beforeCallbackRan == p.ctx.beforeCallbackRan
    && ctx.ip == p.ctx.ip
    && ctx.logFile == p.ctx.logFile
    && ctx.pulled == p.ctx.pulled
  }

  /** The stages after the set-up show no one-time step. */
  lemma StartStageShows(p: Progress, o: Oracle)
    ensures ShownBy(StartStage(p, o).trace) == ShownBy(p.trace)
  {
    EmitShows(p, Up);
    FailShows(Emit(p, Up), StartFailed);
  }

  lemma MarkerStageShows(p: Progress)
    requires p.ctx.logFile
    ensures ShownBy(MarkerStage(p).trace) == ShownBy(p.trace)
  {
    var n := p.ctx.testNum + 1;
    WriteShows(p.(ctx := p.ctx.(testNum := n)), StartMarker(n));
  }

  lemma EachStageShows(p: Progress, o: Oracle)
    ensures ShownBy(EachStage(p, o).trace) == ShownBy(p.trace)
  {
    var cbs, ip := p.ctx.beforeEachCallbacks, p.ctx.ip;
    match FirstFailing(o.beforeEachFails, 0, |cbs|)
    case Some(k) =>
      var ran := EmitAll(p, EachEvents(cbs[..k + 1], ip));
      assert EachStage(p, o) == Fail(ran, BeforeEachCallbackFatal(k));
      FailShows(ran, BeforeEachCallbackFatal(k));
      EachEventsKeep(p, cbs[..k + 1], ip);
    case None =>
      assert EachStage(p, o) == EmitAll(p, EachEvents(cbs, ip));
      EachEventsKeep(p, cbs, ip);
  }

  lemma EachEventsKeep(p: Progress, ids: seq<CallbackId>, ip: string)
    ensures ShownBy(EmitAll(p, EachEvents(ids, ip)).trace) == ShownBy(p.trace)
  {
    EachEventsShow(ids, ip);
    EmitAllShows(p, EachEvents(ids, ip));
    assert ShownBy(p.trace).hooks + [] == ShownBy(p.trace).hooks;
  }

  lemma BodyStageShows(p: Progress, o: Oracle)
    ensures ShownBy(BodyStage(p, o).trace) == ShownBy(p.trace)
  {
    EmitShows(p, TestBody(p.ctx.ip));
    FailShows(Emit(p, TestBody(p.ctx.ip)), TestBodyFatal);
  }

  lemma ShutdownStepShows(p: Progress, o: Oracle)
    ensures ShownBy(ShutdownStep(p, o).trace) == ShownBy(p.trace)
  {
    var signalled := Emit(p, Interrupt);
    EmitShows(p, Interrupt);
    if !o.signalOk {
      FailShows(signalled, SignalFailed);
    } else if o.wait == TimedOut {
      var killed := Emit(signalled, Kill);
      EmitShows(signalled, Kill);
      FailShows(killed, if o.killOk then KilledOnTimeout else KillFailed);
    } else {
      RemoveContainersShows(signalled, o);
    }
  }

  lemma RemoveContainersShows(p: Progress, o: Oracle)
    ensures ShownBy(RemoveContainers(p, o).trace) == ShownBy(p.trace)
  {
    var waited := if o.wait == ExitedWithError then Emit(p, Logged) else p;
    EmitShows(p, Logged);
    EmitShows(waited, Rm);
    FailShows(Emit(waited, Rm), RmFailed(o.rm.out));
  }

  lemma RunDeferredShows(d: Deferred, p: Progress, o: Oracle)
    ensures ShownBy(RunDeferred(d, p, o).trace) == ShownBy(p.trace)
  {
    match d
    case WriteEndMarker =>
      assert RunDeferred(d, p, o) == Write(p, EndMarker(p.ctx.testNum));
      WriteShows(p, EndMarker(p.ctx.testNum));
    case Shutdown =>
      assert RunDeferred(d, p, o) == ShutdownStep(p, o);
      ShutdownStepShows(p, o);
    case SyncLog =>
      SyncShows(p, o);
  }

  lemma SyncShows(p: Progress, o: Oracle)
    ensures ShownBy(RunDeferred(SyncLog, p, o).trace) == ShownBy(p.trace)
  {
    EmitShows(p, LogSynced);
    FailShows(Emit(p, LogSynced), SyncFailed);
  }

  /** The deferred actions show no one-time step. */
  lemma {:induction false} UnwindShows(p: Progress, o: Oracle)
    ensures ShownBy(Unwind(p, o).trace) == ShownBy(p.trace)
    decreases |p.defers|
  {
    if p.defers != [] {
      var last, rest := p.defers[|p.defers| - 1], p.(defers := p.defers[..|p.defers| - 1]);
      RunDeferredShows(last, rest, o);
      UnwindShows(RunDeferred(last, rest, o), o);
    }
  }

  lemma FinishKeeps(p: Progress, o: Oracle)
    ensures var r := Finish(p, o); SameOneTime(p, r.ctx, r.trace)
  {
    UnwindShows(p, o);
  }

  /** The per-run stages after a successful start keep the one-time state. */
  lemma TestStagesKeep(st: Progress, o: Oracle)
    requires st.ctx.logFile
    ensures var e := EachStage(MarkerStage(st), o);
      && SameOneTime(st, e.ctx, e.trace)
      && SameOneTime(st, BodyStage(e, o).ctx, BodyStage(e, o).trace)
  {
    MarkerStageShows(st);
    EachStageShows(MarkerStage(st), o);
    BodyStageShows(EachStage(MarkerStage(st), o), o);
  }

  /** Where a run that is not skipped leaves the body of `Run`: at the
      first stage that fails, or after the test body. */
  function Leaving(c: Ctx, o: Oracle): Progress {
    var S := SetUp(c, o);
    if S.failure.Some? then S else Running(S, o)
  }

  /** Where a run leaves the body of `Run` once the set-up succeeded. */
  function Running(S: Progress, o: Oracle): Progress
    requires S.ctx.logFile
  {
    var st := StartStage(S, o);
    if st.failure.Some? then st else Tested(MarkerStage(st), o)
  }

  /** A run that is not skipped runs the deferred actions registered by the
      point where it leaves. */
  lemma RunIsFinish(c: Ctx, o: Oracle)
    requires !o.short
    ensures RunSpec(c, o) == Finish(Leaving(c, o), o)
  {
  }

  lemma LeavingKeeps(c: Ctx, o: Oracle)
    ensures var q := Leaving(c, o); SameOneTime(SetUp(c, o), q.ctx, q.trace)
  {
    var S := SetUp(c, o);
    if S.failure.None? {
      RunningKeeps(S, o);
    }
  }

  lemma RunningKeeps(S: Progress, o: Oracle)
    requires S.ctx.logFile
    ensures var q := Running(S, o); SameOneTime(S, q.ctx, q.trace)
  {
    StartStageShows(S, o);
    TestStagesKeep(StartStage(S, o), o);
  }

  /** Nothing after the set-up touches the one-time state or shows a
      one-time step. */
  lemma RunKeepsSetUp(c: Ctx, o: Oracle)
    requires !o.short
    ensures var r := RunSpec(c, o); SameOneTime(SetUp(c, o), r.ctx, r.trace)
  {
    RunIsFinish(c, o);
    LeavingKeeps(c, o);
    FinishKeeps(Leaving(c, o), o);
  }

  /** The one-time steps of a run: which of them it performs, in the trace,
      and the one-time state it leaves in the context. */
  lemma OneTimeSteps(c: Ctx, o: Oracle)
    requires !o.short
    ensures var r, want := RunSpec(c, o), SetUpCtx(c, o);
      && ShownBy(r.trace) == SetUpShown(c, o)
      && r.ctx.beforeCallbackRan == want.beforeCallbackRan
      && r.ctx.ip == want.ip
      && r.ctx.logFile == want.logFile
      && r.ctx.pulled == want.pulled
  {
    RunKeepsSetUp(c, o);
    SetUpEffect(c, o);
  }

  /** The before-callbacks run, in registration order, only while the flag
      is unset, up to the first that calls `t.Fatal`; the flag is set
      exactly when all of them returned. */
  lemma BeforeCallbacksRunOnce(c: Ctx, o: Oracle)
    requires !o.short
    ensures var r := RunSpec(c, o);
      && ShownBy(r.trace).hooks == (if c.beforeCallbackRan then [] else HooksRun(c, o))
      && (c.beforeCallbackRan ==> r.ctx.beforeCallbackRan)
      && (!c.beforeCallbackRan ==>
            match FirstFailing(o.beforeFails, 0, |c.beforeCallbacks|)
            case Some(k) => ShownBy(r.trace).hooks == c.beforeCallbacks[..k + 1] && !r.ctx.beforeCallbackRan
            case None => ShownBy(r.trace).hooks == c.beforeCallbacks && r.ctx.beforeCallbackRan)
  {
    OneTimeSteps(c, o);
  }

  /** The address is resolved only while none is cached: the fallback when
      no machine is active, else the trimmed answer of the query; a cached
      address is never replaced, and a failed query leaves none cached. */
  lemma AddressCachedOnce(c: Ctx, o: Oracle)
    requires !o.short
    ensures var r := RunSpec(c, o);
      && (|c.ip| > 0 ==> r.ctx.ip == c.ip && !ShownBy(r.trace).address)
      && (|c.ip| == 0 && !HooksFail(c, o) ==>
            && ShownBy(r.trace).address
            && (o.machineActive.CmdErr? ==> r.ctx.ip == Loopback)
            && (o.machineActive.CmdOk? && o.machineIp.CmdOk? ==> r.ctx.ip == Trim(o.machineIp.out))
            && (o.machineActive.CmdOk? && o.machineIp.CmdErr? ==> r.ctx.ip == []))
  {
    OneTimeSteps(c, o);
    if |c.ip| == 0 && !HooksFail(c, o) {
      AddressAfterCases(c, o);
    }
  }

  lemma AddressAfterCases(c: Ctx, o: Oracle)
    requires |c.ip| == 0 && !HooksFail(c, o)
    ensures o.machineActive.CmdErr? ==> AddressAfter(c, o) == Loopback
    ensures o.machineActive.CmdOk? && o.machineIp.CmdOk? ==> AddressAfter(c, o) == Trim(o.machineIp.out)
    ensures o.machineActive.CmdOk? && o.machineIp.CmdErr? ==> AddressAfter(c, o) == []
  {
  }

  /** The images are pulled only while the flag is unset, by a run that
      reaches that step; a failed pull logs its output and leaves the flag
      unset, a successful one sets the flag and logs "done". */
  lemma ImagesPulledOnce(c: Ctx, o: Oracle)
    requires !o.short
    ensures var r := RunSpec(c, o);
      && (ShownBy(r.trace).pull <==> !c.pulled && ReachesLog(c, o))
      && (c.pulled ==> r.ctx.pulled)
      && (!c.pulled && ReachesLog(c, o) ==>
            && (r.ctx.pulled <==> o.pull.CmdOk?)
            && SetUp(c, o).ctx.log
               == (if c.logFile then c.log else []) + [PullingMsg, if o.pull.CmdOk? then DoneMsg else o.pull.out])
  {
    OneTimeSteps(c, o);
    SetUpEffect(c, o);
  }

  // ---------------------------------------------------------------------
  // The per-run part, the markers and the outcome
  // ---------------------------------------------------------------------

  /** The events between the start marker and the end marker: the
      before-each callbacks in registration order, each given the cached
      address, up to the first that calls `t.Fatal`; then, if none did, the
      test body with the same address. */
  function TestEvents(cbs: seq<CallbackId>, ip: string, o: Oracle): seq<Event> {
    match FirstFailing(o.beforeEachFails, 0, |cbs|)
    case Some(k) => EachEvents(cbs[..k + 1], ip) + [Fatal(BeforeEachCallbackFatal(k))]
    case None => EachEvents(cbs, ip) + [TestBody(ip)] + (if o.bodyFails then [Fatal(TestBodyFatal)] else [])
  }

  function TestFailure(cbs: seq<CallbackId>, o: Oracle): Option<Reason> {
    match FirstFailing(o.beforeEachFails, 0, |cbs|)
    case Some(k) => Some(BeforeEachCallbackFatal(k))
    case None => if o.bodyFails then Some(TestBodyFatal) else None
  }

  /** Where the per-run part leaves `Run`. */
  function Tested(m: Progress, o: Oracle): Progress {
    var e := EachStage(m, o);
    if e.failure.Some? then e else BodyStage(e, o)
  }

  lemma TestedTrace(m: Progress, o: Oracle)
    requires m.failure.None?
    ensures Tested(m, o).trace == m.trace + TestEvents(m.ctx.beforeEachCallbacks, m.ctx.ip, o)
  {
    var cbs, ip := m.ctx.beforeEachCallbacks, m.ctx.ip;
    match FirstFailing(o.beforeEachFails, 0, |cbs|)
    case Some(k) =>
      var each := EachEvents(cbs[..k + 1], ip);
      assert Tested(m, o).trace == m.trace + each + [Fatal(BeforeEachCallbackFatal(k))];
      Associate(m.trace, each, [Fatal(BeforeEachCallbackFatal(k))]);
    case None =>
      var each := EachEvents(cbs, ip);
      var body := [TestBody(ip)] + (if o.bodyFails then [Fatal(TestBodyFatal)] else []);
      assert Tested(m, o).trace == m.trace + each + body;
      Associate(m.trace, each, body);
  }

  lemma Associate(t: seq<Event>, u: seq<Event>, v: seq<Event>)
    ensures t + u + v == t + (u + v)
  {
  }

  lemma TestedState(m: Progress, o: Oracle)
    requires m.failure.None?
    ensures var q := Tested(m, o);
      q.ctx == m.ctx && q.defers == m.defers && q.failure == TestFailure(m.ctx.beforeEachCallbacks, o)
  {
  }

  /** A started run is numbered and its start marker written. */
  lemma Marked(S: Progress, o: Oracle)
    requires S.failure.None? && S.defers == [SyncLog] && S.ctx.logFile && o.startOk
    ensures var m, n := MarkerStage(StartStage(S, o)), S.ctx.testNum + 1;
      && m.ctx == S.ctx.(testNum := n, log := S.ctx.log + [StartMarker(n)])
      && m.defers == [SyncLog, Shutdown, WriteEndMarker]
      && m.trace == S.trace + [Up, Wrote(StartMarker(n))]
      && m.failure.None?
  {
    var st := StartStage(S, o);
    assert st.trace == S.trace + [Up];
  }

  lemma LeavingStarted(c: Ctx, o: Oracle)
    requires Started(c, o)
    ensures Leaving(c, o) == Tested(MarkerStage(StartStage(SetUp(c, o), o)), o)
  {
  }

  /** The per-run part and the deferred actions of a started run. */
  lemma FinishTestedState(m: Progress, o: Oracle)
    requires m.failure.None? && m.defers == [SyncLog, Shutdown, WriteEndMarker]
    ensures var r := Finish(Tested(m, o), o);
      && r.ctx == m.ctx.(log := m.ctx.log + [EndMarker(m.ctx.testNum)])
      && r.outcome == OutcomeOf(FirstOf(FirstOf(TestFailure(m.ctx.beforeEachCallbacks, o), ShutdownFailure(o)), SyncFailure(o)))
  {
    TestedState(m, o);
    UnwindStarted(Tested(m, o), o);
  }

  lemma FinishTestedTrace(m: Progress, o: Oracle)
    requires m.failure.None? && m.defers == [SyncLog, Shutdown, WriteEndMarker]
    ensures Finish(Tested(m, o), o).trace
            == m.trace + TestEvents(m.ctx.beforeEachCallbacks, m.ctx.ip, o) + Epilogue(m.ctx.testNum, o)
  {
    TestedState(m, o);
    TestedTrace(m, o);
    UnwindStarted(Tested(m, o), o);
  }

  lemma AppendTwo(log: seq<string>, a: string, b: string)
    ensures log + [a] + [b] == log + [a, b]
  {
  }

  /** A started run: the sequence number goes up by one and the log gets
      the start and the end marker with that number and nothing else. */
  lemma StartedRunLog(c: Ctx, o: Oracle)
    requires Started(c, o)
    ensures var r, S, n := RunSpec(c, o), SetUp(c, o), c.testNum + 1;
      r.ctx == S.ctx.(testNum := n, log := S.ctx.log + [StartMarker(n), EndMarker(n)])
  {
    var S := SetUp(c, o);
    var m := MarkerStage(StartStage(S, o));
    RunIsFinish(c, o);
    LeavingStarted(c, o);
    Marked(S, o);
    FinishTestedState(m, o);
    var n := c.testNum + 1;
    assert m.ctx.testNum == n;
    assert RunSpec(c, o).ctx == Finish(Tested(m, o), o).ctx;
    assert Finish(Tested(m, o), o).ctx == m.ctx.(log := m.ctx.log + [EndMarker(n)]);
    AppendTwo(S.ctx.log, StartMarker(n), EndMarker(n));
  }

  /** The trace of a started run continues the set-up with `up`, the start
      marker, the per-run part, the end marker, the shutdown and the log
      sync, in that order. */
  lemma StartedRunTrace(c: Ctx, o: Oracle)
    requires Started(c, o)
    ensures var r, S, n := RunSpec(c, o), SetUp(c, o), c.testNum + 1;
      r.trace == S.trace + [Up, Wrote(StartMarker(n))] + TestEvents(c.beforeEachCallbacks, S.ctx.ip, o) + Epilogue(n, o)
  {
    var S := SetUp(c, o);
    var m := MarkerStage(StartStage(S, o));
    RunIsFinish(c, o);
    LeavingStarted(c, o);
    Marked(S, o);
    FinishTestedTrace(m, o);
    var n := c.testNum + 1;
    assert m.ctx.beforeEachCallbacks == c.beforeEachCallbacks && m.ctx.ip == S.ctx.ip && m.ctx.testNum == n;
    var te := TestEvents(c.beforeEachCallbacks, S.ctx.ip, o);
    var ep := Epilogue(n, o);
    assert RunSpec(c, o).trace == Finish(Tested(m, o), o).trace;
    assert Finish(Tested(m, o), o).trace == m.trace + te + ep;
  }

  /** The outcome of a started run: the first `t.Fatal` of the per-run
      part, the shutdown and the log sync, in that order. */
  lemma StartedRunOutcome(c: Ctx, o: Oracle)
    requires Started(c, o)
    ensures RunSpec(c, o).outcome
            == OutcomeOf(FirstOf(FirstOf(TestFailure(c.beforeEachCallbacks, o), ShutdownFailure(o)), SyncFailure(o)))
  {
    var S := SetUp(c, o);
    var m := MarkerStage(StartStage(S, o));
    RunIsFinish(c, o);
    LeavingStarted(c, o);
    Marked(S, o);
    FinishTestedState(m, o);
  }

  /** A run that fails before `up` is running leaves the context as the
      set-up left it: no sequence number is taken and no marker written. It
      fails with the set-up's reason, else because `up` did not start. */
  lemma UnstartedRun(c: Ctx, o: Oracle)
    requires !o.short && !Started(c, o)
    ensures var r, S := RunSpec(c, o), SetUp(c, o);
      && r.ctx == S.ctx
      && r.ctx.testNum == c.testNum
      && r.outcome == Failed(if S.failure.Some? then S.failure.value else StartFailed)
  {
    var S := SetUp(c, o);
    RunIsFinish(c, o);
    var q := Leaving(c, o);
    assert q.ctx == S.ctx && q.failure.Some?;
    assert q.defers == [] || q.defers == [SyncLog];
    if q.defers == [SyncLog] {
      UnwindSync(q, o);
    }
  }

  /** In short mode the run is skipped before anything happens. */
  lemma ShortRunSkips(c: Ctx, o: Oracle)
    requires o.short
    ensures RunSpec(c, o) == RunResult(c, Skipped, [])
  {
  }

  /** The reason of the first `t.Fatal` of a run that is not skipped, step
      by step: set-up, start, per-run part, shutdown, log sync. */
  function RunFailure(c: Ctx, o: Oracle): Option<Reason> {
    FirstOf(SetUpFailure(c, o),
      if !o.startOk then Some(StartFailed)
      else FirstOf(FirstOf(TestFailure(c.beforeEachCallbacks, o), ShutdownFailure(o)), SyncFailure(o)))
  }

  lemma RunOutcome(c: Ctx, o: Oracle)
    ensures RunSpec(c, o).outcome == if o.short then Skipped else OutcomeOf(RunFailure(c, o))
  {
    if !o.short {
      SetUpEffect(c, o);
      if Started(c, o) {
        StartedRunOutcome(c, o);
      } else {
        UnstartedRun(c, o);
      }
    }
  }

  /** A run passes exactly when it is not skipped and every step succeeds:
      each one-time step still to do, the start, every before-each callback,
      the test body, the shutdown and the log sync. */
  lemma PassedIff(c: Ctx, o: Oracle)
    ensures RunSpec(c, o).outcome == Passed
            <==> && !o.short && SetUpSucceeds(c, o) && o.startOk
                 && TestFailure(c.beforeEachCallbacks, o).None? && ShutdownFailure(o).None? && o.syncOk
  {
    RunOutcome(c, o);
    SetUpEffect(c, o);
    SetUpSucceedsIff(c, o);
  }

  /** A run moves the context forward: it evolves, and the sequence number
      goes up by one exactly when `up` was started. */
  lemma RunEvolves(c: Ctx, o: Oracle)
    ensures var r := RunSpec(c, o);
      && Evolves(c, r.ctx)
      && r.ctx.testNum == c.testNum + (if Started(c, o) then 1 else 0)
  {
    if Started(c, o) {
      StartedRunLog(c, o);
    } else if !o.short {
      UnstartedRun(c, o);
    }
  }

  // ---------------------------------------------------------------------
  // Several runs in one test binary
  // ---------------------------------------------------------------------

  /** The context after the runs `os`, one after the other. */
  function AfterRuns(c: Ctx, os: seq<Oracle>): Ctx
    decreases |os|
  {
    if os == [] then c else AfterRuns(RunSpec(c, os[0]).ctx, os[1..])
  }

  /** However many runs, the context only evolves, and each run takes at
      most one sequence number. */
  lemma {:induction false} RunsEvolve(c: Ctx, os: seq<Oracle>)
    ensures Evolves(c, AfterRuns(c, os))
    ensures AfterRuns(c, os).testNum <= c.testNum + |os|
    decreases |os|
  {
    if os != [] {
      RunEvolves(c, os[0]);
      RunsEvolve(RunSpec(c, os[0]).ctx, os[1..]);
    }
  }

  lemma {:induction false} AfterRunsSplit(c: Ctx, os: seq<Oracle>, k: nat)
    requires k <= |os|
    ensures AfterRuns(c, os) == AfterRuns(AfterRuns(c, os[..k]), os[k..])
    decreases k
  {
    if k == 0 {
      assert os[..0] == [] && os[0..] == os;
    } else {
      var c1 := RunSpec(c, os[0]).ctx;
      AfterRunsSplit(c1, os[1..], k - 1);
      assert os[..k][0] == os[0] && os[..k][1..] == os[1..][..k - 1];
      assert os[1..][k - 1..] == os[k..];
    }
  }

  /** Once a run has completed a one-time step, no later run performs it
      again: the before-callbacks, the address query and the pull. */
  lemma OneTimeAcrossRuns(c: Ctx, os: seq<Oracle>, i: nat, j: nat)
    requires i < j < |os|
    ensures var done, r := AfterRuns(c, os[..i + 1]), RunSpec(AfterRuns(c, os[..j]), os[j]);
      && (done.beforeCallbackRan ==> ShownBy(r.trace).hooks == [])
      && (|done.ip| > 0 ==> !ShownBy(r.trace).address && r.ctx.ip == done.ip)
      && (done.pulled ==> !ShownBy(r.trace).pull)
  {
    var done := AfterRuns(c, os[..i + 1]);
    var before := AfterRuns(c, os[..j]);
    AfterRunsSplit(c, os[..j], i + 1);
    assert os[..j][..i + 1] == os[..i + 1];
    RunsEvolve(done, os[..j][i + 1..]);
    assert Evolves(done, before);
    if !os[j].short {
      BeforeCallbacksRunOnce(before, os[j]);
      AddressCachedOnce(before, os[j]);
      ImagesPulledOnce(before, os[j]);
    }
  }
}
