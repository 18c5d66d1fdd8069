/** The newer harness design: one package-wide `testContext` that `Run`
    updates in place, two append-only callback registries, and a run that
    goes through one-time set-up steps, starts `docker-compose up` as a
    supervised process, numbers the run in the log, runs the per-run
    callbacks and the test body, and then executes its deferred actions
    (end marker, shutdown protocol, log sync) in reverse order of
    registration, on every exit path.

    Every external effect (a callback calling `t.Fatal`, a command's exit
    status and output, the race between the process exiting and the 5 s
    timer) is an input of type `Oracle`. The effect of a run on the context
    is specified by the pure function `RunSpec`; the class method `Run`
    performs the same steps imperatively and is proved to agree with it. */
module GomposeTesting {
  import opened Harness

  /** A registered callback; its only observable effect is an event in the
      trace, or a `t.Fatal` when the oracle says so. */
  type CallbackId = nat

  /** Why a run called `t.Fatal`. */
  datatype Reason =
    | BeforeCallbackFatal(index: nat)
    | MachineIpFailed
    | PullFailed
    | StartFailed
    | BeforeEachCallbackFatal(index: nat)
    | TestBodyFatal
    | SignalFailed
    | KillFailed
    | KilledOnTimeout
    | RmFailed(out: string)
    | SyncFailed

  /** What a run does that an observer could see, in order. */
  datatype Event =
    | BeforeCallback(id: CallbackId)
    | MachineActive                     // `docker-machine active`
    | MachineIp(name: string)           // `docker-machine ip <name>`
    | LogCreated                        // os.Create("test.log")
    | Wrote(text: string)               // a write to the log file
    | PullRan                           // `docker-compose pull`
    | Up                                // start of `docker-compose up --force-recreate --no-color`
    | BeforeEachCallback(id: CallbackId, ip: string)
    | TestBody(ip: string)
    | Interrupt                         // os.Interrupt sent to the `up` process
    | Kill                              // the `up` process killed
    | Rm                                // `docker-compose rm -f`
    | Logged                            // t.Log of a non-zero exit of `up`
    | LogSynced
    | Fatal(reason: Reason)

  /** Which of the two channels the shutdown `select` receives from first. */
  datatype Wait = Exited | ExitedWithError | TimedOut

  /** The answers of the outside world for one run. A callback "fails" when
      it calls `t.Fatal`; `beforeFails(i)` speaks of the i-th registered
      before-callback. */
  datatype Oracle = Oracle(
    short: bool,
    beforeFails: nat -> bool,
    machineActive: Cmd,
    machineIp: Cmd,
    pull: Cmd,
    startOk: bool,
    beforeEachFails: nat -> bool,
    bodyFails: bool,
    signalOk: bool,
    wait: Wait,
    killOk: bool,
    rm: Cmd,
    syncOk: bool)

  /** The fields of `testContext`; `logFile` says whether the log file has
      been created and `log` holds what has been written to it. */
  datatype Ctx = Ctx(
    beforeCallbacks: seq<CallbackId>,
    beforeEachCallbacks: seq<CallbackId>,
    beforeCallbackRan: bool,
    pulled: bool,
    ip: string,
    logFile: bool,
    log: seq<string>,
    testNum: nat)

  /** Go's zero value of `testContext`. */
  const Zero: Ctx := Ctx([], [], false, false, [], false, [], 0)

  const PullingMsg: string := "pulling Compose images..."
  const DoneMsg: string := "done\n"

  /** An action registered with `defer` in `Run`. */
  datatype Deferred = SyncLog | Shutdown | WriteEndMarker

  /** A run in progress: the context, the events so far, the deferred
      actions registered so far (last = most recent), and the first
      `t.Fatal`, if any. */
  datatype Progress = Progress(ctx: Ctx, trace: seq<Event>, defers: seq<Deferred>, failure: Option<Reason>)

  datatype RunResult = RunResult(ctx: Ctx, outcome: Outcome<Reason>, trace: seq<Event>)

  // ---------------------------------------------------------------------
  // Invariants of the context
  // ---------------------------------------------------------------------

  /** How the context may evolve: the registries are untouched by a run,
      the one-time flags only go from false to true, a non-empty address is
      never replaced, the log file once created stays, and the sequence
      number never goes down. */
  predicate Evolves(c: Ctx, d: Ctx) {
    && d.beforeCallbacks == c.beforeCallbacks
    && d.beforeEachCallbacks == c.beforeEachCallbacks
    && (c.beforeCallbackRan ==> d.beforeCallbackRan)
    && (c.pulled ==> d.pulled)
    && (|c.ip| > 0 ==> d.ip == c.ip)
    && (c.logFile ==> d.logFile)
    && c.testNum <= d.testNum
  }

  /** The one-time steps of a run. */
  datatype Step = Hooks | Address | LogOpen | Pull

  /** What a trace shows of the one-time steps: the before-callbacks it
      ran, in order, and whether it queried the Docker machine, created the
      log file and pulled the images. */
  datatype Shown = Shown(hooks: seq<CallbackId>, address: bool, logCreated: bool, pull: bool)

  const NothingShown: Shown := Shown([], false, false, false)

  function Note(sh: Shown, e: Event): Shown {
    match e
    case BeforeCallback(id) => sh.(hooks := sh.hooks + [id])
    case MachineActive => sh.(address := true)
    case MachineIp(_) => sh.(address := true)
    case LogCreated => sh.(logCreated := true)
    case PullRan => sh.(pull := true)
    case _ => sh
  }

  function Combine(a: Shown, b: Shown): Shown {
    Shown(a.hooks + b.hooks, a.address || b.address, a.logCreated || b.logCreated, a.pull || b.pull)
  }

  function ShownBy(t: seq<Event>): Shown {
    if t == [] then NothingShown else Note(ShownBy(t[..|t| - 1]), t[|t| - 1])
  }

  lemma NoteCombine(a: Shown, b: Shown, e: Event)
    ensures Note(Combine(a, b), e) == Combine(a, Note(b, e))
  {
    if e.BeforeCallback? {
      assert (a.hooks + b.hooks) + [e.id] == a.hooks + (b.hooks + [e.id]);
    }
  }

  lemma {:induction false} ShownByAppend(t: seq<Event>, u: seq<Event>)
    ensures ShownBy(t + u) == Combine(ShownBy(t), ShownBy(u))
    decreases |u|
  {
    if u == [] {
      assert t + u == t;
      assert ShownBy(t).hooks + [] == ShownBy(t).hooks;
    } else {
      var init, e := u[..|u| - 1], u[|u| - 1];
      ShownByAppend(t, init);
      assert (t + u)[..|t + u| - 1] == t + init;
      calc {
        ShownBy(t + u);
        Note(ShownBy(t + init), e);
        Note(Combine(ShownBy(t), ShownBy(init)), e);
        { NoteCombine(ShownBy(t), ShownBy(init), e); }
        Combine(ShownBy(t), Note(ShownBy(init), e));
        Combine(ShownBy(t), ShownBy(u));
      }
    }
  }

  /** `r` continues `p`: the context evolves, the state that belongs to
      the one-time steps other than `own` is untouched, and so is the
      sequence number. */
  predicate Extends(p: Progress, r: Progress, own: Option<Step>) {
    && Evolves(p.ctx, r.ctx)
    && (own != Some(Hooks) ==> r.ctx.beforeCallbackRan == p.ctx.beforeCallbackRan)
    && (own != Some(Address) ==> r.ctx.ip == p.ctx.ip)
    && (own != Some(LogOpen) ==> r.ctx.logFile == p.ctx.logFile)
    && (own != Some(Pull) ==> r.ctx.pulled == p.ctx.pulled)
    && r.ctx.testNum == p.ctx.testNum
  }

  // ---------------------------------------------------------------------
  // The steps of Run, as functions of the progress so far
  // ---------------------------------------------------------------------

  /** The first position in [from, n) whose callback fails, if any. */
  function FirstFailing(fails: nat -> bool, from: nat, n: nat): (r: Option<nat>)
    ensures r.Some? ==> from <= r.value < n && fails(r.value)
    ensures r.Some? ==> forall j :: from <= j < r.value ==> !fails(j)
    ensures r.None? ==> forall j :: from <= j < n ==> !fails(j)
    decreases n - from
  {
    if from >= n then None
    else if fails(from) then Some(from)
    else FirstFailing(fails, from + 1, n)
  }

  /** A position that fails, after positions that all pass, is the first failing one. */
  lemma FirstFailingIs(fails: nat -> bool, n: nat, i: nat)
    requires i < n && fails(i)
    requires forall j :: 0 <= j < i ==> !fails(j)
    ensures FirstFailing(fails, 0, n) == Some(i)
  {
  }

  /** The events of running before-callbacks `ids` in order. */
  function BeforeEvents(ids: seq<CallbackId>): seq<Event> {
    if ids == [] then [] else BeforeEvents(ids[..|ids| - 1]) + [BeforeCallback(ids[|ids| - 1])]
  }

  /** The events of running before-each callbacks `ids` in order, each
      given `ip`. */
  function EachEvents(ids: seq<CallbackId>, ip: string): seq<Event> {
    if ids == [] then [] else EachEvents(ids[..|ids| - 1], ip) + [BeforeEachCallback(ids[|ids| - 1], ip)]
  }

  /** Running before-callbacks shows exactly those callbacks, in order, and
      no other one-time step. */
  lemma {:induction false} BeforeEventsShow(ids: seq<CallbackId>)
    ensures ShownBy(BeforeEvents(ids)) == NothingShown.(hooks := ids)
    decreases |ids|
  {
    if ids != [] {
      var init := ids[..|ids| - 1];
      BeforeEventsShow(init);
      var t := BeforeEvents(ids);
      assert t[..|t| - 1] == BeforeEvents(init);
      assert init + [ids[|ids| - 1]] == ids;
    }
  }

  /** Running before-each callbacks shows no one-time step. */
  lemma {:induction false} EachEventsShow(ids: seq<CallbackId>, ip: string)
    ensures ShownBy(EachEvents(ids, ip)) == NothingShown
    decreases |ids|
  {
    if ids != [] {
      EachEventsShow(ids[..|ids| - 1], ip);
      var t := EachEvents(ids, ip);
      assert t[..|t| - 1] == EachEvents(ids[..|ids| - 1], ip);
    }
  }

  lemma BeforeEventsGrow(ids: seq<CallbackId>, i: nat)
    requires i < |ids|
    ensures BeforeEvents(ids[..i + 1]) == BeforeEvents(ids[..i]) + [BeforeCallback(ids[i])]
  {
    assert ids[..i + 1][..i] == ids[..i];
  }

  lemma EachEventsGrow(ids: seq<CallbackId>, i: nat, ip: string)
    requires i < |ids|
    ensures EachEvents(ids[..i + 1], ip) == EachEvents(ids[..i], ip) + [BeforeEachCallback(ids[i], ip)]
  {
    assert ids[..i + 1][..i] == ids[..i];
  }

  /** Appends event `e` to the trace. */
  function Emit(p: Progress, e: Event): (r: Progress)
    ensures r.ctx == p.ctx && r.defers == p.defers && r.failure == p.failure
    ensures r.trace == p.trace + [e]
  {
    p.(trace := p.trace + [e])
  }

  lemma EmitShows(p: Progress, e: Event)
    ensures ShownBy(Emit(p, e).trace) == Note(ShownBy(p.trace), e)
  {
    var t := p.trace + [e];
    assert t[..|t| - 1] == p.trace;
  }

  /** Appends a run of callback events to the trace. */
  function EmitAll(p: Progress, events: seq<Event>): (r: Progress)
    ensures r.ctx == p.ctx && r.defers == p.defers && r.failure == p.failure
    ensures r.trace == p.trace + events
  {
    p.(trace := p.trace + events)
  }

  lemma EmitAllShows(p: Progress, events: seq<Event>)
    ensures ShownBy(EmitAll(p, events).trace) == Combine(ShownBy(p.trace), ShownBy(events))
  {
    ShownByAppend(p.trace, events);
  }

  /** `t.Fatal(why)`: record it; the first one decides the outcome. */
  function Fail(p: Progress, why: Reason): (r: Progress)
    ensures r.ctx == p.ctx && r.defers == p.defers && r.trace == p.trace + [Fatal(why)]
    ensures r.failure.Some? && (p.failure.Some? ==> r.failure == p.failure)
  {
    Emit(p, Fatal(why)).(failure := if p.failure.None? then Some(why) else p.failure)
  }

  lemma FailShows(p: Progress, why: Reason)
    ensures ShownBy(Fail(p, why).trace) == ShownBy(p.trace)
  {
    EmitShows(p, Fatal(why));
  }

  /** A write to the (already created) log file. */
  function Write(p: Progress, text: string): (r: Progress)
    ensures r.ctx.log == p.ctx.log + [text] && r.trace == p.trace + [Wrote(text)]
    ensures r.ctx == p.ctx.(log := r.ctx.log) && r.defers == p.defers && r.failure == p.failure
  {
    Emit(p, Wrote(text)).(ctx := p.ctx.(log := p.ctx.log + [text]))
  }

  lemma WriteShows(p: Progress, text: string)
    ensures ShownBy(Write(p, text).trace) == ShownBy(p.trace)
  {
    EmitShows(p, Wrote(text));
  }

  /** gompose_testing.go:40-45. The before-callbacks run in registration
      order while the flag is unset; the flag is set only once all of them
      have returned. */
  function BeforeStage(p: Progress, o: Oracle): (r: Progress)
    ensures Extends(p, r, Some(Hooks)) && r.defers == p.defers
    ensures p.ctx.beforeCallbackRan ==> r == p
    ensures r.failure.Some? ==> !r.ctx.beforeCallbackRan || p.failure.Some?
  {
    var cbs := p.ctx.beforeCallbacks;
    if p.ctx.beforeCallbackRan then p
    else
      match FirstFailing(o.beforeFails, 0, |cbs|)
      case Some(k) =>
        Fail(EmitAll(p, BeforeEvents(cbs[..k + 1])), BeforeCallbackFatal(k))
      case None =>
        EmitAll(p, BeforeEvents(cbs)).(ctx := p.ctx.(beforeCallbackRan := true))
  }

  /** gompose_testing.go:47-59. Resolve and cache the Docker address when
      none is cached yet. */
  function IpStage(p: Progress, o: Oracle): (r: Progress)
    ensures Extends(p, r, Some(Address)) && r.defers == p.defers
    ensures |p.ctx.ip| > 0 ==> r == p
  {
    if |p.ctx.ip| > 0 then p
    else if o.machineActive.CmdErr? then
      Emit(p, MachineActive).(ctx := p.ctx.(ip := Loopback))
    else
      var queried := Emit(Emit(p, MachineActive), MachineIp(MachineName(o.machineActive)));
      match ResolvedIp(o.machineActive, o.machineIp)
      case None => Fail(queried, MachineIpFailed)
      case Some(addr) => queried.(ctx := queried.ctx.(ip := addr))
  }

  /** gompose_testing.go:61-70. Create the log file once; register the
      deferred sync. */
  function LogStage(p: Progress): (r: Progress)
    ensures Extends(p, r, Some(LogOpen)) && r.failure == p.failure
    ensures r.defers == p.defers + [SyncLog] && r.ctx.logFile
    ensures p.ctx.logFile ==> r.ctx == p.ctx && r.trace == p.trace
  {
    var created :=
      if p.ctx.logFile then p
      else Emit(p, LogCreated).(ctx := p.ctx.(logFile := true, log := []));
    created.(defers := created.defers + [SyncLog])
  }

  /** gompose_testing.go:72-81. Pull the images once; a failed pull writes
      its output to the log and leaves the flag unset. */
  function PullStage(p: Progress, o: Oracle): (r: Progress)
    requires p.ctx.logFile
    ensures Extends(p, r, Some(Pull)) && r.defers == p.defers
    ensures p.ctx.pulled ==> r == p
  {
    if p.ctx.pulled then p
    else PullResult(Emit(Write(p, PullingMsg), PullRan), o)
  }

  /** After `docker-compose pull` returned: on failure its output goes to
      the log and the flag stays unset; on success the flag is set and
      "done" is logged. */
  function PullResult(p: Progress, o: Oracle): (r: Progress)
    requires p.ctx.logFile
    ensures Evolves(p.ctx, r.ctx) && r.defers == p.defers
    ensures r.ctx.pulled <==> p.ctx.pulled || o.pull.CmdOk?
    ensures r.ctx.log == p.ctx.log + [if o.pull.CmdOk? then DoneMsg else o.pull.out]
    ensures r.failure.Some? <==> p.failure.Some? || o.pull.CmdErr?
  {
    match o.pull
    case CmdErr(out) => Fail(Write(p, out), PullFailed)
    case CmdOk(_) => Write(p.(ctx := p.ctx.(pulled := true)), DoneMsg)
  }

  /** gompose_testing.go:83-89. Start `up`; only a started process gets
      the deferred shutdown. */
  function StartStage(p: Progress, o: Oracle): (r: Progress)
    ensures r.ctx == p.ctx
    ensures r.failure.None? <==> p.failure.None? && o.startOk
    ensures r.defers == if o.startOk then p.defers + [Shutdown] else p.defers
  {
    var tried := Emit(p, Up);
    if !o.startOk then Fail(tried, StartFailed)
    else tried.(defers := tried.defers + [Shutdown])
  }

  /** gompose_testing.go:118-125. Number the run, write its start marker and
      register the deferred end marker. */
  function MarkerStage(p: Progress): (r: Progress)
    requires p.ctx.logFile
    ensures r.failure == p.failure
    ensures r.ctx == p.ctx.(testNum := p.ctx.testNum + 1, log := p.ctx.log + [StartMarker(p.ctx.testNum + 1)])
    ensures r.defers == p.defers + [WriteEndMarker]
  {
    var n := p.ctx.testNum + 1;
    var marked := Write(p.(ctx := p.ctx.(testNum := n)), StartMarker(n));
    marked.(defers := marked.defers + [WriteEndMarker])
  }

  /** gompose_testing.go:127-129. The before-each callbacks, in
      registration order, each given the cached address. */
  function EachStage(p: Progress, o: Oracle): (r: Progress)
    ensures r.ctx == p.ctx && r.defers == p.defers
  {
    var cbs := p.ctx.beforeEachCallbacks;
    match FirstFailing(o.beforeEachFails, 0, |cbs|)
    case Some(k) =>
      Fail(EmitAll(p, EachEvents(cbs[..k + 1], p.ctx.ip)), BeforeEachCallbackFatal(k))
    case None =>
      EmitAll(p, EachEvents(cbs, p.ctx.ip))
  }

  /** gompose_testing.go:131-132. */
  function BodyStage(p: Progress, o: Oracle): (r: Progress)
    ensures r.ctx == p.ctx && r.defers == p.defers
  {
    var ran := Emit(p, TestBody(p.ctx.ip));
    if o.bodyFails then Fail(ran, TestBodyFatal) else ran
  }

  /** gompose_testing.go:90-116. Interrupt, then either the process exits
      (an exit error is only logged) and the containers are removed, or the
      5 s timer fires and the process is killed; the `t.Fatal` after the
      kill ends the deferred function, so `rm -f` is not reached. */
  function ShutdownStep(p: Progress, o: Oracle): (r: Progress)
    ensures r.ctx == p.ctx && r.defers == p.defers
  {
    var signalled := Emit(p, Interrupt);
    if !o.signalOk then Fail(signalled, SignalFailed)
    else if o.wait == TimedOut then
      var killed := Emit(signalled, Kill);
      if !o.killOk then Fail(killed, KillFailed) else Fail(killed, KilledOnTimeout)
    else RemoveContainers(signalled, o)
  }

  /** The process exited within the 5 s: a non-zero exit is only logged,
      then `docker-compose rm -f` runs. */
  function RemoveContainers(p: Progress, o: Oracle): (r: Progress)
    ensures r.ctx == p.ctx && r.defers == p.defers
    ensures o.rm.CmdOk? ==> r.failure == p.failure
    ensures o.rm.CmdErr? ==> r.failure == if p.failure.Some? then p.failure else Some(RmFailed(o.rm.out))
  {
    var waited := if o.wait == ExitedWithError then Emit(p, Logged) else p;
    var removed := Emit(waited, Rm);
    if o.rm.CmdErr? then Fail(removed, RmFailed(o.rm.out)) else removed
  }

  /** One deferred action. The end marker reads the sequence number when it
      runs (gompose_testing.go:121-125); the sync is gompose_testing.go:66-70. */
  function RunDeferred(d: Deferred, p: Progress, o: Oracle): (r: Progress)
    ensures Extends(p, r, None) && r.defers == p.defers
  {
    match d
    case WriteEndMarker => Write(p, EndMarker(p.ctx.testNum))
    case Shutdown => ShutdownStep(p, o)
    case SyncLog =>
      var synced := Emit(p, LogSynced);
      if o.syncOk then synced else Fail(synced, SyncFailed)
  }

  /** The deferred actions run last-registered first, each to its end even
      after an earlier `t.Fatal`. */
  function Unwind(p: Progress, o: Oracle): (r: Progress)
    ensures Extends(p, r, None) && r.defers == []
    ensures p.failure.Some? ==> r.failure == p.failure
    decreases |p.defers|
  {
    if p.defers == [] then p
    else
      var last := p.defers[|p.defers| - 1];
      Unwind(RunDeferred(last, p.(defers := p.defers[..|p.defers| - 1]), o), o)
  }

  function Finish(p: Progress, o: Oracle): RunResult {
    var q := Unwind(p, o);
    RunResult(q.ctx, OutcomeOf(q.failure), q.trace)
  }

  /** The one-time steps before `up` is started (gompose_testing.go:40-81),
      stopping at the first `t.Fatal`. */
  function SetUp(c: Ctx, o: Oracle): (r: Progress)
    ensures Evolves(c, r.ctx) && r.ctx.testNum == c.testNum
    ensures r.failure.None? ==> r.ctx.logFile && r.defers == [SyncLog]
    ensures r.failure.Some? ==> r.defers <= [SyncLog]
  {
    var hooked := BeforeStage(Progress(c, [], [], None), o);
    if hooked.failure.Some? then hooked
    else
      var addressed := IpStage(hooked, o);
      if addressed.failure.Some? then addressed
      else PullStage(LogStage(addressed), o)
  }

  /** The whole of `Run` (gompose_testing.go:35-133) as a function of the
      context before the run and the oracle. */
  function RunSpec(c: Ctx, o: Oracle): (r: RunResult)
    ensures Evolves(c, r.ctx) && r.ctx.testNum <= c.testNum + 1
    ensures r.outcome.Skipped? <==> o.short
  {
    if o.short then RunResult(c, Skipped, [])
    else
      var prepared := SetUp(c, o);
      if prepared.failure.Some? then Finish(prepared, o)
      else
        var started := StartStage(prepared, o);
        if started.failure.Some? then Finish(started, o)
        else
          var hooked := EachStage(MarkerStage(started), o);
          if hooked.failure.Some? then Finish(hooked, o)
          else Finish(BodyStage(hooked, o), o)
  }

  // ---------------------------------------------------------------------
  // The package-global context, updated in place
  // ---------------------------------------------------------------------

  /** `testContext` (gompose_testing.go:12-20). `Run` is split into one
      method per step; each takes the events so far and the deferred
      actions registered so far, and is proved to perform its step function. */
  class TestContext {
    var beforeCallbacks: seq<CallbackId>
    var beforeEachCallbacks: seq<CallbackId>
    var beforeCallbackRan: bool
    var pulled: bool
    var ip: string
    var logFile: bool
    var log: seq<string>
    var testNum: nat

    function Snapshot(): Ctx
      reads this
    {
      Ctx(beforeCallbacks, beforeEachCallbacks, beforeCallbackRan, pulled, ip, logFile, log, testNum)
    }

    function At(trace: seq<Event>, defers: seq<Deferred>, failure: Option<Reason>): Progress
      reads this
    {
      Progress(Snapshot(), trace, defers, failure)
    }

    /** The zero value of the package variable `context`. */
    constructor ()
      ensures Snapshot() == Zero
    {
      beforeCallbacks, beforeEachCallbacks := [], [];
      beforeCallbackRan, pulled := false, false;
      ip, logFile, log, testNum := [], false, [], 0;
    }

    /** gompose_testing.go:25-27. */
    method RegisterBeforeCallback(f: CallbackId)
      modifies this
      ensures Snapshot() == old(Snapshot()).(beforeCallbacks := old(beforeCallbacks) + [f])
    {
      beforeCallbacks := beforeCallbacks + [f];
    }

    /** gompose_testing.go:30-32. */
    method RegisterBeforeEachCallback(f: CallbackId)
      modifies this
      ensures Snapshot() == old(Snapshot()).(beforeEachCallbacks := old(beforeEachCallbacks) + [f])
    {
      beforeEachCallbacks := beforeEachCallbacks + [f];
    }

    /** The loop of gompose_testing.go:41-43: the before-callbacks in
        registration order, up to and including the first that fails. */
    method CallBeforeCallbacks(o: Oracle, trace0: seq<Event>) returns (trace: seq<Event>, failed: Option<nat>)
      ensures failed == FirstFailing(o.beforeFails, 0, |beforeCallbacks|)
      ensures failed.Some? ==> trace == trace0 + BeforeEvents(beforeCallbacks[..failed.value + 1])
      ensures failed.None? ==> trace == trace0 + BeforeEvents(beforeCallbacks)
    {
      trace, failed := trace0, None;
      var i := 0;
      while i < |beforeCallbacks|
        invariant 0 <= i <= |beforeCallbacks|
        invariant trace == trace0 + BeforeEvents(beforeCallbacks[..i])
        invariant forall j :: 0 <= j < i ==> !o.beforeFails(j)
      {
        BeforeEventsGrow(beforeCallbacks, i);
        trace := trace + [BeforeCallback(beforeCallbacks[i])];
        if o.beforeFails(i) {
          FirstFailingIs(o.beforeFails, |beforeCallbacks|, i);
          return trace, Some(i);
        }
        i := i + 1;
      }
      assert beforeCallbacks[..i] == beforeCallbacks;
    }

    /** gompose_testing.go:40-45. */
    method RunBeforeCallbacks(o: Oracle, trace0: seq<Event>) returns (trace: seq<Event>, failure: Option<Reason>)
      modifies this
      ensures At(trace, [], failure) == BeforeStage(old(At(trace0, [], None)), o)
    {
      trace, failure := trace0, None;
      if beforeCallbackRan {
        return;
      }
      var failed;
      trace, failed := CallBeforeCallbacks(o, trace);
      if failed.Some? {
        trace := trace + [Fatal(BeforeCallbackFatal(failed.value))];
        failure := Some(BeforeCallbackFatal(failed.value));
        return;
      }
      beforeCallbackRan := true;
    }

    /** gompose_testing.go:47-59. */
    method ResolveIp(o: Oracle, trace0: seq<Event>) returns (trace: seq<Event>, failure: Option<Reason>)
      modifies this
      ensures At(trace, [], failure) == IpStage(old(At(trace0, [], None)), o)
    {
      trace, failure := trace0, None;
      if |ip| == 0 {
        trace := trace + [MachineActive];
        if o.machineActive.CmdErr? {
          ip := Loopback;
        } else {
          trace := trace + [MachineIp(MachineName(o.machineActive))];
          if o.machineIp.CmdErr? {
            trace := trace + [Fatal(MachineIpFailed)];
            failure := Some(MachineIpFailed);
            return;
          }
          ip := Trim(o.machineIp.out);
        }
      }
    }

    /** gompose_testing.go:61-70: the deferred sync is pushed on `defers`. */
    method OpenLog(trace0: seq<Event>, defers0: seq<Deferred>) returns (trace: seq<Event>, defers: seq<Deferred>)
      modifies this
      ensures At(trace, defers, None) == LogStage(old(At(trace0, defers0, None)))
    {
      trace := trace0;
      if !logFile {
        logFile, log := true, [];
        trace := trace + [LogCreated];
      }
      defers := defers0 + [SyncLog];
    }

    /** gompose_testing.go:72-81. */
    method PullImages(o: Oracle, trace0: seq<Event>, ghost defers: seq<Deferred>) returns (trace: seq<Event>, failure: Option<Reason>)
      requires logFile
      modifies this
      ensures At(trace, defers, failure) == PullStage(old(At(trace0, defers, None)), o)
    {
      trace, failure := trace0, None;
      if !pulled {
        log := log + [PullingMsg];
        trace := trace + [Wrote(PullingMsg), PullRan];
        if o.pull.CmdErr? {
          log := log + [o.pull.out];
          trace := trace + [Wrote(o.pull.out), Fatal(PullFailed)];
          failure := Some(PullFailed);
          return;
        }
        pulled := true;
        log := log + [DoneMsg];
        trace := trace + [Wrote(DoneMsg)];
      }
    }

    /** gompose_testing.go:83-89: a started `up` gets the deferred shutdown. */
    method StartCompose(o: Oracle, trace0: seq<Event>, defers0: seq<Deferred>)
      returns (trace: seq<Event>, defers: seq<Deferred>, failure: Option<Reason>)
      ensures At(trace, defers, failure) == StartStage(At(trace0, defers0, None), o)
    {
      trace, defers, failure := trace0 + [Up], defers0, None;
      if !o.startOk {
        trace := trace + [Fatal(StartFailed)];
        failure := Some(StartFailed);
        return;
      }
      defers := defers + [Shutdown];
    }

    /** gompose_testing.go:118-125. */
    method RecordTestNum(trace0: seq<Event>, defers0: seq<Deferred>) returns (trace: seq<Event>, defers: seq<Deferred>)
      requires logFile
      modifies this
      ensures At(trace, defers, None) == MarkerStage(old(At(trace0, defers0, None)))
    {
      testNum := testNum + 1;
      log := log + [StartMarker(testNum)];
      trace := trace0 + [Wrote(StartMarker(testNum))];
      defers := defers0 + [WriteEndMarker];
    }

    /** gompose_testing.go:127-129. */
    method RunBeforeEachCallbacks(o: Oracle, trace0: seq<Event>, ghost defers: seq<Deferred>)
      returns (trace: seq<Event>, failure: Option<Reason>)
      ensures At(trace, defers, failure) == EachStage(At(trace0, defers, None), o)
    {
      trace, failure := trace0, None;
      var i := 0;
      while i < |beforeEachCallbacks|
        invariant 0 <= i <= |beforeEachCallbacks|
        invariant trace == trace0 + EachEvents(beforeEachCallbacks[..i], ip)
        invariant forall j :: 0 <= j < i ==> !o.beforeEachFails(j)
      {
        EachEventsGrow(beforeEachCallbacks, i, ip);
        trace := trace + [BeforeEachCallback(beforeEachCallbacks[i], ip)];
        if o.beforeEachFails(i) {
          FirstFailingIs(o.beforeEachFails, |beforeEachCallbacks|, i);
          trace := trace + [Fatal(BeforeEachCallbackFatal(i))];
          failure := Some(BeforeEachCallbackFatal(i));
          return;
        }
        i := i + 1;
      }
      assert beforeEachCallbacks[..i] == beforeEachCallbacks;
    }

    /** gompose_testing.go:131-132. */
    method RunTestBody(o: Oracle, trace0: seq<Event>, ghost defers: seq<Deferred>)
      returns (trace: seq<Event>, failure: Option<Reason>)
      ensures At(trace, defers, failure) == BodyStage(At(trace0, defers, None), o)
    {
      trace, failure := trace0 + [TestBody(ip)], None;
      if o.bodyFails {
        trace := trace + [Fatal(TestBodyFatal)];
        failure := Some(TestBodyFatal);
      }
    }

    /** The deferred shutdown of gompose_testing.go:90-116; every `t.Fatal`
        in it ends the deferred function. */
    method ShutDown(o: Oracle, trace0: seq<Event>, failure0: Option<Reason>, ghost defers: seq<Deferred>)
      returns (trace: seq<Event>, failure: Option<Reason>)
      ensures At(trace, defers, failure) == ShutdownStep(At(trace0, defers, failure0), o)
    {
      trace, failure := trace0 + [Interrupt], failure0;
      var why: Reason;
      if !o.signalOk {
        why := SignalFailed;
      } else if o.wait == TimedOut {
        trace := trace + [Kill];
        why := if o.killOk then KilledOnTimeout else KillFailed;
      } else {
        if o.wait == ExitedWithError {
          trace := trace + [Logged];
        }
        trace := trace + [Rm];
        if o.rm.CmdOk? {
          return;
        }
        why := RmFailed(o.rm.out);
      }
      trace := trace + [Fatal(why)];
      if failure.None? {
        failure := Some(why);
      }
    }

    /** The deferred actions, most recent first (Go's defer order). */
    method RunDeferred(o: Oracle, trace0: seq<Event>, defers: seq<Deferred>, failure0: Option<Reason>)
      returns (trace: seq<Event>, failure: Option<Reason>)
      modifies this
      ensures At(trace, [], failure) == old(Unwind(At(trace0, defers, failure0), o))
    {
      trace, failure := trace0, failure0;
      var rest := defers;
      while rest != []
        invariant Unwind(At(trace, rest, failure), o) == old(Unwind(At(trace0, defers, failure0), o))
        decreases |rest|
      {
        var d := rest[|rest| - 1];
        rest := rest[..|rest| - 1];
        match d
        case WriteEndMarker =>
          log := log + [EndMarker(testNum)];
          trace := trace + [Wrote(EndMarker(testNum))];
        case Shutdown =>
          trace, failure := ShutDown(o, trace, failure, rest);
        case SyncLog =>
          trace := trace + [LogSynced];
          if !o.syncOk {
            trace := trace + [Fatal(SyncFailed)];
            if failure.None? {
              failure := Some(SyncFailed);
            }
          }
      }
    }

    /** Leaving `Run`: the deferred actions run, and the first `t.Fatal`
        decides the outcome. */
    method Conclude(o: Oracle, trace0: seq<Event>, defers: seq<Deferred>, failure0: Option<Reason>)
      returns (outcome: Outcome<Reason>, trace: seq<Event>)
      modifies this
      ensures RunResult(Snapshot(), outcome, trace) == old(Finish(At(trace0, defers, failure0), o))
    {
      var failure;
      trace, failure := RunDeferred(o, trace0, defers, failure0);
      outcome := OutcomeOf(failure);
    }

    /** gompose_testing.go:35-133: one run of a test under Compose. */
    method Run(o: Oracle) returns (outcome: Outcome<Reason>, trace: seq<Event>)
      modifies this
      ensures RunResult(Snapshot(), outcome, trace) == RunSpec(old(Snapshot()), o)
    {
      if o.short {
        return Skipped, [];
      }
      ghost var c := Snapshot();
      var defers: seq<Deferred> := [];
      var failure: Option<Reason>;
      trace, failure := RunBeforeCallbacks(o, []);
      ghost var p := At(trace, defers, failure);
      if failure.Some? {
        assert p == SetUp(c, o);
        outcome, trace := Conclude(o, trace, defers, failure);
        return;
      }
      trace, failure := ResolveIp(o, trace);
      ghost var q := At(trace, defers, failure);
      assert q == IpStage(p, o);
      if failure.Some? {
        assert q == SetUp(c, o);
        outcome, trace := Conclude(o, trace, defers, failure);
        return;
      }
      trace, defers := OpenLog(trace, defers);
      assert At(trace, defers, None) == LogStage(q);
      trace, failure := PullImages(o, trace, defers);
      assert At(trace, defers, failure) == SetUp(c, o);
      if failure.Some? {
        outcome, trace := Conclude(o, trace, defers, failure);
        return;
      }
      trace, defers, failure := StartCompose(o, trace, defers);
      if failure.Some? {
        outcome, trace := Conclude(o, trace, defers, failure);
        return;
      }
      ghost var started := At(trace, defers, failure);
      trace, defers := RecordTestNum(trace, defers);
      assert At(trace, defers, None) == MarkerStage(started);
      trace, failure := RunBeforeEachCallbacks(o, trace, defers);
      if failure.Some? {
        outcome, trace := Conclude(o, trace, defers, failure);
        return;
      }
      trace, failure := RunTestBody(o, trace, defers);
      outcome, trace := Conclude(o, trace, defers, failure);
    }
  }
}
