# Compose test harness lifecycle, modelled in Dafny

The repository provides a harness for end-to-end tests of a multi-container
application run by Docker Compose. A test calls the harness with its test
function. The harness brings the application up, runs the test against the
live instance, and takes the application down again. It does this in two
generations of the same design.

* **`gomposeTesting` (gompose_testing.go)** keeps one package-wide
  `testContext`. Its parts:
  - two append-only registries of callbacks: before the first test, and
    before each test;
  - one-time steps guarded by flags: the before-callbacks, the Docker
    address query, creating `test.log`, and `docker-compose pull`;
  - a supervised `docker-compose up --force-recreate` process;
  - a run number written into the log;
  - the before-each callbacks and the test body.

  Deferred actions run in reverse order of registration on every exit path:
  the end marker, the shutdown protocol, and the log sync. The shutdown
  protocol sends an interrupt, then either waits for the process to exit
  within 5 s and runs `rm -f`, or kills the process on timeout.
* **`compose` (compose.go)** keeps a caller-owned `TestContext`. A run:
  - builds the project once;
  - caches the Docker address;
  - runs `docker-compose up -d` and defers `docker-compose down`;
  - starts following the logs into `test.log` once;
  - numbers the run;
  - polls `/health_check` every 250 ms until it answers 204, giving up
    after 30 s;
  - runs the test function.

Each context is a Dafny `class` whose fields the methods update in place.
Every step of a run is one method, with one loop per loop of the source:
- calling the registered callbacks;
- the readiness poll;
- the deferred actions.

Each method is proved to perform a pure step function on the snapshot of
the context. The run as a whole (`Run`, `RunTest`) is proved equal to
`RunSpec`, a function of the context before the run and of an `Oracle`. The
`Oracle` holds everything the outside world decides:
- the exit status and output of each command;
- whether a callback or the test calls `t.Fatal`;
- which channel the shutdown `select` hears from first;
- what each health check returns, and how long it takes.

The properties are proved as lemmas about `RunSpec` and its stages:
- the one-time steps run at most once per context, across any number of
  runs;
- the address is cached and trimmed;
- the markers identify the run;
- the shutdown protocol and the `up`/`down` pairing;
- the bounds of the readiness poll;
- the exact outcome of a run, and when it passes.

Modules:
- `Harness` (harness.dfy) holds what both designs share: commands, outcomes,
  ASCII `TrimSpace`, decimal rendering, markers, and address resolution.
- `GomposeTesting` (gompose_testing.dfy) and `GomposeTestingProperties`
  (gompose_properties.dfy) model gompose_testing.go.
- `Compose` (compose.dfy) and `ComposeProperties` (compose_properties.dfy)
  model compose.go.

Points where the code behaves in ways a reader might not expect, all modelled
as the code does them:

* `t.Fatal` inside a deferred function ends that function, because Go's
  `runtime.Goexit` runs the remaining deferred calls but not the rest of the
  current one. So after a kill on timeout (gompose_testing.go:104-107), or
  after a failed interrupt (gompose_testing.go:92-94), `docker-compose rm -f`
  (gompose_testing.go:113) does not run, and containers can be left behind.
  `GomposeTestingProperties.ShutdownOrder` proves that `rm -f` runs exactly
  when the signal was delivered and the process exited before the timer
  fired.
* compose.go does not check the error of `os.Create` (compose.go:60), and
  no run of compose.go fails for it.
* In compose.go the log file is recorded in the context before the log
  follower is started (compose.go:60-64). A follower that fails to start is
  therefore never retried by a later run: see
  `ComposeProperties.OneTimeAcrossRuns`.
* The two designs write the end marker differently:
  - compose.go:70 evaluates the marker's text when the `defer` is
    registered;
  - gompose_testing.go:124 reads `testNum` when the deferred function runs.

  The model keeps both: `WriteEndMarker(n)` carries its number, and the
  gompose marker reads the context.

## Model

| member | source | states |
|---|---|---|
| Harness.TrimIsSlice | gompose_testing.go:51-55 | `bytes.TrimSpace` leaves a slice of its input: only white space is cut on either side, and the result neither starts nor ends with white space |
| Harness.TrimIdempotent | gompose_testing.go:55 | trimming an already trimmed address changes nothing |
| Harness.DecimalDigits | gompose_testing.go:120 | `%v` of the run number is all digits, with no leading zero unless the number is 0 |
| Harness.DecimalRoundTrip | gompose_testing.go:120 | reading the rendered run number back gives the number |
| Harness.DecimalInjective | compose.go:69 | distinct run numbers render differently |
| Harness.MarkersIdentifyRun | gompose_testing.go:120-124 | two start markers (or two end markers) are equal exactly when their numbers are; a start marker is never an end marker |

| Harness.ResolvedIpIsTrimmed | compose.go:33-45 | the cached address never carries surrounding white space, and the native fallback is never empty |
| GomposeTesting.FirstFailing | gompose_testing.go:41-43 | the first callback in a range that calls `t.Fatal`: every earlier one returned; none found means all returned |
| GomposeTesting.BeforeStage | gompose_testing.go:40-45 | the before-callbacks run only while the flag is unset; a `t.Fatal` leaves the flag unset; no other one-time state and no run number change |
| GomposeTesting.IpStage | gompose_testing.go:47-59 | a cached address is kept and nothing is queried; only the address changes |
| GomposeTesting.LogStage | gompose_testing.go:61-70 | the log file exists afterwards and is created only if it did not exist; the sync is deferred on every run |
| GomposeTesting.PullStage | gompose_testing.go:72-81 | a pulled context is left alone; only the pull flag and the log change |
| GomposeTesting.PullResult | gompose_testing.go:75-80 | after `docker-compose pull` the flag is set exactly when it was set or the pull succeeds; the log gets "done" or the failed pull's output; the pull is fatal exactly when it fails |
| GomposeTesting.StartStage | gompose_testing.go:83-89 | a started `up` leaves no failure and gets the deferred shutdown; a failed start is a `t.Fatal` with nothing deferred |
| GomposeTesting.MarkerStage | gompose_testing.go:118-125 | the run number goes up by one, its start marker is logged, and the end marker is deferred |
| GomposeTesting.EachStage | gompose_testing.go:127-129 | the before-each callbacks change neither the context nor the deferred actions |
| GomposeTesting.BodyStage | gompose_testing.go:131-132 | the test body changes neither the context nor the deferred actions |
| GomposeTesting.ShutdownStep | gompose_testing.go:90-116 | the shutdown leaves the context and the remaining deferred actions alone |
| GomposeTesting.RemoveContainers | gompose_testing.go:108-115 | a non-zero exit of `up` is only logged and is never fatal; the step fails only when `rm -f` fails, and then only if no earlier `t.Fatal` came first |
| GomposeTesting.RunDeferred | gompose_testing.go:66-125 | each deferred action (the sync, the shutdown, the end marker) keeps the one-time state and the number and touches only the log of the context |
| GomposeTesting.Unwind | gompose_testing.go:66-125 | unwinding empties the deferred stack, keeps an earlier `t.Fatal` as the outcome, and changes no one-time state |
| GomposeTesting.SetUp | gompose_testing.go:40-81 | the set-up keeps the run number; a successful set-up has the log file and exactly the sync deferred |
| GomposeTesting.RunSpec | gompose_testing.go:35-133 | a run only moves the context forward (registries kept, flags only set, a cached address kept, the log file kept), takes at most one number, and is skipped exactly in short mode |
| GomposeTesting.TestContext.constructor | gompose_testing.go:22 | the package variable starts at Go's zero value |
| GomposeTesting.TestContext.RegisterBeforeCallback | gompose_testing.go:25-27 | appends the callback to the before-registry; nothing else changes |
| GomposeTesting.TestContext.RegisterBeforeEachCallback | gompose_testing.go:30-32 | appends the callback to the before-each registry; nothing else changes |
| GomposeTesting.TestContext.CallBeforeCallbacks | gompose_testing.go:41-43 | the loop calls the callbacks in registration order, up to and including the first that fails, which it reports |
| GomposeTesting.TestContext.RunBeforeCallbacks | gompose_testing.go:40-45 | performs `BeforeStage` on the fields |
| GomposeTesting.TestContext.ResolveIp | gompose_testing.go:47-59 | performs `IpStage` on the fields |
| GomposeTesting.TestContext.OpenLog | gompose_testing.go:61-70 | performs `LogStage` on the fields |
| GomposeTesting.TestContext.PullImages | gompose_testing.go:72-81 | performs `PullStage` on the fields |
| GomposeTesting.TestContext.StartCompose | gompose_testing.go:83-89 | performs `StartStage` |
| GomposeTesting.TestContext.RecordTestNum | gompose_testing.go:118-125 | performs `MarkerStage` on the fields |
| GomposeTesting.TestContext.RunBeforeEachCallbacks | gompose_testing.go:127-129 | the loop performs `EachStage`: each callback in order gets the cached address, up to the first `t.Fatal` |
| GomposeTesting.TestContext.RunTestBody | gompose_testing.go:131-132 | performs `BodyStage` |
| GomposeTesting.TestContext.ShutDown | gompose_testing.go:90-116 | performs `ShutdownStep` |
| GomposeTesting.TestContext.RunDeferred | gompose_testing.go:66-125 | the loop pops the deferred actions, most recent first, and performs `Unwind` |
| GomposeTesting.TestContext.Conclude | gompose_testing.go:66-125 | the deferred actions run and the first `t.Fatal` decides the outcome |
| GomposeTesting.TestContext.Run | gompose_testing.go:35-133 | a run updates the context and yields the outcome and events that `RunSpec` gives |
| GomposeTestingProperties.ShutdownOrder | gompose_testing.go:92-115 | the shutdown starts with the interrupt; `rm -f` runs exactly when the signal was delivered and the process exited before the timer; a kill happens exactly on timeout and always fails the run; the shutdown succeeds exactly when the signal, the wait and `rm -f` all succeed |
| GomposeTestingProperties.ShutdownStepEvents | gompose_testing.go:90-116 | the shutdown's events, per branch of the `select` |
| GomposeTestingProperties.ShutdownStepFailure | gompose_testing.go:90-116 | the shutdown's `t.Fatal` counts only when no earlier one happened |
| GomposeTestingProperties.UnwindSync | gompose_testing.go:66-70 | with only the sync deferred, leaving a run syncs the log, and a failed sync is fatal unless an earlier `t.Fatal` came first |
| GomposeTestingProperties.UnwindStarted | gompose_testing.go:66-125 | a started run leaves through the end marker (read with the current number), then the shutdown, then the sync; the first `t.Fatal` wins |
| GomposeTestingProperties.SetUpEffect | gompose_testing.go:40-81 | the set-up's one-time steps, context and `t.Fatal`, read off the context and the oracle |
| GomposeTestingProperties.SetUpSucceedsIff | gompose_testing.go:40-81 | the set-up succeeds exactly when the before-callbacks ran or all pass, the address is cached or resolvable, and the images are pulled or the pull succeeds |
| GomposeTestingProperties.OneTimeSteps | gompose_testing.go:40-81 | over a whole run, the one-time steps shown and the one-time state are those of the set-up |
| GomposeTestingProperties.BeforeCallbacksRunOnce | gompose_testing.go:40-45 | before-callbacks run only while the flag is unset, in registration order, up to the first failure; the flag is set exactly when all of them returned |
| GomposeTestingProperties.AddressCachedOnce | gompose_testing.go:47-59 | a cached address is kept without a query; otherwise the machine is queried, and the cache holds 127.0.0.1, the trimmed `docker-machine ip` output, or stays empty after a failed query |
| GomposeTestingProperties.ImagesPulledOnce | gompose_testing.go:72-81 | the pull runs exactly when the images are not pulled yet and the run reaches it; the flag is set exactly when it succeeds; the log gets the announcement and then "done" or the pull's output |
| GomposeTestingProperties.TestedTrace | gompose_testing.go:127-132 | the per-run events: the before-each callbacks with the cached address up to the first failure, else the body |
| GomposeTestingProperties.TestedState | gompose_testing.go:127-132 | the per-run part changes no state, and its `t.Fatal` is the first failing callback's or the body's |
| GomposeTestingProperties.StartedRunLog | gompose_testing.go:118-125 | a started run increments the number and logs its start and end marker, with the same number |
| GomposeTestingProperties.StartedRunTrace | gompose_testing.go:83-133 | a started run's events: set-up, `up`, start marker, callbacks and body, end marker, shutdown, sync |
| GomposeTestingProperties.StartedRunOutcome | gompose_testing.go:90-133 | a started run fails with the first `t.Fatal` of the test, the shutdown and the sync, in that order |
| GomposeTestingProperties.UnstartedRun | gompose_testing.go:83-89 | a run that does not start `up` is not numbered, keeps the set-up's context, and fails with the set-up's or the start's `t.Fatal` |
| GomposeTestingProperties.ShortRunSkips | gompose_testing.go:36-38 | in short mode the run is skipped and changes nothing |
| GomposeTestingProperties.RunOutcome | gompose_testing.go:35-133 | the outcome of any run, as the first `t.Fatal` along the run |
| GomposeTestingProperties.PassedIff | gompose_testing.go:35-133 | a run passes exactly when it is not skipped and each of the set-up, the start, the callbacks and body, the shutdown and the sync succeeds |
| GomposeTestingProperties.RunEvolves | gompose_testing.go:35-133 | a run only moves the context forward, and the number goes up by one exactly when `up` started |
| GomposeTestingProperties.RunsEvolve | gompose_testing.go:22 | any sequence of runs only moves the shared context forward, by at most one number per run |
| GomposeTestingProperties.OneTimeAcrossRuns | gompose_testing.go:40-81 | once a run has finished the before-callbacks, cached the address or pulled the images, no later run repeats that step, and the cached address stays |
| Compose.Poll | compose.go:73-86 | the wait sends at least one health check, ends ready exactly when the last check answered 204, and gives up only after more than 30 s |
| Compose.PollEnds | compose.go:74-86 | from any check on, the loop sends at least one more check, ends ready exactly when its last check was healthy, and gives up only after the deadline |
| Compose.BuildStage | compose.go:25-31 | the build runs only when not built yet; the flag is set exactly when built before or the build succeeds; only a failed build is fatal |
| Compose.IpStage | compose.go:33-45 | a cached address is kept; only the address changes |
| Compose.UpStage | compose.go:47-55 | `down` is deferred exactly when `up -d` succeeds |
| Compose.LogStage | compose.go:57-67 | the log file exists afterwards, and is created (empty) only on the first run |
| Compose.MarkerStage | compose.go:68-70 | the number goes up by one, the start marker is logged, and the end marker with that number is deferred |
| Compose.PollStage | compose.go:72-86 | the poll changes neither the context nor the deferred actions |
| Compose.FuncStage | compose.go:88-89 | the test function changes neither the context nor the deferred actions |
| Compose.RunDeferred | compose.go:51-55 | a deferred action touches only the log |
| Compose.Unwind | compose.go:51-70 | unwinding empties the deferred stack and keeps an earlier `t.Fatal` as the outcome |
| Compose.SetUp | compose.go:25-67 | the set-up keeps the number; a successful set-up has the log file and exactly `down` deferred |
| Compose.RunSpec | compose.go:20-90 | a run only moves the context forward (build flag only set, a cached address kept, the log file kept), takes at most one number, and is skipped exactly in short mode |
| Compose.TestContext.constructor | compose.go:13-18 | a new context is the zero `TestContext` |
| Compose.TestContext.Build | compose.go:25-31 | performs `BuildStage` on the fields |
| Compose.TestContext.ResolveIp | compose.go:33-45 | performs `IpStage` on the fields |
| Compose.TestContext.ComposeUp | compose.go:47-55 | performs `UpStage` |
| Compose.TestContext.FollowLogs | compose.go:57-67 | performs `LogStage` on the fields |
| Compose.TestContext.RecordTestNum | compose.go:68-70 | performs `MarkerStage` on the fields |
| Compose.TestContext.AwaitHealthy | compose.go:73-86 | the poll loop ends as `Poll` says and sends that many health checks to the cached address |
| Compose.TestContext.WaitForServer | compose.go:72-86 | performs `PollStage`: giving up is a `t.Fatal` |
| Compose.TestContext.RunTestFunc | compose.go:88-89 | performs `FuncStage` |
| Compose.TestContext.RunDeferred | compose.go:51-70 | the loop pops the deferred actions, most recent first, and performs `Unwind` |
| Compose.TestContext.Conclude | compose.go:51-70 | the deferred actions run and the first `t.Fatal` decides the outcome |
| Compose.TestContext.RunTest | compose.go:20-90 | a run updates the context and yields the outcome and events that `RunSpec` gives |
| ComposeProperties.PollFromFacts | compose.go:73-86 | from any check sent within 30.25 s, the poll stops at the first check that is healthy or returns after 30 s, is ready exactly when that check was healthy, and never sends more than 122 checks |
| ComposeProperties.PollFacts | compose.go:73-86 | the whole wait: 1 to 122 checks; it ends at the first check that is healthy (ready) or returns after more than 30 s (gives up); every earlier check was unhealthy and returned within 30 s |
| ComposeProperties.HealthyAtOnce | compose.go:77-78 | a healthy first answer ends the wait after one check, with no sleep |
| ComposeProperties.NeverHealthyGivesUpAtBound | compose.go:82 | a server that answers instantly but never healthily is given up on after exactly 122 checks at 30.25 s, so the bound is reached and "more than 30 s" is strict |
| ComposeProperties.BuildStep | compose.go:25-31 | the build's events, context and `t.Fatal` |
| ComposeProperties.IpStep | compose.go:33-45 | the address step's events, context and `t.Fatal` |
| ComposeProperties.UpStep | compose.go:47-50 | the `up -d` events and `t.Fatal` |
| ComposeProperties.LogStep | compose.go:57-67 | the log step's events, context and `t.Fatal`; the file is recorded even when the follower fails |
| ComposeProperties.SetUpEffect | compose.go:25-67 | the set-up's events, context, `t.Fatal` and deferred actions, read off the context and the oracle |
| ComposeProperties.UnwindDown | compose.go:51-55 | with only `down` deferred, leaving a run runs `down`, and its failure is fatal unless an earlier `t.Fatal` came first |
| ComposeProperties.UnwindNumbered | compose.go:51-70 | a numbered run leaves through the end marker with the registered number, then `down` |
| ComposeProperties.TestedState | compose.go:68-89 | the numbered part increments the number, logs the start marker, defers the end marker, and fails only on timeout or by the test function |
| ComposeProperties.TestedTrace | compose.go:68-89 | the numbered part's events: start marker, the health checks, then the test function or the timeout |
| ComposeProperties.ShortRunSkips | compose.go:21-23 | in short mode the run is skipped and changes nothing |
| ComposeProperties.RunWithoutUp | compose.go:25-50 | a run whose `up -d` fails or is not reached defers nothing, never runs `down`, and fails with the set-up's `t.Fatal` |
| ComposeProperties.RunWithFailedLogs | compose.go:59-66 | a run whose log follower fails to start still runs `down`, and fails with that `t.Fatal` |
| ComposeProperties.NumberedRunState | compose.go:68-70 | a numbered run increments the number and logs its start and end marker with the same number |
| ComposeProperties.NumberedRunTrace | compose.go:68-90 | a numbered run's events: set-up, start marker, health checks at the cached address, test function or timeout, end marker, `down` |
| ComposeProperties.NumberedRunOutcome | compose.go:72-90 | a numbered run fails with the timeout or the test's `t.Fatal`, else with a failed `down` |
| ComposeProperties.RunOutcome | compose.go:20-90 | the outcome of any run, as the first `t.Fatal` along the run |
| ComposeProperties.PassedIff | compose.go:20-90 | a run passes exactly when it is not skipped and the build, the address query, `up`, the follower, the wait, the test function and `down` all succeed where reached |
| ComposeProperties.DownPairsWithUp | compose.go:47-55 | `down` runs last exactly when `up -d` succeeded, and not at all otherwise |
| ComposeProperties.FuncOnlyWhenHealthy | compose.go:74-89 | when the wait ends ready, it took 1 to 122 checks, the last one healthy and every earlier one not, and the test function comes next with the cached address |
| ComposeProperties.TestFuncIffHealthy | compose.go:72-89 | the test function runs in a run exactly when the run is not skipped, reaches the markers and a health check answered 204 in time, and it then gets the cached address |
| ComposeProperties.RunTraceSplit | compose.go:20-90 | every run that is not skipped is its set-up's events followed by its tail: nothing without `up -d`, only `down` after a failed follower, else markers, checks, test function or timeout, and `down` |
| ComposeProperties.OneTimeEvents | compose.go:25-67 | a run's events show the build exactly when not built yet, the address query exactly when no address is cached and the build did not fail, and the log file and follower exactly when there is no log file and `up -d` succeeded |
| ComposeProperties.RunEvolves | compose.go:20-90 | a run only moves the context forward; the number goes up exactly when the run reaches the markers; the build flag is set exactly when a build has succeeded |
| ComposeProperties.RunsEvolve | compose.go:13-18 | any sequence of runs with one context only moves it forward, by at most one number per run |
| ComposeProperties.OneTimeAcrossRuns | compose.go:25-67 | once a run has built the project, no later run's events show a build; once an address is cached, no later run queries `docker-machine` and the address stays; once the log file exists, no later run creates it or starts the follower |

## Left out

- External commands (`./build.sh`, `docker-machine`, `docker-compose`), the callbacks and the test function are not executed. Their exit status, output and `t.Fatal` calls are fields of the `Oracle`.
- The concurrency of the shutdown is not modelled. The goroutine that waits for `up` to exit, racing the 5 s timer, is the three-way `Wait` oracle (exited, exited with error, timed out).
- The clock is integer milliseconds counted from the start of the poll. A health check's duration is an oracle (`latency`), and each sleep is exactly 250 ms. Time spent outside the poll is not counted, as in compose.go:73.
- The 100 ms sleep before the gompose end marker (gompose_testing.go:122) is left out, because it only delays the write.
- HTTP is not modelled: a health check's answer is the `Answer` oracle. The `port` argument and the URL it builds are left out, because the answer does not depend on them here.
- Errors of `WriteString`, `Write` and the process's output streams are ignored by the source. The model treats those writes as succeeding.
- The output of `docker-compose up`/`logs` streamed into the log file is not modelled. `log` holds only what the harness itself writes.
- `testNum`: Go's `int` is modelled as `nat`, so 64-bit overflow is not modelled.
- `Harness.Trim`: `bytes.TrimSpace` also trims Unicode white space. The model trims the six ASCII white-space characters only.
- `t.Log` of a non-zero exit is an event (`Logged`); its text is left out.
- The package-global `context` of gompose_testing.go is modelled as one `TestContext` object that every run receives. Go's package initialisation is its constructor.
- The `os.Create` of gompose_testing.go:64 is treated as succeeding. A failed create leaves a nil `*os.File`: its `Sync` at gompose_testing.go:67 returns an error, so the run fails there, and every later run retries the create. Neither the failure nor the retry is modelled.
- `Compose.Poll`, `ComposeProperties.PollFacts`, `ComposeProperties.PollFromFacts`: every health check is assumed to return (`latency` is a finite number of milliseconds). `http.Head` (compose.go:76) uses Go's default client, which has no timeout, so a server that accepts the connection and never answers hangs the loop at compose.go:74 for ever. The poll's termination and its bound of 122 checks hold only under this assumption.
