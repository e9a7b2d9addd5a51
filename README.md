# run_demo session driver of tobii-sys

This project is a model of `run_demo` in `examples/log_gaze.rs`, the sample session driver of
the tobii-sys eye-tracker bindings. `run_demo` works in three stages:

1. It creates the API context, lists the devices and opens the first device.
2. It subscribes to the gaze-point, gaze-origin and head-pose streams.
3. It runs 999 passes of a loop. Each pass waits for device callbacks and, after a successful
   wait, dispatches them. A timed-out wait is retried. A lost connection is answered with one
   reconnect. Any other failure ends the run, which returns that failure.

Every native handle is owned by a `PtrWrapper` guard. A guard releases its handle when it goes
out of scope. Rust drops the guards newest first, on every way out of the function, including
each early `?` return.

The native SDK is not modelled, only what it reports. An `Env` value fixes the status of every
call of one run:

- the API context create (`apiCreate`);
- the device listing (`devices`);
- the device create (`deviceCreate`);
- each subscribe (`subscribe`);
- for each pass of the loop, a `Cycle` holding the wait, dispatch and reconnect statuses.

Over these answers the model has three layers:

- **Functions** state what a run does: `Step` is one pass, `Poll` the loop, `Subscriptions` the
  subscription chain and `Run` the whole run.
- **Methods** do the same work imperatively:
  - `PollLoop` is the `for _i in 1..1000` loop, with `continue` and early `return`.
  - `Session` is the function body. It pushes each guard onto a `GuardStack` as it is made.
  - `RunDemo` is `Session` followed by the scope exit, `GuardStack.ReleaseAll`.

  Each method is proved equal to its function.
- **Lemmas** prove what the driver promises:
  - how errors propagate;
  - the order of waits, dispatches and reconnects;
  - that the loop runs at most 999 passes;
  - that each guard is released exactly once, newest first.

Files:

- `sdk.dfy`: statuses, `status_to_result`, streams, and the log of calls made.
- `guards.dfy`: handles and the guard stack with its release log.
- `poll.dfy`: the poll loop.
- `demo.dfy`: the whole run.

Behaviour worth noting:

- **Three subscriptions.** The eye-position subscription is commented out
  (`examples/log_gaze.rs:80-82`), so it is neither made nor released.
- **An empty device list ends the run with `Ok`** (`examples/log_gaze.rs:58-61`).
- **A dispatch status of "timed out" is fatal.** Only the raw connection-failed code is
  recovered after `tobii_device_process_callbacks`. Every other failing status, a timeout
  included, is returned by the `?` of line 109.
- **The loop budget is 999 passes**, as written in `for _i in 1..1000`.
  `Demo.RecoveringRunEndsWell` therefore follows its three interesting passes with 996
  timed-out ones.
- **The wait is checked after translation, the dispatch on the raw code.** `status_to_result`
  is modelled as a one-to-one translation of failing codes, so both checks recognise a lost
  connection in the same cases.

## Model

| member | source | states |
|---|---|---|
| Sdk.Reported | examples/log_gaze.rs:52-55 | what a call reports as `?` sees it: a device listing fails exactly when it returns an error, and every other call succeeds exactly when its status is the no-error code |
| Guards.GuardStack.Valid | examples/log_gaze.rs:53-86 | no ensures; the guard-stack invariant that `Push` and `ReleaseAll` keep: each handle owned by at most one guard, released at most once, and not owned once released |
| Guards.GuardStack.constructor | examples/log_gaze.rs:41-42 | a scope starts with no guards and no release calls |
| Sdk.StatusToResult | examples/log_gaze.rs:91-98 | a status translates to success exactly when it is the no-error code; a failing status becomes the error kind that stands for it, so nothing of the code is lost |
| Guards.GuardStack.Push | examples/log_gaze.rs:53 | a new guard is put on top of the guards in scope and releases nothing; each handle stays owned once |
| Guards.GuardStack.ReleaseAll | examples/log_gaze.rs:53-86 | at scope exit every guard in scope makes its release call, newest first, and none stays in scope or is released twice |
| Polling.Step | examples/log_gaze.rs:89-109 | one pass of the loop: it makes at most three calls and starts with its wait; its full behaviour is stated by `Polling.StepContract` and `Polling.StepCallOrder` |
| Polling.Reconnected | examples/log_gaze.rs:95-106 | the reconnect of lines 95-96 and 105-106: one reconnect call is added; the pass continues exactly when the reconnect succeeds, and otherwise exits with the reconnect's own error |
| Polling.Fold | examples/log_gaze.rs:88-110 | no ensures; the passes run in order and the first one that exits ends the loop with its error. It is characterised by `Polling.PollStaysExited`, `Polling.PollOkIffNoPassExits` and `Polling.PollEndsAtFirstExit` |
| Polling.Poll | examples/log_gaze.rs:88-110 | no ensures; the first `n` passes of the loop, the fold of `Step` over the cycles. `Polling.PollLoop` is proved equal to it, and the Poll lemmas below state its properties |
| Polling.StepContract | examples/log_gaze.rs:89-109 | one pass starts with its wait and makes at most three calls, only waits, dispatches and reconnects: the wait first, a dispatch only second, a reconnect only last. It dispatches exactly when the wait succeeded, and reconnects exactly when the wait or the dispatch lost the connection. It exits exactly on an unexpected wait error, a failed reconnect or a failed dispatch, with the error the last call reported, and never ends on an unanswered connection failure |
| Polling.StepCallOrder | examples/log_gaze.rs:89-107 | one pass makes one wait and at most one reconnect, dispatches only straight after a successful wait, and reconnects only straight after a lost connection |
| Polling.PollLoop | examples/log_gaze.rs:88-110 | the loop with `continue` and early returns gives the same result and the same calls as the pass-by-pass definition of 999 passes |
| Polling.PollStaysExited | examples/log_gaze.rs:92-109 | after a pass exits, later passes change neither the result nor the calls |
| Polling.PollOkIffNoPassExits | examples/log_gaze.rs:88-112 | the loop ends well if and only if no pass exits |
| Polling.PollEndsAtFirstExit | examples/log_gaze.rs:95-109 | the first pass that exits ends the loop with its own error, and no call follows that pass |
| Polling.PollTimeoutsKeepWaiting | examples/log_gaze.rs:91-92 | a run of timed-out waits neither ends the loop nor dispatches or reconnects: it adds one timed-out wait per pass and nothing else |
| Polling.PollCallOrder | examples/log_gaze.rs:89-107 | over the whole loop: every dispatch comes straight after a successful wait, every reconnect straight after a lost connection, and every lost connection is answered by a reconnect |
| Polling.PollErrorIsLastReport | examples/log_gaze.rs:95-109 | an error the loop returns is what its last call reported, unchanged |
| Polling.PollWaitCount | examples/log_gaze.rs:88 | the loop waits at most once per pass, so at most 999 times, and exactly 999 times when it ends well |
| Polling.PollDispatchCount | examples/log_gaze.rs:89-102 | dispatches never outnumber successful waits, and reconnects never outnumber waits |
| Polling.PollSubscribesNothing | examples/log_gaze.rs:93-106 | reconnecting inside the loop neither subscribes again nor touches the subscriptions |
| Demo.Subscriptions | examples/log_gaze.rs:72-86 | the subscription chain makes one guard per subscribe call, a guard for every stream when it ends well, and a guard even for the subscribe that failed |
| Demo.Run | examples/log_gaze.rs:41-113 | a whole run starts with the API context create, and leaves something to release exactly when that create succeeded, never more than the five guards of the chain |
| Demo.SubscriptionsChain | examples/log_gaze.rs:72-86 | the subscriptions are made in order, one guard per subscribe call, each guard for the stream of its call |
| Demo.SubscriptionsStopAtFirstFailure | examples/log_gaze.rs:72-86 | the chain stops at the first failing subscribe and returns its error; that subscribe still has its guard; the chain ends well only if every subscribe succeeds |
| Demo.Session | examples/log_gaze.rs:41-110 | the body of `run_demo`, with its early returns, makes the calls and gives the result of the run, and leaves exactly the run's guards in scope, none released yet |
| Demo.RunDemo | examples/log_gaze.rs:41-113 | `run_demo` returns the run's result after its calls. The release calls made on leaving are the guards made, newest first: a reversed prefix of API context, device and subscriptions, none twice |
| Demo.RunGuardsArePrefix | examples/log_gaze.rs:50-86 | the guards alive at the end are a prefix of the acquisition chain, none twice, and the whole chain when every setup call succeeds |
| Demo.RunReleasesEachGuardOnce | examples/log_gaze.rs:53-86 | on every way out each guard made is released exactly once, in reverse order of creation |
| Demo.RunCreatedHandles | examples/log_gaze.rs:50-70 | the API context is released if and only if its create succeeded; the device is released if and only if a device create succeeded |
| Demo.RunUnsubscribesEverySubscribe | examples/log_gaze.rs:72-86 | the unsubscribe calls on the way out name exactly the streams subscribe was called for, in order, the failed subscribe included |
| Demo.EmptyDeviceListEndsCleanly | examples/log_gaze.rs:55-61 | an empty device list ends the run with success, with no device, subscription or wait, and only the API context to release |
| Demo.RunOkIff | examples/log_gaze.rs:41-112 | a run ends well if and only if it finds no device after a good start, or every setup call succeeds and no pass of the loop exits |
| Demo.RunErrorIsLastReport | examples/log_gaze.rs:52-109 | every error a run returns is what its last call reported, unchanged |
| Demo.RunCallOrder | examples/log_gaze.rs:88-110 | over the whole run: dispatches only after successful waits, reconnects only after lost connections and each lost connection answered, at most 999 waits, no more dispatches than successful waits |
| Demo.GoodSetupRun | examples/log_gaze.rs:50-110 | when every setup call succeeds and the loop ends well, the run ends well, dispatches and reconnects only within the loop, subscribes to each of the three streams once and releases the whole chain newest first |
| Demo.RecoveringRunEndsWell | examples/log_gaze.rs:88-110 | one device at "mock://dev1", every subscribe good, then a pass with data, a timeout, a lost connection that reconnects and timeouts to the end: the run ends well after exactly one dispatch and one reconnect, and releases head pose, gaze origin, gaze point, device, API context in that order |

## Left out

- The four stream callbacks and their printing (`examples/log_gaze.rs:17-39`): they only format sample data.
- The progress printing inside `run_demo` (`examples/log_gaze.rs:48`, `56`, `59` and `94`, among them "Connection failed"): it is output only and changes no decision.
- `custom_log_fn` (`examples/log_gaze.rs:10-15`): it runs on the SDK's own thread and only prints.
- The bodies of the native `tobii_*` calls and of the `helpers` functions. What each call reports is an input of the model.
  - `status_to_result` is taken to be one-to-one on failing codes.
  - `list_devices` is taken to return either a list of urls or an error.
  - The failure handling inside `PtrWrapper`'s release call is not modelled. Neither is whether `reconnect` is idempotent; the model only counts reconnect calls.
- The arguments passed to the native calls other than the device url: the log sink, the `TOBII_FIELD_OF_USE_INTERACTIVE` mode, the callbacks and the device pointer.
- The `CString` conversion of the url and its `unwrap` (`examples/log_gaze.rs:63-65`): a url with an embedded NUL byte would panic. Urls are plain strings here.
- `main`'s error printing (`examples/log_gaze.rs:115-122`): it is output only.
- Status codes are unbounded integers. The native 32-bit width plays no part in any decision of the driver.
- Polling.PollLoop, Demo.Run, Demo.Session, Demo.RunDemo: each requires an answer for every one of the 999 passes, because the SDK's answers are given in advance rather than produced call by call.
