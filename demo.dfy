/** `run_demo`: create the API context, list the devices, open the first
    one, subscribe to three streams, run the poll loop, and release every
    handle acquired on the way out. Each step that fails ends the run with
    its error; the guards made so far are released, newest first. */
module Demo {
  import opened Sdk
  import opened Guards
  import opened Polling

  /** What the SDK reports to each call of one run. */
  datatype Env = Env(
    apiCreate: Status,                 // tobii_api_create
    devices: Result<seq<string>>,      // helpers::list_devices
    deviceCreate: Status,              // tobii_device_create on the first url
    subscribe: Stream -> Status,       // tobii_<stream>_subscribe
    cycles: seq<Cycle>)                // one cycle per pass of the poll loop

  /** The streams subscribed to, in order; the eye-position subscription is
      commented out in `run_demo`. */
  const Subscribed: seq<Stream> := [GazePoint, GazeOrigin, HeadPose]

  /** Every guard `run_demo` can make, in the order it makes them. */
  const Chain: seq<Handle> :=
    [Api, Device, Subscription(GazePoint), Subscription(GazeOrigin), Subscription(HeadPose)]

  /** How a run ends: what it returns, the calls it makes before its guards
      are dropped, and the guards alive at that point, oldest first. */
  datatype RunResult = RunResult(result: Result<()>, calls: seq<Call>, guards: seq<Handle>)

  /** Subscribing to `streams` in order. Each subscription's guard is made
      before its status is checked, so a failed subscribe keeps its guard;
      the first failure ends the chain. */
  function Subscriptions(env: Env, streams: seq<Stream>): (sr: RunResult)
    ensures |sr.calls| == |sr.guards| <= |streams|
    ensures sr.result.Ok? ==> |sr.guards| == |streams|
    ensures sr.result.Err? ==> sr.guards != []
    decreases |streams|
  {
    if streams == [] then RunResult(Ok(()), [], [])
    else
      var status := env.subscribe(streams[0]);
      var first := [Subscribe(streams[0], status)];
      var guard := [Subscription(streams[0])];
      if status != NoError then RunResult(StatusToResult(status), first, guard)
      else
        var rest := Subscriptions(env, streams[1..]);
        RunResult(rest.result, first + rest.calls, guard + rest.guards)
  }

  /** A whole run, step by step. */
  function Run(env: Env): (rr: RunResult)
    requires |env.cycles| >= Passes
    ensures rr.calls != [] && rr.calls[0] == ApiCreate(env.apiCreate)
    ensures rr.guards == [] <==> env.apiCreate != NoError
    ensures |rr.guards| <= |Chain|
  {
    var created := [ApiCreate(env.apiCreate)];
    if env.apiCreate != NoError then RunResult(StatusToResult(env.apiCreate), created, [])
    else
      var listed := created + [ListDevices(env.devices)];
      match env.devices
      case Err(e) => RunResult(Err(e), listed, [Api])
      case Ok(urls) =>
        if |urls| == 0 then RunResult(Ok(()), listed, [Api])
        else
          var connected := listed + [DeviceCreate(urls[0], env.deviceCreate)];
          if env.deviceCreate != NoError then RunResult(StatusToResult(env.deviceCreate), connected, [Api])
          else
            var subs := Subscriptions(env, Subscribed);
            var guards := [Api, Device] + subs.guards;
            if subs.result.Err? then RunResult(subs.result, connected + subs.calls, guards)
            else
              var polled := Poll(env.cycles, Passes);
              RunResult(polled.result, connected + subs.calls + polled.calls, guards)
  }

  /** The body of `run_demo` up to the end of its scope. Each `?` returns
      early; the guards made up to that point stay on `guards` for the scope
      exit to drop. */
  method Session(env: Env, guards: GuardStack) returns (r: Result<()>, calls: seq<Call>)
    requires |env.cycles| >= Passes
    requires guards.Valid() && guards.live == [] && guards.released == []
    modifies guards
    ensures guards.Valid() && guards.live == Run(env).guards && guards.released == []
    ensures r == Run(env).result && calls == Run(env).calls
  {
    var status := env.apiCreate;
    calls := [ApiCreate(status)];
    r := StatusToResult(status);
    if r.Err? {
      return;
    }
    guards.Push(Api);

    var devices := env.devices;
    calls := calls + [ListDevices(devices)];
    if devices.Err? {
      r := Err(devices.error);
      return;
    }
    if |devices.value| < 1 {
      r := Ok(());
      return;
    }

    status := env.deviceCreate;
    calls := calls + [DeviceCreate(devices.value[0], status)];
    r := StatusToResult(status);
    if r.Err? {
      return;
    }
    guards.Push(Device);
    SubscriptionsUnrolled(env);

    status := env.subscribe(GazePoint);
    calls := calls + [Subscribe(GazePoint, status)];
    guards.Push(Subscription(GazePoint));
    r := StatusToResult(status);
    if r.Err? {
      return;
    }

    status := env.subscribe(GazeOrigin);
    calls := calls + [Subscribe(GazeOrigin, status)];
    guards.Push(Subscription(GazeOrigin));
    r := StatusToResult(status);
    if r.Err? {
      return;
    }

    status := env.subscribe(HeadPose);
    calls := calls + [Subscribe(HeadPose, status)];
    guards.Push(Subscription(HeadPose));
    r := StatusToResult(status);
    if r.Err? {
      return;
    }

    var polled;
    r, polled := PollLoop(env.cycles);
    calls := calls + polled;
  }

  /** The three subscriptions of `run_demo`, one after the other. */
  lemma SubscriptionsUnrolled(env: Env)
    ensures var gp, go, hp := env.subscribe(GazePoint), env.subscribe(GazeOrigin), env.subscribe(HeadPose);
      Subscriptions(env, Subscribed) ==
        if gp != NoError then
          RunResult(StatusToResult(gp), [Subscribe(GazePoint, gp)], [Subscription(GazePoint)])
        else if go != NoError then
          RunResult(StatusToResult(go), [Subscribe(GazePoint, gp), Subscribe(GazeOrigin, go)],
                    [Subscription(GazePoint), Subscription(GazeOrigin)])
        else
          RunResult(StatusToResult(hp),
                    [Subscribe(GazePoint, gp), Subscribe(GazeOrigin, go), Subscribe(HeadPose, hp)],
                    [Subscription(GazePoint), Subscription(GazeOrigin), Subscription(HeadPose)])
  {
    assert Subscribed[1..] == [GazeOrigin, HeadPose];
    assert Subscribed[1..][1..] == [HeadPose];
    assert Subscribed[1..][1..][1..] == [];
  }

  /** `run_demo` with its scope exit: whatever way the body leaves, the
      guards alive then are released, newest first. */
  method RunDemo(env: Env) returns (r: Result<()>, calls: seq<Call>, released: seq<Handle>)
    requires |env.cycles| >= Passes
    ensures r == Run(env).result && calls == Run(env).calls
    ensures released == Reversed(Run(env).guards)
    ensures released == Reversed(Chain[..|released|]) && NoDuplicates(released)
  {
    var guards := new GuardStack();
    r, calls := Session(env, guards);
    guards.ReleaseAll();
    released := guards.released;
    RunReleasesEachGuardOnce(env);
  }

  // Properties of a run.

  /** Every setup call succeeds and the device list is not empty. */
  predicate SetupSucceeds(env: Env)
  {
    && env.apiCreate == NoError
    && env.devices.Ok? && |env.devices.value| > 0
    && env.deviceCreate == NoError
    && forall s :: s in Subscribed ==> env.subscribe(s) == NoError
  }

  /** The subscription chain subscribes to a prefix of `streams` in order,
      and makes one guard per subscribe call made. */
  lemma {:induction false} SubscriptionsChain(env: Env, streams: seq<Stream>)
    ensures var sr := Subscriptions(env, streams);
      && |sr.calls| == |sr.guards| <= |streams|
      && (forall i :: 0 <= i < |sr.guards| ==>
            && sr.guards[i] == Subscription(streams[i])
            && sr.calls[i] == Subscribe(streams[i], env.subscribe(streams[i])))
    decreases |streams|
  {
    if streams != [] && env.subscribe(streams[0]) == NoError {
      SubscriptionsChain(env, streams[1..]);
    }
  }

  /** The chain stops exactly at the first failing subscribe, returning its
      error; it ends well only when every subscribe succeeds. */
  lemma {:induction false} SubscriptionsStopAtFirstFailure(env: Env, streams: seq<Stream>)
    ensures var sr := Subscriptions(env, streams);
      && (sr.result.Ok? ==>
            |sr.guards| == |streams| && forall i :: 0 <= i < |streams| ==> env.subscribe(streams[i]) == NoError)
      && (sr.result.Err? ==>
            && 0 < |sr.guards| <= |streams|
            && (forall i :: 0 <= i < |sr.guards| - 1 ==> env.subscribe(streams[i]) == NoError)
            && ErrorStatus(sr.result.error) == env.subscribe(streams[|sr.guards| - 1]))
    decreases |streams|
  {
    if streams != [] && env.subscribe(streams[0]) == NoError {
      SubscriptionsStopAtFirstFailure(env, streams[1..]);
      var rest := Subscriptions(env, streams[1..]);
      assert forall i :: 1 <= i < |streams| ==> streams[i] == streams[1..][i - 1];
      assert |Subscriptions(env, streams).guards| == 1 + |rest.guards|;
    }
  }

  /** The guards alive when a run ends are a prefix of the acquisition
      chain: no subscription without the device, no device without the API
      context, and none twice. */
  lemma RunGuardsArePrefix(env: Env)
    requires |env.cycles| >= Passes
    ensures Run(env).guards == Chain[..|Run(env).guards|]
    ensures NoDuplicates(Run(env).guards)
    ensures SetupSucceeds(env) ==> Run(env).guards == Chain
  {
    SubscriptionsChain(env, Subscribed);
    SubscriptionsStopAtFirstFailure(env, Subscribed);
    var g := Run(env).guards;
    assert NoDuplicates(Chain);
    assert g == Chain[..|g|];
  }

  /** On every way out of a run each guard made is released exactly once,
      newest first: the subscriptions, then the device, then the API
      context. */
  lemma RunReleasesEachGuardOnce(env: Env)
    requires |env.cycles| >= Passes
    ensures var released := Reversed(Run(env).guards);
      && released == Reversed(Chain[..|released|])
      && forall h :: multiset(released)[h] == if h in Run(env).guards then 1 else 0
  {
    RunGuardsArePrefix(env);
    var g := Run(env).guards;
    ReversedMultiset(g);
    forall h ensures multiset(Reversed(g))[h] == if h in g then 1 else 0 {
      NoDuplicatesOccursOnce(g, h);
    }
  }

  /** The API context and the device are released only if their create
      call succeeded. */
  lemma RunCreatedHandles(env: Env)
    requires |env.cycles| >= Passes
    ensures Api in Run(env).guards <==> env.apiCreate == NoError
    ensures Device in Run(env).guards <==> exists url :: DeviceCreate(url, NoError) in Run(env).calls
  {
    SubscriptionsChain(env, Subscribed);
    SubscriptionsStopAtFirstFailure(env, Subscribed);
    RunGuardsArePrefix(env);
    PollHasNoSetupCalls(env.cycles, Passes);
    var rr := Run(env);
    if env.apiCreate == NoError && env.devices.Ok? && |env.devices.value| > 0 && env.deviceCreate == NoError {
      assert rr.calls[2] == DeviceCreate(env.devices.value[0], NoError);
    } else if env.apiCreate == NoError && env.devices.Ok? && |env.devices.value| > 0 {
      forall url ensures DeviceCreate(url, NoError) !in rr.calls {
        assert rr.calls == [ApiCreate(NoError), ListDevices(env.devices), DeviceCreate(env.devices.value[0], env.deviceCreate)];
      }
    }
  }

  /** The unsubscribe calls made on the way out are exactly the subscribe
      calls made, successful or not: the subscription guards, oldest first,
      are the streams subscribed to, in order. */
  lemma RunUnsubscribesEverySubscribe(env: Env)
    requires |env.cycles| >= Passes
    ensures GuardStreams(Run(env).guards) == SubscribeCallStreams(Run(env).calls)
  {
    if env.apiCreate == NoError && env.devices.Ok? && |env.devices.value| > 0 && env.deviceCreate == NoError {
      OpenedRunStreams(env);
    } else {
      var rr := Run(env);
      assert rr.guards == [] || rr.guards == [Api];
      GuardStreamsNone(rr.guards);
      assert forall c :: c in rr.calls ==> !c.Subscribe?;
      SubscribeCallStreamsNone(rr.calls);
    }
  }

  lemma OpenedRunStreams(env: Env)
    requires |env.cycles| >= Passes
    requires env.apiCreate == NoError && env.devices.Ok? && |env.devices.value| > 0 && env.deviceCreate == NoError
    ensures GuardStreams(Run(env).guards) == SubscribeCallStreams(Run(env).calls)
  {
    var subs := Subscriptions(env, Subscribed);
    var pre := [ApiCreate(env.apiCreate), ListDevices(env.devices), DeviceCreate(env.devices.value[0], env.deviceCreate)];
    var tail := if subs.result.Err? then [] else Poll(env.cycles, Passes).calls;
    assert Run(env).calls == pre + subs.calls + tail;
    assert Run(env).guards == [Api, Device] + subs.guards;
    PollSubscribesNothing(env.cycles, Passes);
    SubscriptionsStreams(env, Subscribed);
    StreamsCompose(pre, subs.calls, tail, subs.guards);
  }

  lemma StreamsCompose(pre: seq<Call>, subscribes: seq<Call>, tail: seq<Call>, subscriptions: seq<Handle>)
    requires forall c :: c in pre ==> !c.Subscribe?
    requires SubscribeCallStreams(tail) == []
    requires GuardStreams(subscriptions) == SubscribeCallStreams(subscribes)
    ensures GuardStreams([Api, Device] + subscriptions) == SubscribeCallStreams(pre + subscribes + tail)
  {
    SubscribeCallStreamsAppend(pre + subscribes, tail);
    SubscribeCallStreamsAppend(pre, subscribes);
    GuardStreamsAppend([Api, Device], subscriptions);
    SubscribeCallStreamsNone(pre);
    GuardStreamsNone([Api, Device]);
  }

  /** In the subscription chain the guards and the subscribe calls name the
      same streams. */
  lemma {:induction false} SubscriptionsStreams(env: Env, streams: seq<Stream>)
    ensures GuardStreams(Subscriptions(env, streams).guards)
         == SubscribeCallStreams(Subscriptions(env, streams).calls)
    decreases |streams|
  {
    if streams != [] {
      var first := [Subscribe(streams[0], env.subscribe(streams[0]))];
      var guard := [Subscription(streams[0])];
      assert first[..0] == [] && guard[..0] == [];
      if env.subscribe(streams[0]) == NoError {
        var rest := Subscriptions(env, streams[1..]);
        SubscriptionsStreams(env, streams[1..]);
        SubscribeCallStreamsAppend(first, rest.calls);
        GuardStreamsAppend(guard, rest.guards);
      }
    }
  }

  /** An empty device list ends the run without an error, before any device
      or subscription is made: only the API context is released. */
  lemma EmptyDeviceListEndsCleanly(env: Env)
    requires |env.cycles| >= Passes
    requires env.apiCreate == NoError && env.devices == Ok([])
    ensures Run(env).result == Ok(())
    ensures Run(env).guards == [Api]
    ensures forall c :: c in Run(env).calls ==> !c.DeviceCreate? && !c.Subscribe? && !c.WaitForCallbacks?
  {
  }

  /** A run ends well exactly when it finds no device after a good start, or
      when every setup call succeeds and no pass of the loop exits. */
  lemma RunOkIff(env: Env)
    requires |env.cycles| >= Passes
    ensures Run(env).result.Ok? <==>
              || (env.apiCreate == NoError && env.devices == Ok([]))
              || (SetupSucceeds(env) && forall i :: 0 <= i < Passes ==> Step(env.cycles[i]).next.Continue?)
  {
    SubscriptionsChain(env, Subscribed);
    SubscriptionsStopAtFirstFailure(env, Subscribed);
    PollOkIffNoPassExits(env.cycles, Passes);
    if env.apiCreate == NoError && env.devices.Ok? && |env.devices.value| > 0 && env.deviceCreate == NoError {
      var subs := Subscriptions(env, Subscribed);
      if subs.result.Ok? {
        assert SetupSucceeds(env);
      }
      if SetupSucceeds(env) {
        assert subs.result.Ok?;
      }
    }
  }

  /** Every error a run returns is what its last call reported, unchanged. */
  lemma RunErrorIsLastReport(env: Env)
    requires |env.cycles| >= Passes
    requires Run(env).result.Err?
    ensures Run(env).calls != []
    ensures Reported(Run(env).calls[|Run(env).calls| - 1]) == Run(env).result
  {
    SubscriptionsChain(env, Subscribed);
    SubscriptionsStopAtFirstFailure(env, Subscribed);
    if SetupSucceeds(env) {
      var subs := Subscriptions(env, Subscribed);
      var pre := [ApiCreate(env.apiCreate), ListDevices(env.devices), DeviceCreate(env.devices.value[0], env.deviceCreate)];
      var polled := Poll(env.cycles, Passes).calls;
      assert Run(env).calls == (pre + subs.calls) + polled;
      PollErrorIsLastReport(env.cycles, Passes);
    }
  }

  /** Over the whole run: dispatches only straight after successful waits,
      reconnects only straight after lost connections and each of those
      answered, at most one wait per pass, and no more dispatches than
      successful waits. */
  lemma RunCallOrder(env: Env)
    requires |env.cycles| >= Passes
    ensures CallOrder(Run(env).calls)
    ensures CountWhere(Run(env).calls, IsWait) <= Passes
    ensures CountWhere(Run(env).calls, IsDispatch) <= CountWhere(Run(env).calls, IsSuccessfulWait)
    ensures CountWhere(Run(env).calls, IsReconnect) <= CountWhere(Run(env).calls, IsWait)
  {
    RunSplitsAtLoop(env);
    var polled := Poll(env.cycles, Passes).calls;
    PollCallOrder(env.cycles, Passes);
    PollWaitCount(env.cycles, Passes);
    PollDispatchCount(env.cycles, Passes);
    if SetupSucceeds(env) {
      SetupCallsBeforePoll(Run(env).calls[..|Run(env).calls| - |polled|], polled);
    } else {
      assert Run(env).calls + [] == Run(env).calls;
      SetupCallsBeforePoll(Run(env).calls, []);
    }
  }

  /** A run's calls are setup calls, followed by the loop's calls when the
      setup succeeded. */
  lemma RunSplitsAtLoop(env: Env)
    requires |env.cycles| >= Passes
    ensures SetupSucceeds(env) ==>
              var polled := Poll(env.cycles, Passes).calls;
              && |polled| <= |Run(env).calls|
              && Run(env).calls == Run(env).calls[..|Run(env).calls| - |polled|] + polled
              && IsSetup(Run(env).calls[..|Run(env).calls| - |polled|])
    ensures !SetupSucceeds(env) ==> IsSetup(Run(env).calls)
  {
    SubscriptionsChain(env, Subscribed);
    var subs := Subscriptions(env, Subscribed);
    assert forall c :: c in subs.calls ==> c.Subscribe?;
    if SetupSucceeds(env) {
      SubscriptionsStopAtFirstFailure(env, Subscribed);
      SucceededSetupSplits(env, subs.calls);
    } else {
      FailedSetupIsSetup(env, subs.calls);
    }
  }

  lemma SucceededSetupSplits(env: Env, subscribes: seq<Call>)
    requires |env.cycles| >= Passes && SetupSucceeds(env)
    requires Subscriptions(env, Subscribed).result.Ok?
    requires Subscriptions(env, Subscribed).calls == subscribes
    requires forall c :: c in subscribes ==> c.Subscribe?
    ensures var polled := Poll(env.cycles, Passes).calls;
              && |polled| <= |Run(env).calls|
              && Run(env).calls == Run(env).calls[..|Run(env).calls| - |polled|] + polled
              && IsSetup(Run(env).calls[..|Run(env).calls| - |polled|])
  {
    var polled := Poll(env.cycles, Passes).calls;
    var pre := [ApiCreate(env.apiCreate), ListDevices(env.devices), DeviceCreate(env.devices.value[0], env.deviceCreate)];
    assert Run(env).calls == (pre + subscribes) + polled;
    assert Run(env).calls[..|Run(env).calls| - |polled|] == pre + subscribes;
  }

  lemma FailedSetupIsSetup(env: Env, subscribes: seq<Call>)
    requires |env.cycles| >= Passes && !SetupSucceeds(env)
    requires Subscriptions(env, Subscribed).calls == subscribes
    requires forall c :: c in subscribes ==> c.Subscribe?
    ensures IsSetup(Run(env).calls)
  {
  }

  /** Calls made before the loop: none is a wait, a dispatch or a reconnect. */
  ghost predicate IsSetup(calls: seq<Call>)
  {
    forall c :: c in calls ==> !c.WaitForCallbacks? && !c.ProcessCallbacks? && !c.Reconnect?
  }

  /** Setup calls in front of the loop's calls change neither the order of
      the loop's calls nor its counts. */
  lemma SetupCallsBeforePoll(setup: seq<Call>, tail: seq<Call>)
    requires IsSetup(setup)
    requires CallOrder(tail) && (tail != [] ==> tail[0].WaitForCallbacks?)
    requires CountWhere(tail, IsWait) <= Passes
    requires CountWhere(tail, IsDispatch) <= CountWhere(tail, IsSuccessfulWait)
    requires CountWhere(tail, IsReconnect) <= CountWhere(tail, IsWait)
    ensures CallOrder(setup + tail)
    ensures CountWhere(setup + tail, IsWait) <= Passes
    ensures CountWhere(setup + tail, IsDispatch) <= CountWhere(setup + tail, IsSuccessfulWait)
    ensures CountWhere(setup + tail, IsReconnect) <= CountWhere(setup + tail, IsWait)
  {
    assert setup != [] ==> setup[|setup| - 1] in setup;
    CallOrderAppend(setup, tail);
    CountWhereNone(setup, IsWait);
    CountWhereNone(setup, IsSuccessfulWait);
    CountWhereNone(setup, IsDispatch);
    CountWhereNone(setup, IsReconnect);
    CountWhereAppend(setup, tail, IsWait);
    CountWhereAppend(setup, tail, IsSuccessfulWait);
    CountWhereAppend(setup, tail, IsDispatch);
    CountWhereAppend(setup, tail, IsReconnect);
  }

  /** The poll loop's answers in a run that sees data, a timeout, and a lost
      connection that reconnects, followed by timeouts only. */
  function RecoveringCycles(): (cycles: seq<Cycle>)
    ensures |cycles| == Passes
  {
    [Cycle(NoError, NoError, NoError), Cycle(ErrTimedOut, NoError, NoError),
     Cycle(ErrConnectionFailed, NoError, NoError)]
    + seq(Passes - 3, _ => Cycle(ErrTimedOut, NoError, NoError))
  }

  /** The calls of the loop in that run. */
  function RecoveringPolled(): (calls: seq<Call>)
    ensures |calls| == Passes + 2
  {
    [WaitForCallbacks(NoError), ProcessCallbacks(NoError), WaitForCallbacks(ErrTimedOut),
     WaitForCallbacks(ErrConnectionFailed), Reconnect(NoError)] + TimedOutWaits(Passes - 3)
  }

  lemma RecoveringPoll()
    ensures Poll(RecoveringCycles(), Passes) == PollResult(Ok(()), RecoveringPolled())
  {
    var cycles := RecoveringCycles();
    RecoveringFirstPasses(cycles);
    PollTimeoutsKeepWaiting(cycles, 3, Passes);
  }

  /** The three passes with data, a timeout and a reconnect. */
  lemma RecoveringFirstPasses(cycles: seq<Cycle>)
    requires |cycles| >= 3
    requires cycles[0] == Cycle(NoError, NoError, NoError)
    requires cycles[1].wait == ErrTimedOut
    requires cycles[2] == Cycle(ErrConnectionFailed, NoError, NoError)
    ensures Poll(cycles, 3) == PollResult(Ok(()),
              [WaitForCallbacks(NoError), ProcessCallbacks(NoError), WaitForCallbacks(ErrTimedOut),
               WaitForCallbacks(ErrConnectionFailed), Reconnect(NoError)])
  {
    var first := [WaitForCallbacks(NoError), ProcessCallbacks(NoError)];
    var second := [WaitForCallbacks(ErrTimedOut)];
    var third := [WaitForCallbacks(ErrConnectionFailed), Reconnect(NoError)];
    PollUnfold(cycles, 1);
    assert Poll(cycles, 1) == PollResult(Ok(()), first);
    PollUnfold(cycles, 2);
    assert Poll(cycles, 2) == PollResult(Ok(()), first + second);
    PollUnfold(cycles, 3);
    assert Poll(cycles, 3) == PollResult(Ok(()), first + second + third);
  }

  lemma RecoveringPolledCounts()
    ensures CountWhere(RecoveringPolled(), IsDispatch) == 1
    ensures CountWhere(RecoveringPolled(), IsReconnect) == 1
  {
    var early := [WaitForCallbacks(NoError), ProcessCallbacks(NoError), WaitForCallbacks(ErrTimedOut)];
    var third := [WaitForCallbacks(ErrConnectionFailed), Reconnect(NoError)];
    var rest := TimedOutWaits(Passes - 3);
    assert RecoveringPolled() == (early + third) + rest;
    assert forall c :: c in rest ==> c == WaitForCallbacks(ErrTimedOut);
    CountWhereNone(rest, IsDispatch);
    CountWhereNone(rest, IsReconnect);
    CountWhereAppend(early + third, rest, IsDispatch);
    CountWhereAppend(early + third, rest, IsReconnect);
    CountWhereAppend(early, third, IsDispatch);
    CountWhereAppend(early, third, IsReconnect);
    CountWhereShort(early, IsDispatch);
    CountWhereShort(early, IsReconnect);
    CountWhereShort(third, IsDispatch);
    CountWhereShort(third, IsReconnect);
  }

  /** A run that finds one device at "mock://dev1", opens it, subscribes to
      every stream and then gets the answers above ends well after one
      dispatch and one reconnect, subscribes to each stream once, and
      releases the three subscriptions, the device and the API context, in
      that order. */
  lemma RecoveringRunEndsWell(env: Env)
    requires env.apiCreate == NoError && env.devices == Ok(["mock://dev1"]) && env.deviceCreate == NoError
    requires forall s :: s in Subscribed ==> env.subscribe(s) == NoError
    requires env.cycles == RecoveringCycles()
    ensures Run(env).result == Ok(())
    ensures CountWhere(Run(env).calls, IsDispatch) == 1
    ensures CountWhere(Run(env).calls, IsReconnect) == 1
    ensures SubscribeCallStreams(Run(env).calls) == Subscribed
    ensures Reversed(Run(env).guards) ==
              [Subscription(HeadPose), Subscription(GazeOrigin), Subscription(GazePoint), Device, Api]
  {
    RecoveringPoll();
    RecoveringPolledCounts();
    GoodSetupRun(env, RecoveringPolled());
  }

  /** A run whose setup succeeds and whose loop ends well with `polled`
      ends well, dispatches and reconnects only in the loop, subscribes to
      each stream once, and releases the whole chain newest first. */
  lemma GoodSetupRun(env: Env, polled: seq<Call>)
    requires |env.cycles| >= Passes && SetupSucceeds(env)
    requires Poll(env.cycles, Passes) == PollResult(Ok(()), polled)
    ensures Run(env).result == Ok(())
    ensures CountWhere(Run(env).calls, IsDispatch) == CountWhere(polled, IsDispatch)
    ensures CountWhere(Run(env).calls, IsReconnect) == CountWhere(polled, IsReconnect)
    ensures SubscribeCallStreams(Run(env).calls) == Subscribed
    ensures Reversed(Run(env).guards) ==
              [Subscription(HeadPose), Subscription(GazeOrigin), Subscription(GazePoint), Device, Api]
  {
    RunGuardsArePrefix(env);
    RunOkIff(env);
    SetupRunCount(env, polled, IsDispatch);
    SetupRunCount(env, polled, IsReconnect);
    RunUnsubscribesEverySubscribe(env);
    ChainStreams();
  }

  /** A run whose setup succeeds makes no wait, dispatch or reconnect
      outside its loop. */
  lemma SetupRunCount(env: Env, polled: seq<Call>, p: Call -> bool)
    requires |env.cycles| >= Passes && SetupSucceeds(env)
    requires Poll(env.cycles, Passes).calls == polled
    requires forall c :: IsSetup([c]) ==> !p(c)
    ensures CountWhere(Run(env).calls, p) == CountWhere(polled, p)
  {
    RunSplitsAtLoop(env);
    var setup := Run(env).calls[..|Run(env).calls| - |polled|];
    forall c | c in setup ensures !p(c) {
      assert IsSetup([c]);
    }
    CountWhereNone(setup, p);
    CountWhereAppend(setup, polled, p);
  }

  lemma ChainStreams()
    ensures GuardStreams(Chain) == Subscribed
  {
    var gp, go, hp := [Subscription(GazePoint)], [Subscription(GazeOrigin)], [Subscription(HeadPose)];
    assert gp[..0] == [] && go[..0] == [] && hp[..0] == [];
    assert Chain == [Api, Device] + gp + go + hp;
    GuardStreamsNone([Api, Device]);
    GuardStreamsAppend([Api, Device], gp);
    GuardStreamsAppend([Api, Device] + gp, go);
    GuardStreamsAppend([Api, Device] + gp + go, hp);
  }
}
