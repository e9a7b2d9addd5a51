/** The wait / dispatch / reconnect loop at the end of `run_demo`: 999 passes,
    each of which waits for device callbacks, classifies the wait's status,
    and on a successful wait dispatches the pending callbacks. Timeouts are
    retried, lost connections are reconnected, every other failure ends the
    session with that failure. */
module Polling {
  import opened Sdk

  /** The number of passes of `for _i in 1..1000`. */
  const Passes: nat := 999

  /** What the SDK reports to the calls of one pass: the wait, the dispatch
      and the reconnect. A pass consults only the fields of the calls it
      makes. */
  datatype Cycle = Cycle(wait: Status, dispatch: Status, reconnect: Status)

  /** How a pass ends: on to the next pass, or out of `run_demo` with an error. */
  datatype Next = Continue | Exit(error: TobiiError)

  datatype StepResult = StepResult(calls: seq<Call>, next: Next)

  /** One pass over the loop body. */
  function Step(c: Cycle): (s: StepResult)
    ensures 1 <= |s.calls| <= 3 && s.calls[0] == WaitForCallbacks(c.wait)
  {
    var waited := [WaitForCallbacks(c.wait)];
    match StatusToResult(c.wait)
    case Err(TimedOut) => StepResult(waited, Continue)
    case Err(ConnectionFailed) => Reconnected(waited, c.reconnect)
    case Err(e) => StepResult(waited, Exit(e))
    case Ok(_) =>
      var dispatched := waited + [ProcessCallbacks(c.dispatch)];
      if c.dispatch == ErrConnectionFailed then Reconnected(dispatched, c.reconnect)
      else
        match StatusToResult(c.dispatch)
        case Err(e) => StepResult(dispatched, Exit(e))
        case Ok(_) => StepResult(dispatched, Continue)
  }

  /** What one pass does. */
  lemma StepContract(c: Cycle)
    // a pass starts with its one wait and makes at most three calls
    ensures 1 <= |Step(c).calls| <= 3 && Step(c).calls[0] == WaitForCallbacks(c.wait)
    ensures forall k :: 1 <= k < |Step(c).calls| ==> !Step(c).calls[k].WaitForCallbacks?
    // and makes no call but its wait, its dispatch and its reconnect
    ensures forall x :: x in Step(c).calls ==> x.WaitForCallbacks? || x.ProcessCallbacks? || x.Reconnect?
    // it dispatches exactly when the wait succeeded
    ensures ProcessCallbacks(c.dispatch) in Step(c).calls <==> c.wait == NoError
    ensures forall k :: 0 <= k < |Step(c).calls| && Step(c).calls[k].ProcessCallbacks? ==>
              k == 1 && Step(c).calls[k] == ProcessCallbacks(c.dispatch)
    // it reconnects exactly when the wait or the dispatch lost the connection
    ensures Reconnect(c.reconnect) in Step(c).calls <==>
              c.wait == ErrConnectionFailed || (c.wait == NoError && c.dispatch == ErrConnectionFailed)
    ensures forall k :: 0 <= k < |Step(c).calls| && Step(c).calls[k].Reconnect? ==>
              k == |Step(c).calls| - 1 && Step(c).calls[k] == Reconnect(c.reconnect)
    // it ends the session on an unexpected wait error, a failed reconnect or a failed dispatch
    ensures Step(c).next.Exit? <==>
              || c.wait.ErrOther?
              || (Reconnect(c.reconnect) in Step(c).calls && c.reconnect != NoError)
              || (c.wait == NoError && c.dispatch != NoError && c.dispatch != ErrConnectionFailed)
    // and the error it ends with is what the last call reported, unchanged
    ensures Step(c).next.Exit? ==> Reported(Step(c).calls[|Step(c).calls| - 1]) == Err(Step(c).next.error)
    // a pass never ends with a connection failure it has not answered
    ensures !ReportsConnectionFailure(Step(c).calls[|Step(c).calls| - 1])
  {
  }

  /** `status_to_result(helpers::reconnect(..))?` followed by `continue`. */
  function Reconnected(before: seq<Call>, status: Status): (s: StepResult)
    ensures s.calls == before + [Reconnect(status)]
    ensures s.next.Continue? <==> status == NoError
    ensures s.next.Exit? ==> ErrorStatus(s.next.error) == status
  {
    StepResult(before + [Reconnect(status)],
               match StatusToResult(status)
               case Err(e) => Exit(e)
               case Ok(_) => Continue)
  }

  datatype PollResult = PollResult(result: Result<()>, calls: seq<Call>)

  /** What each pass would do, given what the SDK reports to it. */
  function Steps(cycles: seq<Cycle>): (steps: seq<StepResult>)
    ensures |steps| == |cycles|
    ensures forall i :: 0 <= i < |cycles| ==> steps[i] == Step(cycles[i])
  {
    seq(|cycles|, i requires 0 <= i < |cycles| => Step(cycles[i]))
  }

  /** The first `n` of the passes `steps`: passes run in order until one
      exits, and the loop returns that pass's error. */
  function Fold(steps: seq<StepResult>, n: nat): (r: PollResult)
    requires n <= |steps|
  {
    if n == 0 then PollResult(Ok(()), [])
    else
      var before := Fold(steps, n - 1);
      if before.result.Err? then before
      else
        var s := steps[n - 1];
        PollResult(if s.next.Exit? then Err(s.next.error) else Ok(()), before.calls + s.calls)
  }

  /** The first `n` passes of the loop. */
  function Poll(cycles: seq<Cycle>, n: nat): (r: PollResult)
    requires n <= |cycles|
  {
    Fold(Steps(cycles), n)
  }

  /** The loop's passes one more at a time: after a pass that continued,
      the next pass runs and adds its calls. */
  lemma PollUnfold(cycles: seq<Cycle>, n: nat)
    requires 0 < n <= |cycles|
    ensures var before := Poll(cycles, n - 1);
      Poll(cycles, n) ==
        if before.result.Err? then before
        else
          var s := Step(cycles[n - 1]);
          PollResult(if s.next.Exit? then Err(s.next.error) else Ok(()), before.calls + s.calls)
  {
  }

  /** Once a pass has exited, later passes change nothing: the loop is left
      at once, with that pass's error and calls. */
  lemma {:induction false} PollStaysExited(cycles: seq<Cycle>, m: nat, n: nat)
    requires m <= n <= |cycles|
    requires Poll(cycles, m).result.Err?
    ensures Poll(cycles, n) == Poll(cycles, m)
    decreases n
  {
    if n > m {
      PollStaysExited(cycles, m, n - 1);
    }
  }

  /** The loop of `run_demo`, one cycle of SDK answers per pass. */
  method PollLoop(cycles: seq<Cycle>) returns (r: Result<()>, calls: seq<Call>)
    requires |cycles| >= Passes
    ensures PollResult(r, calls) == Poll(cycles, Passes)
  {
    calls := [];
    for i := 1 to 1000
      invariant Poll(cycles, i - 1) == PollResult(Ok(()), calls)
    {
      var c := cycles[i - 1];
      var status := c.wait;
      calls := calls + [WaitForCallbacks(status)];
      match StatusToResult(status) {
        case Err(TimedOut) =>
          continue;
        case Err(ConnectionFailed) =>
          status := c.reconnect;
          calls := calls + [Reconnect(status)];
          r := StatusToResult(status);
          if r.Err? {
            PollStaysExited(cycles, i, Passes);
            return;
          }
          continue;
        case Err(e) =>
          r := Err(e);
          PollStaysExited(cycles, i, Passes);
          return;
        case Ok(_) =>
      }
      status := c.dispatch;
      calls := calls + [ProcessCallbacks(status)];
      if status == ErrConnectionFailed {
        status := c.reconnect;
        calls := calls + [Reconnect(status)];
        r := StatusToResult(status);
        if r.Err? {
          PollStaysExited(cycles, i, Passes);
          return;
        }
        continue;
      }
      r := StatusToResult(status);
      if r.Err? {
        PollStaysExited(cycles, i, Passes);
        return;
      }
    }
    r := Ok(());
  }

  // Properties of the passes, one pass at a time and over the whole loop.

  /** Every dispatch comes straight after a successful wait. */
  ghost predicate DispatchesFollowSuccessfulWaits(calls: seq<Call>)
  {
    forall k :: 0 <= k < |calls| && calls[k].ProcessCallbacks? ==>
      0 < k && calls[k - 1] == WaitForCallbacks(NoError)
  }

  /** Every reconnect comes straight after a wait or dispatch that lost the
      connection. */
  ghost predicate ReconnectsAnswerConnectionFailures(calls: seq<Call>)
  {
    forall k :: 0 <= k < |calls| && calls[k].Reconnect? ==>
      0 < k && ReportsConnectionFailure(calls[k - 1])
  }

  /** Every wait or dispatch that lost the connection is answered straight
      away by one reconnect. */
  ghost predicate ConnectionFailuresAreAnswered(calls: seq<Call>)
  {
    forall k :: 0 <= k < |calls| && ReportsConnectionFailure(calls[k]) ==>
      k + 1 < |calls| && calls[k + 1].Reconnect?
  }

  ghost predicate CallOrder(calls: seq<Call>)
  {
    && DispatchesFollowSuccessfulWaits(calls)
    && ReconnectsAnswerConnectionFailures(calls)
    && ConnectionFailuresAreAnswered(calls)
  }

  predicate IsWait(c: Call) { c.WaitForCallbacks? }
  predicate IsSuccessfulWait(c: Call) { c == WaitForCallbacks(NoError) }
  predicate IsDispatch(c: Call) { c.ProcessCallbacks? }
  predicate IsReconnect(c: Call) { c.Reconnect? }

  function Indicator(p: Call -> bool, c: Call): nat
  {
    if p(c) then 1 else 0
  }

  lemma CountWhereShort(cs: seq<Call>, p: Call -> bool)
    requires 1 <= |cs| <= 3
    ensures CountWhere(cs, p) ==
              Indicator(p, cs[0])
              + (if |cs| > 1 then Indicator(p, cs[1]) else 0)
              + (if |cs| > 2 then Indicator(p, cs[2]) else 0)
  {
    var one := cs[..1];
    assert one[..0] == [];
    if |cs| > 1 {
      var two := cs[..2];
      assert two[..1] == one;
      if |cs| > 2 {
        assert cs[..2] == two;
      }
    }
  }

  lemma StepCallOrder(c: Cycle)
    ensures CallOrder(Step(c).calls)
    ensures CountWhere(Step(c).calls, IsWait) == 1
    ensures CountWhere(Step(c).calls, IsDispatch) <= CountWhere(Step(c).calls, IsSuccessfulWait)
    ensures CountWhere(Step(c).calls, IsReconnect) <= 1
  {
    var cs := Step(c).calls;
    CountWhereShort(cs, IsWait);
    CountWhereShort(cs, IsDispatch);
    CountWhereShort(cs, IsSuccessfulWait);
    CountWhereShort(cs, IsReconnect);
  }

  lemma CallOrderAppend(a: seq<Call>, b: seq<Call>)
    requires CallOrder(a) && CallOrder(b)
    requires a != [] ==> !ReportsConnectionFailure(a[|a| - 1])
    requires b != [] ==> b[0].WaitForCallbacks?
    ensures CallOrder(a + b)
  {
    var ab := a + b;
    forall k | 0 <= k < |ab| && ab[k].ProcessCallbacks?
      ensures 0 < k && ab[k - 1] == WaitForCallbacks(NoError)
    {
      if k >= |a| {
        assert ab[k] == b[k - |a|];
      }
    }
    forall k | 0 <= k < |ab| && ab[k].Reconnect?
      ensures 0 < k && ReportsConnectionFailure(ab[k - 1])
    {
      if k >= |a| {
        assert ab[k] == b[k - |a|];
      }
    }
    forall k | 0 <= k < |ab| && ReportsConnectionFailure(ab[k])
      ensures k + 1 < |ab| && ab[k + 1].Reconnect?
    {
      if k >= |a| {
        assert ab[k] == b[k - |a|];
      }
    }
  }

  /** The loop ends well exactly when no pass exits. */
  lemma {:induction false} PollOkIffNoPassExits(cycles: seq<Cycle>, n: nat)
    requires n <= |cycles|
    ensures Poll(cycles, n).result.Ok? <==>
              forall i :: 0 <= i < n ==> Step(cycles[i]).next.Continue?
  {
    if n > 0 {
      PollOkIffNoPassExits(cycles, n - 1);
    }
  }

  /** The first pass that exits ends the loop: its error is returned
      unchanged and nothing is called after it. */
  lemma {:induction false} PollEndsAtFirstExit(cycles: seq<Cycle>, n: nat, k: nat)
    requires k < n <= |cycles|
    requires forall i :: 0 <= i < k ==> Step(cycles[i]).next.Continue?
    requires Step(cycles[k]).next.Exit?
    ensures Poll(cycles, n) ==
              PollResult(Err(Step(cycles[k]).next.error), Poll(cycles, k).calls + Step(cycles[k]).calls)
  {
    PollOkIffNoPassExits(cycles, k);
    PollStaysExited(cycles, k + 1, n);
  }

  /** `k` timed-out waits in a row. */
  function TimedOutWaits(k: nat): (w: seq<Call>)
    ensures |w| == k && forall i :: 0 <= i < k ==> w[i] == WaitForCallbacks(ErrTimedOut)
  {
    if k == 0 then [] else TimedOutWaits(k - 1) + [WaitForCallbacks(ErrTimedOut)]
  }

  /** Timeouts keep the loop waiting: a run of timed-out waits adds one wait
      per pass and nothing else, and does not end the loop. */
  lemma {:induction false} PollTimeoutsKeepWaiting(cycles: seq<Cycle>, m: nat, n: nat)
    requires m <= n <= |cycles|
    requires Poll(cycles, m).result.Ok?
    requires forall i :: m <= i < n ==> cycles[i].wait == ErrTimedOut
    ensures Poll(cycles, n) == PollResult(Ok(()), Poll(cycles, m).calls + TimedOutWaits(n - m))
    decreases n
  {
    if n > m {
      PollTimeoutsKeepWaiting(cycles, m, n - 1);
      var w := WaitForCallbacks(ErrTimedOut);
      assert Step(cycles[n - 1]).calls == [w];
      assert Poll(cycles, m).calls + TimedOutWaits(n - 1 - m) + [w]
          == Poll(cycles, m).calls + TimedOutWaits(n - m);
    }
  }

  /** The loop's calls keep the order of a wait, a dispatch after a
      successful wait only, and a reconnect after a lost connection only. */
  lemma PollCallOrder(cycles: seq<Cycle>, n: nat)
    requires n <= |cycles|
    ensures CallOrder(Poll(cycles, n).calls)
    ensures Poll(cycles, n).calls != [] ==>
              && Poll(cycles, n).calls[0].WaitForCallbacks?
              && !ReportsConnectionFailure(Poll(cycles, n).calls[|Poll(cycles, n).calls| - 1])
  {
    var steps := Steps(cycles);
    forall i | 0 <= i < n ensures WellOrderedPass(steps[i]) {
      StepContract(cycles[i]);
      StepCallOrder(cycles[i]);
    }
    FoldCallOrder(steps, n);
  }

  /** A pass whose calls start with a wait, keep the call order and do not
      end on a connection failure left unanswered. */
  ghost predicate WellOrderedPass(s: StepResult)
  {
    && s.calls != []
    && s.calls[0].WaitForCallbacks?
    && !ReportsConnectionFailure(s.calls[|s.calls| - 1])
    && CallOrder(s.calls)
  }

  lemma {:induction false} FoldCallOrder(steps: seq<StepResult>, n: nat)
    requires n <= |steps|
    requires forall i :: 0 <= i < n ==> WellOrderedPass(steps[i])
    ensures CallOrder(Fold(steps, n).calls)
    ensures Fold(steps, n).calls != [] ==>
              && Fold(steps, n).calls[0].WaitForCallbacks?
              && !ReportsConnectionFailure(Fold(steps, n).calls[|Fold(steps, n).calls| - 1])
  {
    if n > 0 {
      FoldCallOrder(steps, n - 1);
      var before := Fold(steps, n - 1);
      if before.result.Ok? {
        var s := steps[n - 1];
        CallOrderAppend(before.calls, s.calls);
        var all := before.calls + s.calls;
        assert all[|all| - 1] == s.calls[|s.calls| - 1];
      }
    }
  }

  /** Every error the loop returns is what its last call reported, unchanged. */
  lemma {:induction false} PollErrorIsLastReport(cycles: seq<Cycle>, n: nat)
    requires n <= |cycles|
    requires Poll(cycles, n).result.Err?
    ensures Poll(cycles, n).calls != []
    ensures Reported(Poll(cycles, n).calls[|Poll(cycles, n).calls| - 1]) == Poll(cycles, n).result
  {
    var before := Poll(cycles, n - 1);
    if before.result.Err? {
      PollErrorIsLastReport(cycles, n - 1);
    } else {
      var s := Step(cycles[n - 1]);
      var all := before.calls + s.calls;
      assert all[|all| - 1] == s.calls[|s.calls| - 1];
    }
  }

  /** One wait per pass run: at most `n` passes, all `n` when none exits. */
  lemma PollWaitCount(cycles: seq<Cycle>, n: nat)
    requires n <= |cycles|
    ensures CountWhere(Poll(cycles, n).calls, IsWait) <= n
    ensures Poll(cycles, n).result.Ok? ==> CountWhere(Poll(cycles, n).calls, IsWait) == n
  {
    var steps := Steps(cycles);
    forall i | 0 <= i < n ensures CountWhere(steps[i].calls, IsWait) == 1 {
      StepCallOrder(cycles[i]);
    }
    FoldWaitCount(steps, n);
  }

  lemma {:induction false} FoldWaitCount(steps: seq<StepResult>, n: nat)
    requires n <= |steps|
    requires forall i :: 0 <= i < n ==> CountWhere(steps[i].calls, IsWait) == 1
    ensures CountWhere(Fold(steps, n).calls, IsWait) <= n
    ensures Fold(steps, n).result.Ok? ==> CountWhere(Fold(steps, n).calls, IsWait) == n
  {
    if n > 0 {
      FoldWaitCount(steps, n - 1);
      var before := Fold(steps, n - 1);
      if before.result.Ok? {
        CountWhereAppend(before.calls, steps[n - 1].calls, IsWait);
      }
    }
  }

  /** Dispatches never outnumber successful waits, and reconnects never
      outnumber waits. */
  lemma PollDispatchCount(cycles: seq<Cycle>, n: nat)
    requires n <= |cycles|
    ensures CountWhere(Poll(cycles, n).calls, IsDispatch) <= CountWhere(Poll(cycles, n).calls, IsSuccessfulWait)
    ensures CountWhere(Poll(cycles, n).calls, IsReconnect) <= CountWhere(Poll(cycles, n).calls, IsWait)
  {
    var steps := Steps(cycles);
    forall i | 0 <= i < n ensures CountedPass(steps[i]) {
      StepCallOrder(cycles[i]);
    }
    FoldDispatchCount(steps, n);
  }

  /** A pass with one wait, at most one reconnect, and no more dispatches
      than successful waits. */
  ghost predicate CountedPass(s: StepResult)
  {
    && CountWhere(s.calls, IsWait) == 1
    && CountWhere(s.calls, IsDispatch) <= CountWhere(s.calls, IsSuccessfulWait)
    && CountWhere(s.calls, IsReconnect) <= 1
  }

  lemma {:induction false} FoldDispatchCount(steps: seq<StepResult>, n: nat)
    requires n <= |steps|
    requires forall i :: 0 <= i < n ==> CountedPass(steps[i])
    ensures CountWhere(Fold(steps, n).calls, IsDispatch) <= CountWhere(Fold(steps, n).calls, IsSuccessfulWait)
    ensures CountWhere(Fold(steps, n).calls, IsReconnect) <= CountWhere(Fold(steps, n).calls, IsWait)
  {
    if n > 0 {
      FoldDispatchCount(steps, n - 1);
      var before := Fold(steps, n - 1);
      if before.result.Ok? {
        CountsAppend(before.calls, steps[n - 1].calls);
      }
    }
  }

  lemma CountsAppend(a: seq<Call>, b: seq<Call>)
    ensures CountWhere(a + b, IsWait) == CountWhere(a, IsWait) + CountWhere(b, IsWait)
    ensures CountWhere(a + b, IsSuccessfulWait) == CountWhere(a, IsSuccessfulWait) + CountWhere(b, IsSuccessfulWait)
    ensures CountWhere(a + b, IsDispatch) == CountWhere(a, IsDispatch) + CountWhere(b, IsDispatch)
    ensures CountWhere(a + b, IsReconnect) == CountWhere(a, IsReconnect) + CountWhere(b, IsReconnect)
  {
    CountWhereAppend(a, b, IsWait);
    CountWhereAppend(a, b, IsSuccessfulWait);
    CountWhereAppend(a, b, IsDispatch);
    CountWhereAppend(a, b, IsReconnect);
  }

  /** The loop makes only waits, dispatches and reconnects. */
  lemma {:induction false} PollHasNoSetupCalls(cycles: seq<Cycle>, n: nat)
    requires n <= |cycles|
    ensures forall c :: c in Poll(cycles, n).calls ==>
              c.WaitForCallbacks? || c.ProcessCallbacks? || c.Reconnect?
  {
    if n > 0 {
      PollHasNoSetupCalls(cycles, n - 1);
    }
  }

  /** In particular the loop subscribes to nothing. */
  lemma PollSubscribesNothing(cycles: seq<Cycle>, n: nat)
    requires n <= |cycles|
    ensures SubscribeCallStreams(Poll(cycles, n).calls) == []
  {
    PollHasNoSetupCalls(cycles, n);
    SubscribeCallStreamsNone(Poll(cycles, n).calls);
  }
}
