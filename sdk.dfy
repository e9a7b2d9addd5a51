/** The native eye-tracker SDK as the session driver sees it: the raw status
    codes its calls return, the typed error `status_to_result` turns them
    into, the streams it can subscribe to, and a record of the calls made.
    What the SDK does behind a call is not modelled: the status it reports is
    an input of the model. */
module Sdk {

  /** A raw status code returned by a native call. Only the codes the session
      driver tells apart are named; every other failure code is `ErrOther`. */
  datatype Status =
    | NoError
    | ErrTimedOut
    | ErrConnectionFailed
    | ErrOther(code: int)

  /** The typed error a failing status translates to. */
  datatype TobiiError =
    | TimedOut
    | ConnectionFailed
    | Other(code: int)

  /** Rust's `Result<T, TobiiError>`. */
  datatype Result<T> = Ok(value: T) | Err(error: TobiiError)

  /** The raw status each error kind stands for. */
  function ErrorStatus(e: TobiiError): (s: Status)
    ensures s != NoError
  {
    match e
    case TimedOut => ErrTimedOut
    case ConnectionFailed => ErrConnectionFailed
    case Other(code) => ErrOther(code)
  }

  /** `status_to_result`: success for the no-error code, otherwise the error
      kind of the code, which loses nothing of the code. */
  function StatusToResult(s: Status): (r: Result<()>)
    ensures r.Ok? <==> s == NoError
    ensures r.Err? ==> ErrorStatus(r.error) == s
  {
    match s
    case NoError => Ok(())
    case ErrTimedOut => Err(TimedOut)
    case ErrConnectionFailed => Err(ConnectionFailed)
    case ErrOther(code) => Err(Other(code))
  }

  /** The real-time data streams a device offers. */
  datatype Stream = GazePoint | GazeOrigin | EyePosition | HeadPose

  /** One native call made by the session driver, with what it reported.
      Release calls (destroy, unsubscribe) are logged separately by the
      guards that make them. */
  datatype Call =
    | ApiCreate(status: Status)
    | ListDevices(devices: Result<seq<string>>)
    | DeviceCreate(url: string, status: Status)
    | Subscribe(stream: Stream, status: Status)
    | WaitForCallbacks(status: Status)
    | ProcessCallbacks(status: Status)
    | Reconnect(status: Status)

  /** What a call reported, translated as the driver translates it. */
  function Reported(c: Call): (r: Result<()>)
    ensures c.ListDevices? ==> (r.Err? <==> c.devices.Err?)
    ensures !c.ListDevices? ==> (r.Ok? <==> c.status == NoError)
  {
    match c
    case ListDevices(devices) =>
      (match devices
       case Ok(_) => Ok(())
       case Err(e) => Err(e))
    case _ => StatusToResult(c.status)
  }

  /** A wait or a dispatch that reported a lost connection. */
  predicate ReportsConnectionFailure(c: Call)
  {
    (c.WaitForCallbacks? || c.ProcessCallbacks?) && c.status == ErrConnectionFailed
  }

  /** The number of calls in `calls` that satisfy `p`. */
  function CountWhere(calls: seq<Call>, p: Call -> bool): (n: nat)
    ensures n <= |calls|
  {
    if calls == [] then 0
    else CountWhere(calls[..|calls| - 1], p) + (if p(calls[|calls| - 1]) then 1 else 0)
  }

  lemma {:induction false} CountWhereAppend(a: seq<Call>, b: seq<Call>, p: Call -> bool)
    ensures CountWhere(a + b, p) == CountWhere(a, p) + CountWhere(b, p)
    decreases |b|
  {
    if b == [] {
      assert a + b == a;
    } else {
      var b' := b[..|b| - 1];
      assert (a + b)[..|a + b| - 1] == a + b';
      assert (a + b)[|a + b| - 1] == b[|b| - 1];
      CountWhereAppend(a, b', p);
    }
  }

  /** The streams of the subscribe calls in `calls`, in order. */
  function SubscribeCallStreams(calls: seq<Call>): (streams: seq<Stream>)
    ensures |streams| <= |calls|
  {
    if calls == [] then []
    else
      var last := calls[|calls| - 1];
      SubscribeCallStreams(calls[..|calls| - 1]) + (if last.Subscribe? then [last.stream] else [])
  }

  lemma {:induction false} SubscribeCallStreamsAppend(a: seq<Call>, b: seq<Call>)
    ensures SubscribeCallStreams(a + b) == SubscribeCallStreams(a) + SubscribeCallStreams(b)
    decreases |b|
  {
    if b == [] {
      assert a + b == a;
    } else {
      var b' := b[..|b| - 1];
      assert (a + b)[..|a + b| - 1] == a + b';
      assert (a + b)[|a + b| - 1] == b[|b| - 1];
      SubscribeCallStreamsAppend(a, b');
    }
  }

  /** Calls that subscribe to nothing name no stream. */
  lemma {:induction false} SubscribeCallStreamsNone(calls: seq<Call>)
    requires forall c :: c in calls ==> !c.Subscribe?
    ensures SubscribeCallStreams(calls) == []
    decreases |calls|
  {
    if calls != [] {
      SubscribeCallStreamsNone(calls[..|calls| - 1]);
    }
  }

  /** No call satisfies `p`: the count is zero. */
  lemma {:induction false} CountWhereNone(calls: seq<Call>, p: Call -> bool)
    requires forall c :: c in calls ==> !p(c)
    ensures CountWhere(calls, p) == 0
    decreases |calls|
  {
    if calls != [] {
      CountWhereNone(calls[..|calls| - 1], p);
    }
  }
}
