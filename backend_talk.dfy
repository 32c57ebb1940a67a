/**
 * The client side of the backend calls (src/backend_talk.rs): the requests
 * the client sends, the not-yet-resolved promises it keeps, and the
 * reassembly of a streamed dataframe. The transport, the async runtime and
 * the server address are not modelled; a promise is the request it was
 * issued for together with its poll state, which the runtime moves from
 * `Pending` to `Ready`.
 */
module BackendTalk {
  import opened Wrappers
  import ModalWindow

  type Byte = bv8

  /** A gRPC status (`tonic::Status`). */
  datatype Status = Status(code: int, message: string)

  /** A polars dataframe, seen as its named columns (values already cast to `f64`). */
  datatype DataFrame = DataFrame(columns: map<string, seq<real>>)

  /** `DataFrame::default()`. */
  const EmptyFrame: DataFrame := DataFrame(map[])

  datatype PathMessage = PathMessage(path: string)

  datatype ListResponse = ListResponse(directories: seq<string>, files: seq<string>)

  /** The protobuf `grpc_fs::DataFrameType`. */
  datatype WireDataFrameType = WireCommaSep | WireNdev | WireKitti

  datatype FileLoadRequest = FileLoadRequest(filename: string, filetype: WireDataFrameType)

  datatype Request =
    | DefaultPathRequest
    | ListRequest(message: PathMessage)
    | LoadRequest(load: FileLoadRequest)
      /** The one-argument load call of the older app state, which names no type. */
    | UntypedLoadRequest(filepath: string)

  datatype Poll<T> = Pending | Ready(result: Result<T, Status>)

  /** A `poll_promise::Promise<Result<T, Status>>` and the request it was spawned for. */
  datatype Promise<T> = Promise(request: Request, poll: Poll<T>)

  /** `request_default_path`. */
  function RequestDefaultPath(): (p: Promise<PathMessage>)
    ensures p.poll.Pending? && p.request.DefaultPathRequest?
  {
    Promise(DefaultPathRequest, Pending)
  }

  /** `request_list`: the path is sent verbatim. */
  function RequestList(path: string): (p: Promise<ListResponse>)
    ensures p.poll.Pending? && p.request.ListRequest? && p.request.message.path == path
  {
    Promise(ListRequest(PathMessage(path)), Pending)
  }

  /** The `match df_type` of `load_df_request`. */
  function WireType(t: ModalWindow.DataFrameType): WireDataFrameType {
    match t
    case CommaSep => WireCommaSep
    case Ndev => WireNdev
    case Kitti => WireKitti
  }

  /** The type mapping is total and one-to-one, and reaches every wire type. */
  lemma WireTypeBijective(a: ModalWindow.DataFrameType, b: ModalWindow.DataFrameType, w: WireDataFrameType)
    ensures WireType(a) == WireType(b) ==> a == b
    ensures exists t :: WireType(t) == w
  {
    match w
    case WireCommaSep => assert WireType(ModalWindow.CommaSep) == w;
    case WireNdev => assert WireType(ModalWindow.Ndev) == w;
    case WireKitti => assert WireType(ModalWindow.Kitti) == w;
  }

  /** The request of `load_df_request`: the path goes unchanged into `filename`. */
  function LoadRequestFor(filepath: string, t: ModalWindow.DataFrameType): (r: FileLoadRequest)
    ensures r.filename == filepath && r.filetype == WireType(t)
  {
    FileLoadRequest(filepath, WireType(t))
  }

  /** `load_df_request`: a fresh promise for the load of `filepath` as type `t`. */
  function LoadDfRequest(filepath: string, t: ModalWindow.DataFrameType): (p: Promise<DataFrame>)
    ensures p.poll.Pending? && p.request == LoadRequest(LoadRequestFor(filepath, t))
  {
    Promise(LoadRequest(LoadRequestFor(filepath, t)), Pending)
  }

  // ---------------------------------------------------------------------------
  // Stream reassembly
  // ---------------------------------------------------------------------------

  /** One `DataFrameChunk` message of the load stream. */
  datatype Chunk = Chunk(data: seq<Byte>)

  /**
   * How the load task ends: with a frame, with the status of the first failed
   * call, or in the panic of `bincode::deserialize_from(..).unwrap()`.
   */
  datatype LoadOutcome = Loaded(frame: DataFrame) | Aborted(status: Status) | DecodePanic

  /** The status of the first failed stream message, if any. */
  function FirstFailure(ms: seq<Result<Chunk, Status>>): (r: Option<Status>)
    ensures r.None? <==> forall i :: 0 <= i < |ms| ==> ms[i].Success?
  {
    if ms == [] then None
    else
      var prior := FirstFailure(ms[..|ms| - 1]);
      if prior.Some? then prior
      else if ms[|ms| - 1].Failure? then Some(ms[|ms| - 1].error)
      else None
  }

  /** The bytes of the chunk messages, in arrival order. */
  function Payload(ms: seq<Result<Chunk, Status>>): seq<Byte> {
    if ms == [] then []
    else
      var last := ms[|ms| - 1];
      Payload(ms[..|ms| - 1]) + (if last.Success? then last.value.data else [])
  }

  /** Sum of the chunk sizes. */
  function TotalSize(ms: seq<Result<Chunk, Status>>): nat {
    if ms == [] then 0
    else TotalSize(ms[1..]) + (if ms[0].Success? then |ms[0].value.data| else 0)
  }

  /** What the load task yields for an opening call result, a stream and a decoder. */
  function LoadResult(callResult: Result<(), Status>, ms: seq<Result<Chunk, Status>>,
                      decode: seq<Byte> -> Option<DataFrame>): LoadOutcome
  {
    if callResult.Failure? then Aborted(callResult.error)
    else if FirstFailure(ms).Some? then Aborted(FirstFailure(ms).value)
    else match decode(Payload(ms))
      case Some(df) => Loaded(df)
      case None => DecodePanic
  }

  lemma {:induction false} FirstFailureOfPrefix(ms: seq<Result<Chunk, Status>>, n: nat)
    requires n <= |ms|
    requires FirstFailure(ms[..n]).Some?
    ensures FirstFailure(ms) == FirstFailure(ms[..n])
    decreases |ms| - n
  {
    if n < |ms| {
      assert ms[..n + 1][..n] == ms[..n];
      FirstFailureOfPrefix(ms, n + 1);
    } else {
      assert ms[..n] == ms;
    }
  }

  /**
   * The body of the task spawned by `load_df_request`, given the result of
   * the opening call and the messages the server streams back (the end of
   * the sequence is the end of the stream): every chunk's bytes are pushed
   * onto one buffer, and the buffer is decoded once after the stream ends.
   */
  method LoadDataFrame(filepath: string, t: ModalWindow.DataFrameType, callResult: Result<(), Status>,
                       ms: seq<Result<Chunk, Status>>, decode: seq<Byte> -> Option<DataFrame>)
    returns (request: FileLoadRequest, outcome: LoadOutcome)
    ensures request == LoadRequestFor(filepath, t)
    ensures outcome == LoadResult(callResult, ms, decode)
  {
    request := FileLoadRequest(filepath, WireType(t));
    if callResult.Failure? {
      return request, Aborted(callResult.error);
    }
    var cvec: seq<Byte> := [];
    var i := 0;
    while i < |ms|
      invariant 0 <= i <= |ms|
      invariant FirstFailure(ms[..i]).None?
      invariant cvec == Payload(ms[..i])
    {
      assert ms[..i + 1][..i] == ms[..i];
      match ms[i]
      case Failure(e) =>
        FirstFailureOfPrefix(ms, i + 1);
        return request, Aborted(e);
      case Success(cdata) =>
        var j := 0;
        while j < |cdata.data|
          invariant 0 <= j <= |cdata.data|
          invariant cvec == Payload(ms[..i]) + cdata.data[..j]
        {
          cvec := cvec + [cdata.data[j]];
          j := j + 1;
        }
        assert cdata.data[..j] == cdata.data;
      i := i + 1;
    }
    assert ms[..i] == ms;
    match decode(cvec)
    case Some(df) => outcome := Loaded(df);
    case None => outcome := DecodePanic;
  }

  /** The buffer is as long as all chunks together; an empty stream gives an empty buffer. */
  lemma {:induction false} PayloadSize(ms: seq<Result<Chunk, Status>>)
    ensures |Payload(ms)| == TotalSize(ms)
    ensures ms == [] ==> Payload(ms) == []
  {
    if ms != [] {
      PayloadSize(ms[..|ms| - 1]);
      PayloadAppend([ms[0]], ms[1..]);
      PayloadSize(ms[1..]);
      assert [ms[0]] + ms[1..] == ms;
      assert [ms[0]][..0] == [];
    }
  }

  /** Reassembly distributes over splitting the stream. */
  lemma {:induction false} PayloadAppend(a: seq<Result<Chunk, Status>>, b: seq<Result<Chunk, Status>>)
    ensures Payload(a + b) == Payload(a) + Payload(b)
    decreases |b|
  {
    if b == [] {
      assert a + b == a;
    } else {
      PayloadAppend(a, b[..|b| - 1]);
      assert (a + b)[..|a + b| - 1] == a + b[..|b| - 1];
    }
  }

  /** Chunk `i` sits in the buffer right after the bytes of the chunks before it, unchanged. */
  lemma {:induction false} PayloadKeepsChunkOrder(ms: seq<Result<Chunk, Status>>, i: nat)
    requires i < |ms| && ms[i].Success?
    ensures var off := |Payload(ms[..i])|;
      off + |ms[i].value.data| <= |Payload(ms)| &&
      Payload(ms)[off..off + |ms[i].value.data|] == ms[i].value.data
  {
    assert ms == ms[..i] + ([ms[i]] + ms[i + 1..]);
    PayloadAppend(ms[..i], [ms[i]] + ms[i + 1..]);
    PayloadAppend([ms[i]], ms[i + 1..]);
    assert [ms[i]][..0] == [];
  }

  /** When a call fails the decoder is never consulted: any two decoders give the same outcome. */
  lemma FailureSkipsDecode(callResult: Result<(), Status>, ms: seq<Result<Chunk, Status>>,
                           d1: seq<Byte> -> Option<DataFrame>, d2: seq<Byte> -> Option<DataFrame>)
    requires callResult.Failure? || exists i :: 0 <= i < |ms| && ms[i].Failure?
    ensures LoadResult(callResult, ms, d1) == LoadResult(callResult, ms, d2)
    ensures LoadResult(callResult, ms, d1).Aborted?
  {
  }
}
