/** `generate_ollama_stream` of backend/main.py (lines 87-100): the body of
    the `StreamingResponse` of the streaming branch. It opens the upstream
    stream, gates on the status (with the corrected gate `StatusGate`; the
    code as written is `StatusGateAsWritten`), then yields every received
    chunk in order.
    It runs after `ask_ollama` has returned, so nothing it raises goes through
    the `except` clauses of `ask_ollama`. */
module StreamRelay {
  import opened Wrappers
  import opened ByteSeq
  import opened Dispatch

  /** What the upstream did with the streaming call. */
  datatype StreamObservation =
    /** `client.stream(...)` raised before any response arrived. */
    | OpenFailed(failure: Raised)
    /** A response arrived with `status`; `body` is its text, `chunks` what
        `aiter_bytes()` delivered, and `tail` the exception, if any, that ended
        the iteration early (a read timeout, a dropped connection). */
    | Opened(status: int, body: string, chunks: seq<Bytes>, tail: Option<Raised>)

  /** Lines 95-97 as written. `response.text` on a streamed httpx response
      whose body was never read raises `ResponseNotRead`, so the
      `HTTPException` of line 97 is never built. */
  function StatusGateAsWritten(status: int, body: string): (e: Option<Raised>)
    ensures e.None? <==> status == 200
    ensures e.Some? ==> e.value == Unexpected("ResponseNotRead")
  {
    if status != 200 then Some(Unexpected("ResponseNotRead")) else None
  }

  /** Lines 95-97 as intended: a status other than 200 raises an
      `HTTPException` with that status and the upstream body as detail. */
  function StatusGate(status: int, body: string): (e: Option<Raised>)
    ensures e.None? <==> status == 200
    ensures e.Some? ==> e.value == HttpException(status, body)
  {
    if status != 200 then Some(HttpException(status, body)) else None
  }

  /** On every status other than 200 the code as written loses both the
      status and the upstream body. */
  lemma AsWrittenLosesStatus(status: int, body: string)
    requires status != 200
    ensures StatusGateAsWritten(status, body).Some?
    ensures !StatusGateAsWritten(status, body).value.HttpException?
    ensures StatusGateAsWritten(status, body) != StatusGate(status, body)
  {
  }

  /** `async for chunk in response.aiter_bytes(): yield chunk` */
  method RelayChunks(chunks: seq<Bytes>) returns (emitted: seq<Bytes>)
    ensures |emitted| == |chunks|
    ensures forall i :: 0 <= i < |chunks| ==> emitted[i] == chunks[i]
  {
    emitted := [];
    for i := 0 to |chunks|
      invariant emitted == chunks[..i]
    {
      emitted := emitted + [chunks[i]];
    }
  }

  /** The generator run to its end, with the corrected status gate: the
      chunks it yielded and the exception that ended it, if any. Nothing is
      yielded before the status check. */
  method GenerateStream(obs: StreamObservation) returns (emitted: seq<Bytes>, raised: Option<Raised>)
    ensures obs.OpenFailed? ==> emitted == [] && raised == Some(obs.failure)
    ensures obs.Opened? && obs.status != 200 ==>
      emitted == [] && raised == Some(HttpException(obs.status, obs.body))
    ensures obs.Opened? && obs.status == 200 ==> emitted == obs.chunks && raised == obs.tail
  {
    match obs
    case OpenFailed(failure) =>
      emitted, raised := [], Some(failure);
    case Opened(status, body, chunks, tail) =>
      var gate := StatusGate(status, body);
      if gate.Some? {
        emitted, raised := [], gate;
      } else {
        emitted := RelayChunks(chunks);
        raised := tail;
      }
  }

  /** A refused connection or a timeout in the streaming branch escapes as the
      raw httpx exception: it is not turned into 503 or 504, because the
      mapping of `ask_ollama` has already returned. */
  method StreamFailureUnmapped(failure: Raised) returns (raised: Option<Raised>)
    requires failure.ConnectError? || failure.Timeout?
    ensures raised == Some(failure)
    ensures raised != Some(HttpException(503, "AI service unavailable"))
    ensures raised != Some(HttpException(504, "AI service timeout"))
  {
    var emitted;
    emitted, raised := GenerateStream(OpenFailed(failure));
  }
}
