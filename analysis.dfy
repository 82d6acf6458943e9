/** `analyze_image`: one call of the remote chat endpoint, its outcome
    folded into a success/error record. */
module Analysis {
  import opened Wrappers
  import opened ClientCell

  /** The remote operation name and the fixed positional extras of
      `predict`. The source names them only `param_2` .. `param_6`; what
      the remote endpoint makes of them is not part of this model. */
  const API_NAME: string := "/chat"
  const PARAM_2: string := ""
  const PARAM_3: int := 2048
  /** Passed through unchanged; no arithmetic is done on it. */
  const PARAM_4: real := 0.3
  const PARAM_5: int := 0
  const PARAM_6: int := 0

  /** What the foreign `handle_file(path)` returns: a reference to the file. */
  datatype FileRef = FileRef(path: string)

  /** The `message` argument: the prompt text and the attached files. */
  datatype ChatMessage = ChatMessage(text: string, files: seq<FileRef>)

  /** The arguments of one `client.predict(...)` call. */
  datatype PredictCall = PredictCall(
    message: ChatMessage,
    param2: string,
    param3: int,
    param4: real,
    param5: int,
    param6: int,
    apiName: string)

  /** The dictionary `analyze_image` returns: `{"success": True, "result": v}`
      or `{"success": False, "error": m}`. */
  datatype Analysis<V> = Success(result: V) | Failure(error: string)

  /** The call `analyze_image(imagePath, prompt)` makes: it carries the
      prompt exactly as given, even when it is empty, the one image, and
      the fixed arguments `""`, `2048`, `0.3`, `0`, `0` and `"/chat"`. */
  function ChatCall(imagePath: string, prompt: string): (c: PredictCall)
    ensures c.message.text == prompt
    ensures c.message.files == [FileRef(imagePath)]
    ensures c.param2 == "" && c.param3 == 2048 && c.param4 == 0.3
    ensures c.param5 == 0 && c.param6 == 0 && c.apiName == "/chat"
  {
    PredictCall(ChatMessage(prompt, [FileRef(imagePath)]),
                PARAM_2, PARAM_3, PARAM_4, PARAM_5, PARAM_6, API_NAME)
  }

  /** The `try`/`except` of `analyze_image`: given what obtaining the client
      gave, what `handle_file` did (`Some(m)` when it raised with message
      `m`) and what `predict` gave, the record returned. Nothing escapes:
      the record is a success exactly when all three steps succeeded, a
      success carries the remote value untouched, and a failure carries the
      message of the first step that failed. */
  function Normalize<V>(client: Result<Handle>, fileFailure: Option<string>, remote: Result<V>): (a: Analysis<V>)
    ensures a.Success? <==> client.Ok? && fileFailure.None? && remote.Ok?
    ensures a.Success? ==> a.result == remote.value
    ensures client.Err? ==> a == Failure(client.error)
    ensures client.Ok? && fileFailure.Some? ==> a == Failure(fileFailure.value)
    ensures client.Ok? && fileFailure.None? && remote.Err? ==> a == Failure(remote.error)
  {
    match client
    case Err(m) => Failure(m)
    case Ok(_) =>
      match fileFailure
      case Some(m) => Failure(m)
      case None =>
        match remote
        case Ok(v) => Success(v)
        case Err(m) => Failure(m)
  }

  /** Reads a record back as an outcome. */
  function AsOutcome<V>(a: Analysis<V>): Result<V> {
    match a
    case Success(v) => Ok(v)
    case Failure(m) => Err(m)
  }

  /** With a client in hand and the file attached the record loses
      nothing: it reads back as exactly the remote outcome, so distinct
      outcomes give distinct records. */
  lemma NormalizeRoundTrip<V>(h: Handle, remote: Result<V>)
    ensures AsOutcome(Normalize(Ok(h), None, remote)) == remote
  {
  }

  /** The repository's tests of `analyze_image`: a remote `"test_result"`, a
      remote `None` and a remote error `"API Error"`; then the token error
      and a file that cannot be attached, neither of which reaches `predict`. */
  lemma NormalizeExamples(h: Handle)
    ensures Normalize<Option<string>>(Ok(h), None, Ok(Some("test_result"))) == Success(Some("test_result"))
    ensures Normalize<Option<string>>(Ok(h), None, Ok(None)) == Success(None)
    ensures Normalize<Option<string>>(Ok(h), None, Err("API Error")) == Failure("API Error")
    ensures Normalize<Option<string>>(Err(TOKEN_NOT_FOUND), None, Ok(Some("x"))) == Failure(TOKEN_NOT_FOUND)
    ensures Normalize<Option<string>>(Ok(h), Some("no file"), Ok(Some("x"))) == Failure("no file")
  {
  }

  /** `analyze_image(imagePath, prompt)`. `connectFailure` is what the client
      constructor does if it is reached, `fileFailure` what `handle_file`
      does if it is reached (it is evaluated, for the `message` argument,
      before `predict` runs) and `remote` what `predict` does if it is
      reached. Returns the record and the `predict` call made, if any:
      `predict` is called exactly when a client was obtained and the file
      was attached. */
  method AnalyzeImage<V>(cell: Cell, imagePath: string, prompt: string,
                         connectFailure: Option<string>, fileFailure: Option<string>, remote: Result<V>)
    returns (a: Analysis<V>, call: Option<PredictCall>)
    requires cell.Valid()
    modifies cell
    ensures cell.Valid()
    ensures var (s, c) := Step(old(cell.State()), cell.token, connectFailure);
      && cell.State() == s
      && call == (if c.Ok? && fileFailure.None? then Some(ChatCall(imagePath, prompt)) else None)
      && a == Normalize(c, fileFailure, remote)
  {
    var client := cell.GetOrCreate(connectFailure);
    if client.Err? {
      return Failure(client.error), None;
    }
    if fileFailure.Some? {
      return Failure(fileFailure.value), None;
    }
    call := Some(ChatCall(imagePath, prompt));
    match remote
    case Ok(v) => a := Success(v);
    case Err(m) => a := Failure(m);
  }
}
