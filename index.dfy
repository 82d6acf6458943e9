/** The `/` route: the checks a POST goes through before any analysis, in
    their order, and the page or redirect each outcome produces. */
module Index {
  import opened Wrappers
  import opened Strings
  import opened Upload
  import opened ClientCell
  import opened Analysis

  const MSG_NO_FILE_PART: string := "Файл не был загружен"
  const MSG_NO_FILE_SELECTED: string := "Файл не был выбран"
  const MSG_NO_PROMPT: string := "Введите текстовый промпт"
  const MSG_UNSUPPORTED: string := "Неподдерживаемый формат файла. Используйте JPG, JPEG, PNG или GIF"
  const ANALYSIS_ERROR_PREFIX: string := "Ошибка анализа: "
  const PROCESSING_ERROR_PREFIX: string := "Ошибка обработки файла: "
  /** The saved upload is named `temp_` followed by the sanitised name. */
  const TEMP_PREFIX: string := "temp_"

  /** The `image` part of a multipart form: its client-side file name. */
  datatype FilePart = FilePart(filename: string)

  /** The parts of a POST body the handler reads. */
  datatype Form = Form(image: Option<FilePart>, prompt: Option<string>)

  datatype Request = Get | Post(form: Form)

  /** `request.form.get('prompt', '')`, before stripping. */
  function PromptField(form: Form): string {
    match form.prompt
    case None => ""
    case Some(p) => p
  }

  /** Where the checks of a POST end: one of four rejections, or going on to
      the analysis with the file name and the stripped prompt. */
  datatype Gate =
    | NoFilePart
    | NoFileSelected
    | NoPrompt
    | UnsupportedFormat
    | Proceed(filename: string, prompt: string)

  /** The four rules, each stated on its own. */
  predicate HasFilePart(form: Form) {
    form.image.Some?
  }

  predicate FileSelected(form: Form) {
    form.image.Some? && form.image.value.filename != []
  }

  /** The prompt holds some character that is not whitespace. */
  ghost predicate PromptGiven(form: Form) {
    var p := PromptField(form);
    exists i :: 0 <= i < |p| && !IsSpace(p[i])
  }

  predicate FormatAllowed(form: Form) {
    form.image.Some? && AllowedFile(form.image.value.filename)
  }

  /** The early-return chain of `index()` for a POST. The checks run in
      priority order: each rejection is reported exactly when its rule
      fails and every earlier one holds, and the analysis is reached exactly
      when all four hold, with the file name and the stripped prompt. */
  function CheckForm(form: Form): (g: Gate)
    ensures g == NoFilePart <==> !HasFilePart(form)
    ensures g == NoFileSelected <==> HasFilePart(form) && !FileSelected(form)
    ensures g == NoPrompt <==> FileSelected(form) && !PromptGiven(form)
    ensures g == UnsupportedFormat <==> FileSelected(form) && PromptGiven(form) && !FormatAllowed(form)
    ensures g.Proceed? <==> FileSelected(form) && PromptGiven(form) && FormatAllowed(form)
    ensures g.Proceed? ==> g == Proceed(form.image.value.filename, Strip(PromptField(form)))
  {
    if form.image.None? then
      NoFilePart
    else
      var name := form.image.value.filename;
      var prompt := Strip(PromptField(form));
      if name == [] then NoFileSelected
      else if prompt == [] then NoPrompt
      else if AllowedFile(name) then Proceed(name, prompt)
      else UnsupportedFormat
  }

  /** The prompt that reaches the analysis is non-empty and neither starts
      nor ends with whitespace, and the file name is an allowed one. */
  lemma ProceedIsClean(form: Form)
    requires CheckForm(form).Proceed?
    ensures var g := CheckForm(form);
      && g.prompt != [] && !IsSpace(g.prompt[0]) && !IsSpace(g.prompt[|g.prompt| - 1])
      && g.filename != [] && AllowedFile(g.filename)
  {
  }

  /** Which rejection a flashed message reports, if any. */
  function RejectionOf(message: string): Option<Gate> {
    if message == MSG_NO_FILE_PART then Some(NoFilePart)
    else if message == MSG_NO_FILE_SELECTED then Some(NoFileSelected)
    else if message == MSG_NO_PROMPT then Some(NoPrompt)
    else if message == MSG_UNSUPPORTED then Some(UnsupportedFormat)
    else None
  }

  /** The message flashed for each rejection. It tells the rejection apart
      from the other three: reading it back gives the rejection, so the four
      messages are pairwise distinct. */
  function GateMessage(g: Gate): (m: string)
    requires !g.Proceed?
    ensures RejectionOf(m) == Some(g)
  {
    match g
    case NoFilePart => MSG_NO_FILE_PART
    case NoFileSelected => MSG_NO_FILE_SELECTED
    case NoPrompt => MSG_NO_PROMPT
    case UnsupportedFormat => MSG_UNSUPPORTED
  }

  /** What the handler answers: a redirect after flashing a message, or the
      page, with at most one flashed message and possibly a result. */
  datatype Response<V> =
    | Redirect(message: string)
    | Page(flash: Option<string>, result: Option<V>)

  /** The answer to a rejected POST: the first three rejections redirect,
      the unsupported format is flashed on the page itself. Either way no
      result is shown and the one message flashed names the rejection. */
  function Rejected<V>(g: Gate): (resp: Response<V>)
    requires !g.Proceed?
    ensures resp.Redirect? <==> g != UnsupportedFormat
    ensures resp.Redirect? ==> RejectionOf(resp.message) == Some(g)
    ensures resp.Page? ==> resp.result.None? && resp.flash.Some? && RejectionOf(resp.flash.value) == Some(g)
  {
    if g == UnsupportedFormat then Page(Some(GateMessage(g)), None)
    else Redirect(GateMessage(g))
  }

  /** The answer once `analyze_image` has produced its record: the page,
      showing a result exactly when the analysis succeeded, and then with no
      message; a failed analysis shows `Ошибка анализа: ` followed by the
      error, from which the error can be read back. */
  function Reported<V>(a: Analysis<V>): (resp: Response<V>)
    ensures resp.Page?
    ensures resp.result.Some? <==> a.Success?
    ensures a.Success? ==> resp == Page(None, Some(a.result))
    ensures a.Failure? ==> resp.flash.Some?
    ensures a.Failure? ==> var f := resp.flash.value;
      && |f| >= |ANALYSIS_ERROR_PREFIX|
      && f[..|ANALYSIS_ERROR_PREFIX|] == ANALYSIS_ERROR_PREFIX
      && f[|ANALYSIS_ERROR_PREFIX|..] == a.error
  {
    match a
    case Success(v) => Page(None, Some(v))
    case Failure(m) => Page(Some(ANALYSIS_ERROR_PREFIX + m), None)
  }

  /** Two failed analyses are reported alike only when their errors are
      equal: the flashed text determines the error. */
  lemma ReportedFailureInjective<V>(m1: string, m2: string)
    requires Reported<V>(Failure(m1)) == Reported<V>(Failure(m2))
    ensures m1 == m2
  {
    var f1 := Reported<V>(Failure(m1)).flash.value;
    assert m1 == f1[|ANALYSIS_ERROR_PREFIX|..];
  }

  /** `index()`. `securedName` is what the foreign `secure_filename` makes
      of the file name; `saveFailure` is what `file.save` does (`Some(m)`
      when it raises with message `m`); `connectFailure` and `remote` are
      what the client constructor and `predict` do if they are reached.
      Returns the answer and the `predict` call made, if any. Removing the
      temporary file afterwards has no visible effect and is not modelled. */
  method HandleIndex<V>(cell: Cell, req: Request, securedName: string, saveFailure: Option<string>,
                        connectFailure: Option<string>, fileFailure: Option<string>, remote: Result<V>)
    returns (resp: Response<V>, call: Option<PredictCall>)
    requires cell.Valid()
    modifies cell
    ensures cell.Valid()
    ensures req.Get? ==> resp == Page(None, None) && call == None && cell.State() == old(cell.State())
    ensures req.Post? && !CheckForm(req.form).Proceed? ==>
              resp == Rejected(CheckForm(req.form)) && call == None && cell.State() == old(cell.State())
    ensures req.Post? && CheckForm(req.form).Proceed? && saveFailure.Some? ==>
              && resp == Page(Some(PROCESSING_ERROR_PREFIX + saveFailure.value), None)
              && call == None && cell.State() == old(cell.State())
    ensures req.Post? && CheckForm(req.form).Proceed? && saveFailure.None? ==>
              var g := CheckForm(req.form);
              var (s, c) := Step(old(cell.State()), cell.token, connectFailure);
              && cell.State() == s
              && call == (if c.Ok? && fileFailure.None? then Some(ChatCall(TEMP_PREFIX + securedName, g.prompt)) else None)
              && resp == Reported(Normalize(c, fileFailure, remote))
  {
    if req.Get? {
      return Page(None, None), None;
    }
    var g := CheckForm(req.form);
    if !g.Proceed? {
      return Rejected(g), None;
    }
    if saveFailure.Some? {
      return Page(Some(PROCESSING_ERROR_PREFIX + saveFailure.value), None), None;
    }
    var a;
    a, call := AnalyzeImage(cell, TEMP_PREFIX + securedName, g.prompt, connectFailure, fileFailure, remote);
    resp := Reported(a);
  }

  /** The repository's route test without a file part, for any prompt. */
  lemma NoFilePartExample(prompt: Option<string>)
    ensures CheckForm(Form(None, prompt)) == NoFilePart
  {
  }

  /** The repository's route test with an empty prompt: any selected file
      with a prompt made only of whitespace is turned back. */
  lemma NoPromptExample(name: string, prompt: string)
    requires name != [] && AllSpace(prompt)
    ensures CheckForm(Form(Some(FilePart(name)), Some(prompt))) == NoPrompt
  {
  }

  /** The repository's route test with a `.txt` file: whatever the stem,
      with a real prompt the format is refused. */
  lemma UnsupportedFormatExample(stem: string, prompt: string)
    requires exists i :: 0 <= i < |prompt| && !IsSpace(prompt[i])
    ensures CheckForm(Form(Some(FilePart(stem + ".txt")), Some(prompt))) == UnsupportedFormat
  {
    assert stem + ".txt" == stem + "." + "txt";
    RejectedSuffixes(stem);
    StripEmptyIff(prompt);
  }

  /** A valid upload goes on to the analysis with the prompt stripped of
      the whitespace around it. */
  lemma ProceedFormExample(stem: string, before: string, text: string, after: string)
    requires AllSpace(before) && AllSpace(after)
    requires text != [] && !IsSpace(text[0]) && !IsSpace(text[|text| - 1])
    ensures CheckForm(Form(Some(FilePart(stem + ".jpg")), Some(before + text + after))) ==
              Proceed(stem + ".jpg", text)
  {
    assert stem + ".jpg" == stem + "." + "jpg";
    AllowedSuffixAccepted(stem, "jpg");
    StripSurrounded(before, text, after);
  }

  /** A failed analysis with the error `API Error` is reported as
      `Ошибка анализа: API Error`. */
  lemma FailedAnalysisExample()
    ensures Reported<string>(Failure("API Error")) == Page(Some("Ошибка анализа: API Error"), None)
  {
    assert ANALYSIS_ERROR_PREFIX + "API Error" == "Ошибка анализа: API Error";
  }
}
