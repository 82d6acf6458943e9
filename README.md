# Image-recognition front end: a Dafny model of its core

The repository is a small Flask application. A user uploads an image and a
text prompt, and the application forwards both to a hosted multimodal chat
model (`amd/llama4-maverick-17b-128e-mi-amd`) through a Gradio client. It
then shows the returned text or an error. Everything it does by itself lives in
`main.py`, and this project models that part:

- `allowed_file`, the upload filename check against the extension allow-list
  `{png, jpg, jpeg, gif}` (`upload.dfy`, module `Upload`). It relies on
  Python's `str.lower()`. That builtin, and `str.strip()`, which `index`
  applies to the prompt, are modelled in `strings.dfy` (module `Strings`).
- `get_client` and the module-level `client` cell that
  `get_or_create_client` fills lazily (`client.dfy`, module `ClientCell`).
  The cell is a class with a mutable `Option<Handle>` field, the token it
  reads and a counter of constructor calls. Next to the class is a pure
  model of one call (`Step`) and of a sequence of calls (`Run`). The
  caching lemmas are stated over that pure model.
- `analyze_image`, which obtains the client, makes one `predict` call with
  fixed arguments and turns the outcome into `{success, result}` or
  `{success, error}` (`analysis.dfy`, module `Analysis`).
- The POST branch of the `/` route `index`: four checks in priority order,
  the message each one flashes, and the page or redirect that follows
  (`index.dfy`, module `Index`).

Calls into code outside `main.py` are parameters of the model:

- whether the Gradio `Client(...)` constructor returns or raises
  (`connectFailure`);
- whether `handle_file` raises while the `message` argument is built
  (`fileFailure`);
- what `predict` returns or raises (`remote`, over an opaque value type `V`);
- whether `file.save` raises (`saveFailure`);
- the name `secure_filename` produces (`securedName`).

An exception becomes `Err(message)`, where `message` is the text of
`str(e)`.

The truthiness test `file and allowed_file(...)` at `main.py:198` is modelled
as `allowed_file(...)` alone. At that point the file name is already known
to be non-empty, and a Werkzeug file part is truthy when its file name is
non-empty.

## Model

| member | source | states |
|---|---|---|
| `Strings.LowerMeaning` | main.py:49 | `.lower()` keeps the length, leaves no ASCII upper-case letter, turns each upper-case letter into the lower-case letter at the same place in the alphabet, and keeps every other character |
| `Strings.LowerIdempotent` | main.py:49 | lower-casing twice is lower-casing once |
| `Strings.LowerCharDot` | main.py:49 | lower-casing turns a character into a dot exactly when it is a dot |
| `Strings.TrimLeft` | main.py:185 | left stripping gives a suffix of the input; everything removed is whitespace, and the result does not start with whitespace |
| `Strings.TrimRight` | main.py:185 | right stripping gives a prefix of the input; everything removed is whitespace, and the result does not end with whitespace |
| `Strings.Strip` | main.py:185 | `strip()` gives a result no longer than its input that, unless empty, neither starts nor ends with whitespace |
| `Strings.StripSlice` | main.py:185 | `strip()` gives the contiguous piece of the input that starts right after the leading whitespace |
| `Strings.StripCutsSpace` | main.py:185 | everything `strip()` cuts from either side of the input is whitespace |
| `Strings.TrimLeftSpaces` | main.py:185 | left stripping whitespace followed by a text that does not start with whitespace gives that text |
| `Strings.TrimRightSpaces` | main.py:185 | right stripping a text that does not end with whitespace followed by whitespace gives that text |
| `Strings.StripEmptyIff` | main.py:185 | a stripped prompt is empty exactly when the raw prompt is all whitespace (both directions) |
| `Strings.StripIdempotent` | main.py:185 | stripping twice gives the same result as stripping once |
| `Strings.StripSurrounded` | main.py:185 | wrapping a text that has no whitespace at either end in whitespace, then stripping, gives the text back |
| `Upload.AfterLastDot` | main.py:49 | `rsplit('.', 1)[1]` has no dot, is preceded by a dot in the name, and runs to the end of the name |
| `Upload.AfterLastDotAt` | main.py:49 | a dot that has no dot after it is the last dot, so the suffix is uniquely determined |
| `Upload.AllowedFile` | main.py:48-49 | `allowed_file` accepts only names with a dot whose text after the last dot has three or four characters, so never a name ending in a dot |
| `Upload.AllowedFileIff` | main.py:24 | `allowed_file` holds iff some dot of the name has no dot after it and the lower-cased text after that dot is in `{png, jpg, jpeg, gif}` (both directions) |
| `Upload.OnlyFinalSuffixCounts` | main.py:49 | for a dot-free `ext`, `stem.ext` is accepted iff `ext` lower-cased is allowed, whatever the stem, so only the final suffix of a name like `a.png.txt` decides |
| `Upload.NoDotRejected` | main.py:49 | a name without a dot is rejected |
| `Upload.AfterLastDotLower` | main.py:49 | taking the last suffix and lower-casing commute |
| `Upload.DotInLower` | main.py:49 | a name has a dot exactly when its lower-cased form has one |
| `Upload.AllowedFileIgnoresCase` | main.py:48-49 | two names that agree once lower-cased are accepted or rejected together |
| `Upload.SuffixVerdict` | main.py:49 | the verdict on `stem.ext` depends only on the lower-cased letters of `ext` |
| `Upload.AllowedSuffixAccepted` | main.py:483-486 | a stem, a dot and any of `png`, `jpg`, `jpeg`, `gif` is accepted, whatever the stem |
| `Upload.UpperCaseAccepted` | main.py:487 | a `.JPG` name is accepted, as `TEST.JPG` is, whatever the stem |
| `Upload.RejectedSuffixes` | main.py:491-493 | `.txt`, `.pdf` and `.exe` names are rejected, whatever the stem |
| `Upload.TrailingDotRejected` | main.py:49 | a name ending in a dot is rejected: the text after its last dot is empty |
| `Upload.RejectedShapeExamples` | main.py:494-495 | `test` (no extension) and the empty name are rejected |
| `ClientCell.GetClient` | main.py:27-34 | `get_client` succeeds iff the token is set and non-empty and the constructor returns; with no token it fails with the token-not-found message without calling the constructor; a constructor error is passed on |
| `ClientCell.Step` | main.py:41-45 | one call returns a cached client as it is, and otherwise what `get_client` returns; afterwards the cell holds a client exactly when the call returned one, and that one; the constructor runs at most once, only on an empty cell with a token; the cell invariant is kept |
| `ClientCell.Run` | main.py:41-45 | a run of calls gives one result per call, keeps the cell invariant, never undoes a construction, and leaves in the cell exactly the client the last call returned, if any |
| `ClientCell.CachedClientIsStable` | main.py:41-45 | once a client is cached, any number of later calls return that client, leave the cell unchanged and construct nothing |
| `ClientCell.SameClientAfterSuccess` | main.py:41-45 | in any run of calls, after the first call that returns a client, every later call returns that very client |
| `ClientCell.NoTokenNoClient` | main.py:29-31 | without a token, every call fails with the token-not-found message, the cell stays `None`, and the constructor is never reached |
| `ClientCell.ConstructionsCountEmptyCalls` | main.py:43-44 | with a token, the constructor runs once per call up to and including the first success and never again |
| `ClientCell.Cell.constructor` | main.py:38 | the cell starts empty with no construction made |
| `ClientCell.Cell.GetOrCreate` | main.py:41-45 | the new cell state and the result are exactly one `Step` of the pure model, and the cell invariant is kept |
| `ClientCell.CachingExample` | main.py:262-278 | from a fresh cell, two calls return the same client and the constructor runs once |
| `Analysis.ChatCall` | main.py:55-63 | the `predict` call carries the prompt unchanged (even when empty), the one image, `""`, `2048`, `0.3`, `0`, `0` and `api_name="/chat"` |
| `Analysis.Normalize` | main.py:53-68 | the record is a success iff the client was obtained, the file attached and `predict` succeeded; a success carries the remote value untouched; a failure carries the message of the first step that failed |
| `Analysis.NormalizeRoundTrip` | main.py:65-68 | once a client is obtained and the file attached, the record reads back as exactly the remote outcome |
| `Analysis.NormalizeExamples` | main.py:293-332 | a result `"test_result"` and a result `None` are successes, the error `"API Error"` is a failure, and a token error and a `handle_file` error are failures |
| `Analysis.AnalyzeImage` | main.py:52-68 | advances the client cell by one call; `predict` is called, with the chat request, exactly when a client was obtained and `handle_file` returned; the record is the normalised outcome |
| `Index.CheckForm` | main.py:178-198 | missing file part, then empty file name, then a prompt with no non-whitespace character, then a disallowed extension: each rejection happens iff its rule fails and all earlier rules hold, and analysis is reached iff all four hold, with the file name and the stripped prompt |
| `Index.ProceedIsClean` | main.py:185-198 | the prompt sent to analysis is non-empty with no whitespace at either end, and the file name is allowed |
| `Index.GateMessage` | main.py:180-195 | each rejection's message reads back as that rejection, so the four messages are pairwise distinct |
| `Index.Rejected` | main.py:180-222 | the first three rejections redirect and an unsupported format is flashed on the page; no result is shown and the one message names the rejection |
| `Index.Reported` | main.py:214-217 | a result is shown iff the analysis succeeded, with no message; a failure flashes `Ошибка анализа: ` followed by exactly the error text |
| `Index.ReportedFailureInjective` | main.py:217 | the error text can be recovered from the flashed message |
| `Index.HandleIndex` | main.py:176-224 | GET renders the empty page; a rejected POST redirects with its message, except an unsupported format, which is flashed on the page; neither touches the client cell nor calls `predict`; a save error is flashed with the processing-error prefix and nothing is called; otherwise the analysis of `temp_<name>` with the stripped prompt is run and reported, a `handle_file` error as an analysis error |
| `Index.NoFilePartExample` | main.py:373-376 | a POST without a file part stops at the first check |
| `Index.NoPromptExample` | main.py:378-392 | a selected file with a whitespace-only prompt stops at the prompt check |
| `Index.UnsupportedFormatExample` | main.py:399-414 | a `.txt` upload with a real prompt is refused as an unsupported format |
| `Index.ProceedFormExample` | main.py:421-441 | a `.jpg` upload goes on to analysis with its prompt stripped |
| `Index.FailedAnalysisExample` | main.py:449-469 | a failed analysis with the error `API Error` flashes `Ошибка анализа: API Error` |

## Left out

- Flask routing, `flash`/`redirect` storage, `render_template_string`, and the HTML and JavaScript template (main.py:72-173). The model stops at the `Response` value. It does not capture that the template shows a result only when the result is truthy, which is a presentation detail.
- The Gradio `Client` object, `handle_file` and the network call made by `predict`. These are foreign code. Whether each returns or raises is a parameter, and what `handle_file(path)` returns is modelled as an opaque file reference.
- `secure_filename`, `file.save` and `os.remove` of the temporary file (main.py:201-212). They are filesystem I/O, and the code ignores removal errors. The sanitised name and the save outcome are parameters.
- The 16 MiB `MAX_CONTENT_LENGTH` limit (main.py:21). Flask enforces it before this code runs.
- `run_tests`, `run_tests_api`, `run_flask_app`, `load_dotenv` and the secret key (main.py:12-20 and main.py:227-243, 563-610). These are the test harness and process start-up.
- Strings.Lower: models `str.lower()` on ASCII only. No non-ASCII character lower-cases to `p`, `n`, `g`, `j`, `e`, `i` or `f` alone, so the verdict of `allowed_file` is the same.
- Analysis.ChatCall: the temperature `0.3` is a Dafny `real` constant that is passed through unchanged. No floating-point behaviour is modelled.
- ClientCell.Cell.GetOrCreate: the token is fixed for the lifetime of a cell. In the source, `get_client` reads `TOKEN_HUGGI` again on every call that finds the cell empty, so a token set or unset between calls is not modelled.
- The unguarded check-then-set on the global client under concurrent first requests. Only sequential calls are modelled.
- `test_main.py`: it targets an earlier version of the application. Its `main` entry point, its `token` response shape and its `HUGGING_FACE_TOKEN` variable do not match `main.py`, so no behaviour is taken from it.
