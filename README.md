# cel-playground: the variables flag, the evaluation façade and the `/eval` handler

cel-playground evaluates a CEL (Common Expression Language) expression against named variables,
either from the command line (`eval --expr ... --variables name=file,...`) or over HTTP
(`POST /eval` with a JSON or YAML body holding `expression` and `variables`). Parsing, checking
and running CEL is the job of the cel-go library; this project models what the repository itself
adds around it, in three parts:

- **Variables flag** (`variables.dfy`, with `go_strings.dfy`): `parseVariablesFlag` splits the
  flag on every comma, keeps empty pieces, splits each piece at its first `=`, rejects a piece
  without `=`, loads each named file (read, then YAML decode) and binds its data under the name,
  a later duplicate overwriting an earlier one. The method is a loop over the pieces, proved equal
  to a left-to-right specification (`ParseEntries`) about which the lemmas are stated. The parse
  also reports which filenames it handed to the file reader, so that "an empty flag reads no
  file" and "nothing past the first failing entry is read" can be stated.
- **Evaluation façade** (`evaluation.dfy`): `eval` builds the base environment from fixed
  options, declares one dynamically typed variable per supplied variable while copying the
  variables into the activation (a loop over the map, in unspecified order), then extends,
  compiles, builds a program on the base environment and runs it, stopping at the first failure.
  The five engine operations are abstract and may each fail.
- **HTTP handler** (`server.dfy`): `handleEval` as a method that changes a response-writer
  object, whose header map and log of calls it updates step by step. The CORS headers come first; OPTIONS
  answers 204; a method other than OPTIONS or POST answers 405; on POST an unsupported
  content type writes a 415 error and processing carries on to the body read, as the code does;
  read and decode failures and evaluation errors answer 400, an encoding failure 500, and
  success writes the JSON object `{"result": <text form of the value>}`.

As in the code, a repeated name in the flag silently takes the last file's data
(cmd/eval.go:122), and an unsupported content type writes 415 without ending the request
(cmd/serve.go:82-84). The handler sets CORS headers (cmd/serve.go:69-71) and wraps the result in
`{"result": ...}` (cmd/serve.go:101).

Modules: `Wrappers` (results with an error text), `Values` (the dynamic values), `GoStrings`,
`Variables`, `Evaluation`, `Server`.

## Model

| member | source | states |
|---|---|---|
| GoStrings.Split | cmd/eval.go:111 | splitting on commas always yields at least one piece (`strings.Split` of a non-empty separator) |
| GoStrings.JoinSplit | cmd/eval.go:111 | joining the pieces with the separator gives back the flag: nothing is lost or reordered |
| GoStrings.SplitJoin | cmd/eval.go:111 | splitting separator-joined pieces that contain no separator gives back exactly those pieces |
| GoStrings.SplitPiecesOmitSeparator | cmd/eval.go:111 | no piece contains a comma: the split is on every comma |
| GoStrings.SplitConcat | cmd/eval.go:111 | a separator in the text separates pieces: the split of `a,b` is the split of `a` followed by the split of `b` (so `,,` and a trailing comma give empty pieces) |
| GoStrings.SplitN2 | cmd/eval.go:112-113 | `SplitN(e, "=", 2)` gives one piece, the entry itself, exactly when the entry has no `=`, otherwise two |
| GoStrings.SplitN2Pair | cmd/eval.go:112-117 | the two pieces are `[name, filename]` exactly when the entry is `name=filename` with no `=` in `name` |
| Variables.ParseYAMLFile | cmd/eval.go:132-143 | loading succeeds exactly when the read and the YAML decode both succeed, and then binds the decoded mapping to the given name; a read failure gives the wrapped read error, a decode failure the decoder's error unchanged |
| Variables.ReadErrorNamesFile | cmd/eval.go:133-136 | a read failure fails the load with a message that contains the filename and ends with `: ` and the underlying cause |
| Variables.ParseVariablesFlag | cmd/eval.go:106-125 | the loop's result and the files it reads are those of the left-to-right specification; an empty flag gives an empty map and reads no file |
| Variables.ParseSucceedsIff | cmd/eval.go:111-124 | the parse succeeds if and only if every comma-separated entry loads |
| Variables.ParseStopsAtFirstError | cmd/eval.go:111-121 | the first failing entry's error is the parse's error, and the files read are exactly those of the entries up to it |
| Variables.ParseReadsEveryFile | cmd/eval.go:111-124 | a successful parse has read every entry's file once, in flag order |
| Variables.LoadedEntryName | cmd/eval.go:116-122 | a loaded entry is bound under the text before its first `=` |
| Variables.ParseKeys | cmd/eval.go:110-124 | the keys of a successful parse are exactly the entries' names |
| Variables.ParseLastWins | cmd/eval.go:122 | when a name repeats, the data of the last entry with that name is kept |
| Variables.ParseKeptUnnamed | cmd/eval.go:122 | a key no entry names keeps its earlier value |
| Variables.EntrySplitsAtFirstEquals | cmd/eval.go:112-118 | `name=filename` loads `filename` under `name`; the name may be empty and the filename may contain `=` |
| Variables.EntryWithoutEqualsRejected | cmd/eval.go:112-115 | an entry without `=` fails with "expected <variable-name>=<filename> but got: " and the entry, reading no file |
| Variables.EmptyEntryRejected | cmd/eval.go:111-115 | any empty entry makes the whole parse fail |
| Variables.TrailingCommaRejected | cmd/eval.go:111-115 | a flag ending in a comma is rejected |
| Variables.DoubleCommaRejected | cmd/eval.go:111-115 | a flag containing `,,` is rejected |
| Variables.NameWithoutFileRejected | cmd/eval.go:107-115 | a flag that is a bare name fails with the pair error naming it and reads no file |
| Evaluation.BaseEnv | cmd/eval.go:55-65 | the base environment is built from homogeneous aggregate literals, eager declaration validation, the UTC default time zone and the extension libraries, in that order |
| Evaluation.Eval | cmd/eval.go:76-104 | the result is the staged pipeline's, with the activation equal to the supplied variables and the declarations exactly one dynamically typed variable per key |
| Evaluation.DeclarationsAdd | cmd/eval.go:83-86 | each loop turn adds exactly the declaration of the variable it visits |
| Evaluation.DeclarationsExact | cmd/eval.go:82-87 | each variable name is declared exactly once, with the dynamic type, and nothing else is declared; no variables means no declarations |
| Evaluation.DeclarationsCount | cmd/eval.go:83-86 | there are as many declarations as variables |
| Evaluation.PipelineStopsAtFirstFailure | cmd/eval.go:78-103 | the stages run as base env, extend, compile, program, run; those attempted are a non-empty prefix of that order, stopping early means an error, and a value comes only when all five ran |
| Evaluation.PipelineOutcome | cmd/eval.go:78-103 | a value comes exactly when base environment, extension, compilation, program and run all succeed, and it is the run's; otherwise the error is that of the first engine call that fails |
| Evaluation.PipelineIgnoresUnreachedStages | cmd/eval.go:78-103 | stages after the failing one are never consulted: changing them changes nothing |
| Evaluation.EvalAndPrint | cmd/eval.go:67-74 | on success prints the value's text form and a newline; on failure prints nothing and returns the error |
| Evaluation.RunEvalCommand | cmd/eval.go:33-39 | a flag parse failure is returned before any evaluation; otherwise the parsed variables are evaluated and printed |
| Server.HttpError | cmd/serve.go:83 | an error response is the plain-text and nosniff headers, the status, then the message and a newline |
| Server.HandleEval | cmd/serve.go:66-110 | the writer's log and headers afterwards are the old ones followed by the calls of the request's path |
| Server.SetCorsHeaders | cmd/serve.go:69-71 | the three CORS headers are set, in order, allowing any origin, POST and OPTIONS, and the `Accept` and `Content-Type` request headers |
| Server.CheckContentType | cmd/serve.go:78-84 | `application/json` and `application/yaml` write nothing; any other content type writes the 415 error |
| Server.HandlePost | cmd/serve.go:85-106 | the POST path from the body read: read, decode, evaluate, encode, each failure ending the request |
| Server.ReplayKeepsCors | cmd/serve.go:69-71 | the headers `http.Error` sets never overwrite the CORS headers |
| Server.CorsBeforeEveryWrite | cmd/serve.go:69-71 | once the CORS headers are set first, later error responses leave them in place at every subsequent status or body write |
| Server.CorsOnEveryResponse | cmd/serve.go:69-71 | the three CORS headers are set first, and are in place at every status or body write on every path |
| Server.OptionsIsNoContent | cmd/serve.go:74-76 | OPTIONS writes status 204 and an empty body, nothing more |
| Server.OtherMethodsNotAllowed | cmd/serve.go:107-108 | any other method writes 405 with "Supported methods: POST", nothing more |
| Server.UnsupportedContentTypeFallsThrough | cmd/serve.go:78-85 | an unsupported content type inserts the 415 error and then proceeds exactly as for `application/json` |
| Server.Status415Iff | cmd/serve.go:78-84 | a POST writes 415 if and only if its content type is neither `application/json` nor `application/yaml` |
| Server.PostStatusesAre400Or500 | cmd/serve.go:85-106 | after the content-type check at most one status is written, and it is 400 or 500 |
| Server.EvaluatesOnlyDecodedRequests | cmd/serve.go:85-96 | unless the method is POST and the body was read and decoded, the engine is not consulted |
| Server.PostResponse | cmd/serve.go:77-106 | a POST's statuses and body are those of the content-type check followed by those of the rest |
| Server.UnreadableRequestIsBadRequest | cmd/serve.go:85-95 | a body read or decode failure writes 400 with the error text |
| Server.EvaluationErrorIsBadRequest | cmd/serve.go:96-100 | an evaluation error writes 400 with the engine's message |
| Server.EvaluatedRequestResponse | cmd/serve.go:101-106 | on success no status is written and the body is the encoding of `{"result": text form}`; an encoding failure writes 500 with its error |

## Left out

- The CEL engine (`cel.NewEnv`, `Extend`, `Compile`, `Program`, `Eval`, the extension libraries and regex optimisations): foreign code, modelled as five operations that may fail. `library.ExtensionLibs` is one option standing for the whole slice.
- The order of the variable declarations: Go ranges over a map in an unspecified order, so the engine receives the declarations as a multiset (which still shows that each is made exactly once).
- `os.ReadFile`, `yaml.Unmarshal`, `io.ReadAll` and `json.Marshal`: foreign I/O and codecs, modelled as oracles returning data or an error text. File contents and bodies are text, not bytes.
- The `%v` / `%+v` formatting of values: a library's printing rules, modelled as an abstract rendering function.
- Variables.ParseVariablesFlag: an empty flag gives an empty map, where Go returns a nil map; the two behave the same for lookups and ranging.
- Which status the client finally sees: net/http keeps only the first `WriteHeader` (and a body write without one implies 200); the model records every call in order instead.
- Server.HttpError: newer net/http versions also delete a `Content-Length` header inside `http.Error`; that step is not modelled.
- The `Content-Type` header lookup's key canonicalisation and the body close (`defer r.Body.Close()`): library internals with no effect on the responses.
- Command registration, flags and `init` (cmd/eval.go:30-53, cmd/serve.go:28-46), and `serve`/`ListenAndServe` with its concurrent request handling (cmd/serve.go:48-55): process and network wiring.
- The playground UI component (ui/cel-playground/src/cel-playground.ts): a browser client over `fetch`.
- Floating-point values are carried as their IEEE bits only; no arithmetic on them is modelled.
