# CloudFormation Lambda generator: a Dafny model of its handler

A CloudFormation custom resource whose handler creates, updates and deletes
an AWS Lambda function for a stack. The handler reads the event's
`RequestType` and dispatches to one of three paths:

- **Create.** When the `Lambda` properties carry no S3 code location, the
  handler rewrites the parameter record in place. It fills in `Handler` and
  `Description` when they are falsy, sets `Runtime` to `nodejs`, and
  replaces `Code` with a generated zip holding a single "echo" function.
  It then calls `createFunction`.
- **Update.** The handler calls `updateFunctionConfiguration` with the
  properties as given.
- **Delete.** The handler calls `deleteFunction` only when the stored
  physical resource id equals the function name. Otherwise it reports
  success and deletes nothing.

Every completed invocation sends exactly one response (SUCCESS or FAILED)
to CloudFormation. Which responses carry the function name as the physical
resource id depends on the path.

The model has four modules:

- `Js` holds the JavaScript semantics the code relies on. Properties may be
  undefined (`Option`). Truthiness is what `||` uses. `indexOf` returns -1
  when nothing is found. `substring` clamps its indices and puts them in increasing order.
- `EchoFunction` splits the handler string at its first dot. It also holds
  the generated source text and the one-file archive.
- `Params` holds the parameter record as a value (`ParamsValue`) and as the
  mutable object the Create path rewrites (`LambdaParams`, a class). It also
  holds the echo defaults.
- `Handler` holds the SDK calls, the responses, the three paths, the
  dispatch function `Dispatch`, and the imperative `CreateLambda` and
  `HandleEvent`, which are proved equal to it.

Each SDK call's answer is a parameter `o: SdkOutcome`, either `Ok(data)` or
`Err(error)`. What an invocation does is recorded as a sequence of effects:
the API call it makes and the response it sends, in order.

If `ResourceProperties.Lambda` is missing on a Create, Update or Delete, the
handler throws a TypeError before anything is sent. This is modelled as
`Run.Threw`.

A generated `ZipFile` holds the archive itself, `Generated(archive)`, where
`archive` is `CreateEchoFunction(handler)`: one entry with a file name and
the module it holds, whose text is `EchoModule.Text()`. Two handlers that
yield the same archive (such as "x" and ".x") therefore yield the same
`Code`.

Behaviour that follows the code where a prose summary of it would say
otherwise:

- `Handler` and `Description` fall back to their defaults when the property
  is falsy, so an empty string is replaced as well as an absent one. The
  same holds for `Code.S3Bucket`: an empty bucket name counts as no bucket.
- Not every success carries the function name as the physical resource id.
  A skipped Delete sends SUCCESS with no id.
- Update and Delete attach the function name to FAILED responses as well.
  Of the three API paths, only Create leaves the id out on failure.

## Model

| member | source | states |
|---|---|---|
| `Js.IndexOf` | index.js:15 | the result is -1 exactly when the character is absent; otherwise it is that character's position, and the character does not occur before it |
| `Js.Clamp` | index.js:16-17 | an index inside `[0, len]` is kept, a negative one becomes 0, and one past the end becomes `len` |
| `Js.Substring` | index.js:16-17 | in-range ordered indices give the ordinary slice; two non-positive indices give ""; `0` (or less) to the length (or more) gives the whole string |
| `Js.SubstringSymmetric` | index.js:16-17 | swapping the two indices does not change the result |
| `Js.SubstringNegativeIsZero` | index.js:16 | a negative start index acts as 0, which is why a missing dot (`dotIndex` = -1) gives an empty file name |
| `Js.Or` | index.js:40-42 | JavaScript's logical or of `v` and `d` is `v` when `v` is truthy and `d` otherwise, and is truthy whenever `d` is non-empty |
| `EchoFunction.SplitHandler` | index.js:15-17 | with a dot: file name, ".", function name concatenate back to the handler, and the file name has no dot (the split is at the first dot); without a dot: the file name is "" and the function name is the whole handler |
| `EchoFunction.DotJoinInjective` | index.js:15-17 | a dot-free prefix, a dot and a rest determine each other: two such decompositions of one string are equal |
| `EchoFunction.SplitJoin` | index.js:15-17 | round trip: splitting `f + "." + g` with dot-free `f` gives back `f` and `g` |
| `EchoFunction.EchoModule.Text` | index.js:18-23 | the generated source contains the line exporting the requested function name |
| `EchoFunction.TextInjective` | index.js:18-23 | two generated sources are equal only if they export the same name |
| `EchoFunction.CreateEchoFunction` | index.js:14-28 | the archive has exactly one file, named the part before the first dot plus ".js", whose module exports the part after it |
| `EchoFunction.ArchiveExportsHandler` | index.js:20-26 | the text of the archive's one file exports the handler's function name |
| `EchoFunction.EchoArchiveOf` | index.js:15-26 | for a handler `f.g` with dot-free `f`, the archive is exactly `[f.js exporting g]` |
| `EchoFunction.EchoArchiveWithoutDot` | index.js:15-26 | a handler without a dot yields the single file ".js" exporting the whole handler string |
| `Params.EchoCode` | index.js:41 | the new `Code` holds only the zip file, whose archive is `CreateEchoFunction` of the given handler; bucket, key and version are undefined |
| `Params.EchoCodeOf` | index.js:14-28 | for a handler `f.g` with dot-free `f`, the generated `Code` holds the archive whose only file is `f.js` exporting `g` |
| `Params.EchoDefaults` | index.js:40-43 | `Handler` and `Description` are kept when truthy and defaulted otherwise; `Runtime` is `nodejs`; `Code` is the echo zip built from the resulting `Handler`; `FunctionName` and every other property are unchanged; the result again has no S3 code |
| `Params.CreateParams` | index.js:38-45 | with an S3 bucket the record reaches `createFunction` unchanged; without one it is the echo-defaulted record; the name and the other properties never change |
| `Params.EchoDefaultsIdempotent` | index.js:40-43 | applying the defaults twice is the same as applying them once |
| `Params.CreateParamsIdempotent` | index.js:38-44 | preparing an already prepared record changes nothing |
| `Params.DefaultHandlerArchive` | index.js:40-41 | without a handler, the record gets `index.handler`, and its zip is the archive whose only file is `index.js` exporting `handler` |
| `Params.LambdaParams.ApplyEchoDefaults` | index.js:40-43 | the in-place assignments leave the object holding `EchoDefaults` of its old value, with its name and other properties untouched |
| `Handler.Callback` | index.js:46-53 | SUCCESS exactly when the SDK succeeded; the data or the error is forwarded verbatim; the physical resource id is the one the path chooses for that outcome |
| `Handler.CreateEffects` | index.js:31-55 | one `createFunction` call with the prepared record, then one response: the callback's, carrying the error or the data unchanged, SUCCESS exactly on success; the function name is attached on success and no id on failure |
| `Handler.UpdateEffects` | index.js:58-72 | one `updateFunctionConfiguration` call with the record as given, then one response: the callback's, carrying the error or the data unchanged and the function name on both outcomes |
| `Handler.DeleteEffects` | index.js:75-101 | a call is made exactly when the stored id equals the function name, and it is `deleteFunction({FunctionName})` followed by the relayed outcome; otherwise the only effect is SUCCESS with no data and no id |
| `Handler.UnknownEventMessage` | index.js:131 | the message is "Unknown event: " followed by the request type, or by "undefined" when there is none |
| `Handler.Dispatch` | index.js:114-134 | it throws exactly when a known request type finds no `Lambda` record; with a record, "Create", "Update" and "Delete" run exactly `CreateEffects`, `UpdateEffects` and `DeleteEffects` of it; a completed run makes at most one call, sends exactly one response last, and makes only the call its request type leads to; Delete makes one exactly when the ids match; an unknown type makes no call and sends FAILED with the message and no id |
| `Handler.CreatedThenDeleted` | index.js:51-91 | for a record with a function name, a Delete carrying the id that a successful Create reported deletes exactly that function and relays the outcome |
| `Handler.ForeignIdNotDeleted` | index.js:95-100 | a Delete whose stored id differs from the function name sends only SUCCESS, with no call |
| `Handler.CreateLambda` | index.js:31-55 | the method leaves the record equal to `CreateParams` of its old value, and its effects equal `CreateEffects` of the old value |
| `Handler.HandleEvent` | index.js:114-134 | the run equals `Dispatch` of the event as it was received; only a Create rewrites the `Lambda` record, into `CreateParams` of its old value |

## Left out

- The construction of the `AWS.Lambda` client (index.js:3-5) and the real API calls are left out. These are network calls. Their answer is the parameter `SdkOutcome`, and their data and error objects are left uninterpreted (`Payload`).
- `cfn-response`'s HTTP message to CloudFormation is left out. Each `response.send` is recorded as a `Response` value. The library's fallback, which uses the log stream name when no physical resource id is given, is not modelled: such a response records no id. For that reason `CreatedThenDeleted` is stated only for records that have a `FunctionName`.
- The zip bytes that `zip.generate` produces are left out, because they come from a library outside this model. The archive keeps each file's name and source text.
- `console.log`, `JSON.stringify`, the `context` object and the asynchronous callback style are left out. Each invocation makes at most one call and handles its one callback, so it is modelled as straight-line code.
- Properties are modelled as strings or undefined. Numbers, objects and other non-string values are not modelled. For example, a truthy non-string `Handler` would make `indexOf` throw.
- `null` is not modelled, and a `null` property is represented as undefined. This differs from the source in two visible places. At index.js:81, `null === undefined` is false, so a Delete whose `PhysicalResourceId` is `null` and whose record has no `FunctionName` deletes nothing; the model, comparing the two as undefined, calls `deleteFunction`. At index.js:131, a `null` `RequestType` makes the message "Unknown event: null"; the model prints "undefined".
- `Code` is modelled with its S3 bucket, key, object version and zip file only.
- An exception thrown by the SDK itself, or by the callback, is not modelled. Only the TypeError for a missing `Lambda` record is.
