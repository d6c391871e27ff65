# vice-photos-backend: the prediction-polling orchestration

The backend takes a photo and has it restyled by FLUX.1 Kontext [pro] on
Replicate. Every entry point does the same three things. It uploads the image
to Replicate's file store. It creates a prediction whose `input_image` is the
returned URL. Then it polls the prediction's status once a second, at most 180
times, until the status is `succeeded` with a truthy `output`, the status is
`failed`, or the budget runs out. The same steps appear three times: in the
Express route (`server.js`), in the serverless handler
(`api/generate-image.js`) and in a developer script (`test-image.js`).

This project models the steps and the handlers around them. The remote
service is an oracle, so its answers are parameters:

- `UploadReply`: the upload's URL or the error it threw.
- `CreateReply`: the prediction id, the error thrown, or `NoAnswer`. In the
  HTTP handlers, which put a 180000 ms deadline on creation, `NoAnswer` means no
  answer came before the deadline. In the developer script, which puts no
  deadline on it, `NoAnswer` means no answer ever comes.
- A sequence of `PollResponse` values: the n-th entry is what the n-th status
  request gets back, either a `{status, output, error}` reply or a thrown
  request error. The sequence must hold at least 180 entries, one for every
  request the loop could make.

Each handler returns three things: its response `(status, body)`, the remote
calls it made in order, and whether it deleted the temporary file.

Modules:

- `JsValues` (`js_values.dfy`): JavaScript values, with truthiness written out.
  `null`, `undefined`, `false`, `0` and `""` are falsy. Every array and object
  is truthy, including the empty ones. It also holds the `Array.isArray(r) ?
  r[0] : r` normalisation.
- `Replicate` (`replicate.dfy`): the request payload and the oracle types. It
  holds the poll loop as a method (`PollPrediction`) and its reference
  definition (`PollingOutcome`, built on `FirstEnd`, the index of the first
  response that ends the loop). It also holds the steps shared by the
  handlers, as a method (`Generate`) and a function (`Generation`).
- `Http` (`http.dfy`): the JSON response envelope.
- `Server`, `ServerlessHandler`, `FluxTestScript`: one module per source file.

The model follows the code as written, including these behaviours:

- An `output` of `[]` is truthy. It ends the loop and is not an error. The
  serverless handler then answers 200 with an undefined `imageUrl`.
- A `succeeded` reply whose output is null or `""` keeps the loop polling.
- A status outside `succeeded` and `failed`, such as `canceled`, also keeps
  the loop polling, until the timeout.
- The temporary file is deleted only on the success path. Every error path
  leaves it in place.
- The Express route returns the output as it is, so an array stays an array.
- A status request that throws ends the whole request with a 500. It is not
  retried.

## Model

| member | source | states |
|---|---|---|
| `JsValues.FalsyValues` | server.js:119 | A value is falsy exactly when it is undefined, null, false, 0 or the empty string, so every array is truthy |
| `JsValues.Truthy` | server.js:119 | `!result` in the loop guard: every array and object is truthy, including the empty ones, and undefined, null and `""` are falsy |
| `JsValues.FirstIfArray` | api/generate-image.js:127 | Normalisation gives an array's first element, `undefined` for an empty array, and any other value unchanged |
| `JsValues.FirstIfArrayAgreesOnHead` | api/generate-image.js:127 | A single URL and a list that starts with that URL normalise to the same URL, and the rest of the list is dropped |
| `JsValues.FirstIfArrayLosesTruthOnlyForArrays` | api/generate-image.js:120-127 | A truthy result becomes falsy after normalisation only if it is an empty array or an array whose first element is falsy |
| `Replicate.KontextPayload` | server.js:87-96 | `input_image` is exactly the uploaded URL, and the prompt is the one given. Version, aspect ratio, output format and safety tolerance are fixed constants |
| `Replicate.KontextPayloadInjective` | test-image.js:42-51 | Two payloads are equal exactly when their prompts and image URLs are equal |
| `Replicate.Ends` | server.js:119-135 | A thrown status request ends the loop. A status other than `succeeded` or `failed` never ends it. A `succeeded` reply with a falsy output does not end it either |
| `Replicate.FirstEnd` | server.js:119-137 | Gives the first index in the budget whose response ends the loop, or 180 if there is none. No earlier response ends it |
| `Replicate.PollingOutcome` | server.js:115-141 | The poll makes between 1 and 180 requests. A result is always truthy. A timeout happens only after all 180 requests |
| `Replicate.StatusRequests` | server.js:123-127 | Each attempt issues one GET of the same prediction id |
| `Replicate.PollPrediction` | server.js:115-141 | The `while` loop over `result`/`attempts` gives `PollingOutcome`. It issues exactly `requests` status GETs, never more than 180 |
| `Replicate.OutcomeAtFirstEnd` | server.js:119-137 | If the k-th response is the first to end the loop, exactly k+1 requests are made. `failed` throws with that reply's `error`, `succeeded` gives its `output` unmodified, and a thrown request throws its error. If no response ends it, the outcome is the timeout after 180 requests |
| `Replicate.TimeoutIffNoEnd` | server.js:119-141 | The outcome is the 3-minute timeout exactly when none of the first 180 responses ends the loop |
| `Replicate.LaterRepliesUnread` | server.js:119-137 | Responses after the one that ends the loop are never read. Sequences that agree up to that request poll the same |
| `Replicate.FirstEndAgrees` | server.js:119-137 | Reply sequences that end the loop at the same positions reach the same first end |
| `Replicate.NonEndingRepliesIrrelevant` | server.js:129-137 | Changing which non-ending replies arrive (any other status, or `succeeded` with a falsy output) does not change the outcome |
| `Replicate.Pending` | server.js:131-136 | `processing` replies never end the loop |
| `Replicate.PendingPendingSucceeded` | server.js:119-137 | The replies starting, processing, succeeded("url") lead to exactly 3 requests, and the result is the URL |
| `Replicate.FalsyOutputKeepsPolling` | api/generate-image.js:101-117 | Polling continues past `succeeded` with null, `succeeded` with `""` and `canceled`. `succeeded` with `[]` ends the loop on the 4th request |
| `Replicate.FailedOnSecondAttempt` | server.js:133-135 | `failed` on attempt 2 stops after 2 requests and carries the error payload unmodified |
| `Replicate.NeverEndingTimesOut` | test-image.js:73-94 | 180 non-ending replies lead to the timeout error after exactly 180 requests |
| `Replicate.Generation` | server.js:83-141 | The calls start with the upload and number at most 2 + 180. A successful result is truthy |
| `Replicate.GenerationCallOrder` | server.js:84-127 | A failed upload makes no further calls. After an upload, the second call is the creation request, whose `input_image` is the URL and whose settings are the fixed ones. Status GETs come only after a created prediction and use its id |
| `Replicate.GenerationWhenCreated` | server.js:84-141 | Once the prediction is created, the run succeeds exactly when the poll does, with the poll's result. Otherwise it fails with the poll's error. Its calls are the upload, the creation request with the URL, then the poll's status requests |
| `Replicate.Generate` | server.js:83-141 | The upload, create and poll steps give `Generation`. A creation request with no answer fails with the 180000 ms timeout |
| `Http.GenerationFailure` | server.js:153-166 | Any thrown error gives 500 `{error: 'Failed to generate image', details: <that error>}` |
| `Server.GenerateImage` | server.js:72-168 | No file gives 400 `No image uploaded` with no remote call. Otherwise the calls and result are those of `Generation`. Success gives 200 with the raw output and deletes the file. Every error gives a 500 and leaves the file. The file is deleted exactly when the status is 200 |
| `ServerlessHandler.Handle` | api/generate-image.js:50-145 | A middleware error gives 500 `File upload failed` with its message. No file gives 400. Both happen before any remote call. Otherwise the outcome is `Generation`'s. Success gives 200 with the normalised output and deletes the file. Errors give a 500 and leave the file |
| `ServerlessHandler.EmptyArrayOutputGivesUndefinedUrl` | api/generate-image.js:101-133 | A first `succeeded` reply with `[]` ends polling after one request, and its normalised `imageUrl` is undefined rather than an error |
| `FluxTestScript.TestCorrectFluxKontext` | test-image.js:36-109 | Prediction creation has no deadline here, so a creation request with no answer never settles. Every other outcome is `Generation`'s: the script resolves the raw output or rejects with the error. Like the handlers, it assumes that the upload and the status requests settle (see "## Left out") |
| `FluxTestScript.TestPromptVariations` | test-image.js:112-154 | A failed upload rejects before any creation. Otherwise the prompts are submitted in list order with the same URL. A rejected submission does not stop the rest. All three are submitted unless one never settles |

## Left out

- Network I/O (the upload to `/v1/files`, prediction creation, status GETs): each is an oracle parameter. A missing `urls.get` or `id` field in a reply is not modelled.
- Unanswered uploads and status requests: no timeout guards the upload POST or the status GETs, in any of the three files. One that never settles would leave the handler without a response, or the script without a result. The model assumes that every upload and status request settles, by answering or by throwing. Only prediction creation has an unanswered case, `NoAnswer`. So every modelled handler run ends with a response.
- `withTimeout` races a promise against a timer. The model keeps only its effect: an unanswered creation request fails with the 180000 ms timeout error. The timer left running after the race is not modelled.
- The one-second and two-second `setTimeout` pauses: they change nothing but elapsed time, which the model does not track.
- The Express and multer setup, CORS, JSON parsing, the disk storage rule that names files after `Date.now()`, the liveness route `/test`, and Express's own handling of a multer error in `server.js`: these are framework glue.
- File-system calls (`mkdirSync`, `createReadStream`, `unlinkSync`): cleanup is the `deleted` flag. An `unlinkSync` that throws after a successful generation, which would give a 500, is not modelled.
- Error messages are kept as structured `Error` values, not strings. The exact `JSON.stringify` text inside "Prediction failed: …" is not produced.
- Console logging and the duration report, which uses floating-point division.
- Numbers in `JsValue` are integers, so NaN and -0 are not represented.
- `runCorrectTests` in `test-image.js` only runs the two test functions in sequence and logs. `test-api.js` is a single OpenAI SDK call. Neither is modelled.
- FluxTestScript.TestPromptVariations: the prediction ids it only logs are not returned.
