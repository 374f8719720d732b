# vidu-mcp adapter core, modelled in Dafny

vidu-mcp is an MCP server that exposes five video-generation tools backed by
the Vidu HTTP API. Every tool does the same things in order:

1. It validates its required arguments.
2. It turns local image paths into JPEG data URIs (`del_input_image`).
3. It POSTs one task-creation request through the API client.
4. It reads the returned `task_id`.
5. It polls the task's creations endpoint (`query_video`) until the task fails, succeeds or 30 polls have passed.
6. It returns a string: either the JSON of the result record or an error message. The message starts with `Error: ` for the adapter's own errors and with `Error generating video: ` for anything else.

The model replaces the outside world with inputs:

- The file system is a map from path to bytes.
- The network is an oracle `answers: nat -> Response`. The k-th request of a call gets `answers(k)`. A `Response` is either a transport failure or the decoded JSON object of the body.
- `time.sleep` is recorded as a list of waits.

Each operation is a pure function. It returns the output string, every request it sent, and every sleep it took.

Modules, one per concern:

- `Wrappers`: `Option` and `Result`.
- `Strings`: prefix and infix predicates.
- `JsonValues`: decoded JSON plus the Python built-ins the code applies to it:
  - truthiness;
  - `type(x).__name__`;
  - `str(x)`;
  - `dict.get`.
- `Errors`: the exception classes and the `except` ladder that renders them.
- `Base64`: the standard Base64 of section 4 of RFC 4648, with its strict decoder.
- `ImageInput`: `vidu_mcp/util.py`.
- `ApiClient`: `vidu_mcp/client.py`.
- `Poller`: `query_video`.
- `Tools`: the five `generate_*` tools.

## Model

| member | source | states |
|---|---|---|
| Base64.Encode | vidu_mcp/util.py:28 | The encoding of n bytes has exactly 4·⌈n/3⌉ characters. |
| Base64.Decode | vidu_mcp/util.py:28 | This is the inverse used to state the round trip. It is strict: it rejects characters outside the alphabet, padding anywhere but the end, and non-zero bits under the padding. When it accepts a string, that string has the length an encoding of the decoded bytes has. |
| Base64.ValueOfCharOf | vidu_mcp/util.py:28 | Every 6-bit value has an alphabet character distinct from the pad `=`, and that character's value is the 6-bit value again, so the alphabet is injective. |
| Base64.DecodeEncode | vidu_mcp/util.py:28 | Decoding the Base64 of any byte string gives back exactly those bytes. |
| Base64.EncodeDecode | vidu_mcp/util.py:28 | Every string the decoder accepts is the encoding of the bytes it decodes to, so the encoding is a bijection between byte strings and accepted strings. |
| Errors.Render | vidu_mcp/server.py:461-469 | An error string starts with `Error: ` exactly when the exception is a `ViduAPIError`. Any other exception gets `Error generating video: `. In both cases the exception's own text follows the prefix unchanged. |
| ImageInput.NormalizeImage | vidu_mcp/util.py:17-30 | On success the result starts with `http://`, `https://` or `data:`. Such a string is returned unchanged. A non-string fails with "image must be a string, got <class 'T'>". An unprefixed path missing from the file system fails with "image does not exist: p". |
| ImageInput.NormalizeLocalFile | vidu_mcp/util.py:22-28 | An existing local file becomes `data:image/jpeg;base64,` followed by text that Base64-decodes to exactly the file's bytes. Its length is the prefix plus 4·⌈n/3⌉. |
| ImageInput.NormalizeIdempotent | vidu_mcp/util.py:22-30 | Normalising a successful output again returns it unchanged. |
| ImageInput.NormalizeReadsOnlyItsPath | vidu_mcp/util.py:20-28 | The result depends on the file system only through the image's own path. A non-string or a prefixed string does not depend on it at all. |
| ImageInput.PrefixTestIsCaseSensitive | vidu_mcp/util.py:22-25 | A string whose first character is neither `h` nor `d` counts as a local path even if it spells a scheme in upper case. If it is missing, it fails as "image does not exist". |
| ImageInput.NormalizeImagesSuccess | vidu_mcp/util.py:6-14 | The list succeeds exactly when every element does. The result then has the same length and order, with element i equal to the normalisation of input i. |
| ImageInput.NormalizeImagesFirstFailure | vidu_mcp/util.py:9-12 | When element j is the first to fail, the list fails with j's error. |
| ImageInput.NormalizeImagesFailFast | vidu_mcp/util.py:9-12 | If a list fails, appending any further elements leaves the outcome unchanged, so nothing after the failing element is read. |
| ApiClient.NewClient | vidu_mcp/client.py:10-22 | The session's header names are the library defaults plus `Authorization`. That header is `Token ` followed by the API key. Every other default header is kept. |
| ApiClient.SetContentType | vidu_mcp/client.py:46-53 | `Content-Type` is present exactly when no files are given, and it is then `application/json`. All other headers are unchanged. |
| ApiClient.Interpret | vidu_mcp/client.py:55-80 | Data is returned exactly when the body's `code` is absent or `None`, and it is then the body unchanged. A transport failure gives "Request failed: …". An auth error occurs exactly when the code is 401 and the trace id can be read. An unexpected error occurs exactly when the code is set and `metadata` is not an object. |
| ApiClient.TraceId | vidu_mcp/client.py:69-74 | A missing `metadata` gives `None`. Reading fails exactly when `metadata` is present but not an object, and the failure is the unexpected `AttributeError` "'T' object has no attribute 'get'". Otherwise the value is the `trace_id` of `metadata`, or `None`. |
| ApiClient.MakeRequest | vidu_mcp/client.py:24-80 | The URL is the host followed directly by the endpoint, with nothing inserted. The session and the request carry the content-type header update. The outcome is decided by the response alone. |
| ApiClient.Get | vidu_mcp/client.py:82-84 | A GET is sent to the host followed by the endpoint, with no body. The sent headers are the session headers with the JSON content type, and the client adopts them. The outcome is the response interpreted as `_make_request` does. |
| ApiClient.Post | vidu_mcp/client.py:86-88 | A POST is sent to the host followed by the endpoint, with the payload as its JSON body. The sent headers are the session headers with the JSON content type, and the client adopts them. The outcome is the response interpreted as `_make_request` does. |
| ApiClient.AuthErrorTextNamesBoth | vidu_mcp/client.py:67-70 | The auth error text contains both the upstream message and the trace id. |
| ApiClient.AuthErrorCarriesDiagnostics | vidu_mcp/client.py:64-70 | Code 401 gives an auth error whose message contains the upstream message and the trace id. |
| ApiClient.OtherCodesAreRequestErrors | vidu_mcp/client.py:64-75 | Any code other than `None` and 401, including 0, gives a request error and never an auth error. |
| ApiClient.NewClientAuthorizes | vidu_mcp/client.py:19-53 | For a client from `__init__`, the headers of any request, with or without files, hold `Authorization: Token <api_key>`. |
| Poller.FirstCreationUrl | vidu_mcp/server.py:441 | A missing `creations` key gives `None`. A non-empty list whose first element is an object gives that element's `url` (or `None`), whatever other keys or elements there are, and every success has that shape. Each other shape raises the exception Python raises, with its text: an empty list "list index out of range", a first element that is not an object "'T' object has no attribute 'get'", an empty string "string index out of range", a non-empty string "'str' object has no attribute 'get'", an object the KeyError "0", and any other value "'T' object is not subscriptable". |
| Poller.Classify | vidu_mcp/server.py:435-447 | A client failure stops the loop with that failure. State `failed` stops with "Video generation failed for task_id: T". State `success` stops with the first creation's exception if reading it raises, succeeds with its URL if that is truthy, and otherwise stops with "Missing creation_url in success response for task_id: T". The loop goes on exactly when the fetch succeeded with a state other than `failed` or `success`. |
| Poller.FirstNonPending | vidu_mcp/server.py:434-447 | This is the reference for where the loop stops. Every fetch from `attempt` up to k is "still processing", and fetch k is terminal unless k is 30. |
| Poller.PollFrom | vidu_mcp/server.py:434-450 | Every request is a GET of the creations endpoint with the same headers: the session headers with the JSON content type. Every sleep is 20. If fetch k is the first terminal one, the loop returns what k decides after k+1 fetches and k sleeps. If there is none, it returns the timeout error after 30 fetches and 30 sleeps. |
| Poller.QueryVideo | vidu_mcp/server.py:426-469 | There are between 1 and 30 fetches, all GETs of `/ent/v2/tasks/{task_id}/creations` carrying the session headers, and all sleeps are 20. There is one sleep fewer than fetches unless the budget ran out, in which case there are 30 of each and the timeout error. |
| Poller.FirstNonPendingIs | vidu_mcp/server.py:434-447 | When fetches before k are non-terminal and fetch k is terminal (or k is 30), the loop stops at k. |
| Poller.PollStopsAtFirstTerminal | vidu_mcp/server.py:434-447 | When fetch k is the first terminal one, the output is what that fetch decides, after exactly k+1 fetches and k sleeps. |
| Poller.PollTimesOut | vidu_mcp/server.py:431-450 | Thirty non-terminal fetches give exactly 30 fetches, 30 sleeps and "Error: Failed to get creation_url for task_id: T". |
| Poller.FailedStateReportsTask | vidu_mcp/server.py:438-439 | State `failed` ends the loop with "Error: Video generation failed for task_id: T". |
| Poller.SuccessWithoutCreationsIsMissingUrl | vidu_mcp/server.py:440-444 | `success` without a `creations` key falls back to `[{}]` and ends with "Error: Missing creation_url in success response for task_id: T". |
| Poller.SuccessWithFalsyUrlIsMissingUrl | vidu_mcp/server.py:440-444 | `success` whose first creation has a missing, `None` or empty `url` ends with "Error: Missing creation_url in success response for task_id: T". |
| Poller.SuccessWithEmptyCreationsIsUnexpected | vidu_mcp/server.py:441 | `success` with an empty creation list ends with "Error generating video: list index out of range". |
| Poller.SuccessWithUrlIsRecord | vidu_mcp/server.py:440-459 | `success` with a truthy URL yields the record of the task id, status `success` and that URL. |
| Poller.ClientFailureEndsPoll | vidu_mcp/server.py:435 | A failed status fetch ends the loop, without retry, with that failure's rendered text. |
| Poller.ProcessingThenSuccess | vidu_mcp/server.py:434-459 | The script processing, processing, success gives 3 fetches, the waits [20, 20], and the record with the URL. |
| Poller.QueryVideoWaitsAtMostTenMinutes | vidu_mcp/server.py:431-432 | The total time asleep is at most 600 seconds. |
| Tools.AfterSubmit | vidu_mcp/server.py:103-108 | A failed POST, or a falsy `task_id` ("Error: Failed to get task_id from response"), ends the call with no poll. Otherwise the rest of the run is `query_video`'s run for that task id, returned verbatim. |
| Tools.SubmitAndQuery | vidu_mcp/server.py:103-108 | The first request is a POST of the payload to host plus endpoint. There are at most 31 requests, all with the session headers and the JSON content type, and every sleep is 20. The rest of the run is `AfterSubmit` on the POST's outcome. |
| Tools.EveryRequestIsAuthorized | vidu_mcp/client.py:19-56 | With a client from `__init__`, every request of a tool call, the POST and each poll, carries `Authorization: Token <api_key>` and `Content-Type: application/json`. |
| Tools.TextPayload | vidu_mcp/server.py:91-101 | The payload has exactly the nine text-mode keys, and each carries its own argument: model, style, prompt, duration, seed, aspect ratio, resolution, movement amplitude and bgm. |
| Tools.GenerateTextToVideo | vidu_mcp/server.py:75-118 | No request is sent exactly when the prompt is empty, in which case the output is "Error: Prompt is required". Otherwise the first request POSTs the text payload to `/ent/v2/text2video`, and the whole run is `SubmitAndQuery` of that payload: a falsy `task_id` is an error, and a truthy one gives `query_video`'s output verbatim. |
| Tools.ImagePayload | vidu_mcp/server.py:166-175 | The payload has exactly the eight image-mode keys. `images` is the list of the one normalised image, and every other key carries its own argument. |
| Tools.GenerateImageToVideo | vidu_mcp/server.py:149-192 | No request is sent exactly when the image is empty ("Error: image is required") or fails to normalise (its error). Otherwise the request POSTs the normalised image to `/ent/v2/img2video`, and the whole run is `SubmitAndQuery` of that payload, ending in `query_video`'s output for a truthy `task_id`. |
| Tools.ReferencePayload | vidu_mcp/server.py:247-257 | The payload has exactly the nine reference-mode keys. `images` is the normalised list, and every other key carries its own argument. |
| Tools.GenerateReferenceToVideo | vidu_mcp/server.py:227-274 | The images are checked before the prompt. No request is sent exactly when either is empty or some image fails to normalise. An image that fails gives `Error: ` followed by its error, e.g. "Error: image does not exist: p". Otherwise the request goes to `/ent/v2/reference2video`, and the whole run is `SubmitAndQuery` of that payload, ending in `query_video`'s output for a truthy `task_id`. |
| Tools.StartEndPayload | vidu_mcp/server.py:321-330 | The payload has exactly the eight start-end keys. `images` is the normalised list, and every other key carries its own argument. |
| Tools.GenerateStartEndToVideo | vidu_mcp/server.py:304-347 | No request is sent exactly when the image list is empty ("Error: images is required") or some image fails to normalise (`Error: ` followed by its error). Otherwise the request goes to `/ent/v2/start-end2video`, and the whole run is `SubmitAndQuery` of that payload, ending in `query_video`'s output for a truthy `task_id`. The count of images is not checked. |
| Tools.TemplatePayload | vidu_mcp/server.py:395-406 | The six base keys are always present, each carrying its own argument. `area` appears only for `exotic_princess` and `beast` only for `beast_companion`, carrying the given values. Neither appears when the name is not the interned literal. |
| Tools.TemplateExtrasOnlyForTheirTemplates | vidu_mcp/server.py:403-406 | Any other template name gets exactly the six base keys. |
| Tools.GenerateTemplateToVideo | vidu_mcp/server.py:376-423 | The template is checked before the images. No request is sent exactly when either is empty or some image fails to normalise. An image that fails gives `Error: ` followed by its error. Otherwise the request goes to `/ent/v2/template2video`, and the whole run is `SubmitAndQuery` of that payload, ending in `query_video`'s output for a truthy `task_id`. |
| Tools.ImageToolSendsFileContents | vidu_mcp/server.py:160-177 | A local image file reaches the API as one JPEG data URI whose Base64 part decodes to the file's bytes. |
| Tools.ImageListIsNormalisedInOrder | vidu_mcp/server.py:244 | The list tools send one normalised image per argument, in order, and only if every one normalises. |
| Tools.SubmissionEndToEnd | vidu_mcp/server.py:103-108 | For any tool's payload, a task id, two processing states and a success give 4 requests, the waits [20, 20], and the record for that task. |
| Tools.TextToVideoEndToEnd | vidu_mcp/server.py:75-118 | A text call answered with a task id, two processing states and a success sends 4 requests, sleeps 40 seconds, and returns the record for that task. |

## Left out

- Framework glue is not modelled. This covers tool registration, descriptions, `main`, and the import-time configuration and environment checks. Argument types are taken as validated by the MCP framework, so the tools receive strings and lists of strings. The `isinstance` branch of `del_input_image` is still modelled for any JSON value.
- Logging has no effect on any result, so it is left out.
- HTTP specifics are folded into the response oracle:
  - `raise_for_status` and network errors both become a transport error carrying `str(e)`;
  - a body that is not a JSON object, and JSON-decode failures, are not modelled, because their behaviour depends on the library version.
- JSON numbers are integers. A floating-point `code` such as `401.0` would compare equal to 401 in Python and is not modelled.
- PyStr: arrays and objects print as the placeholders `[...]` and `{...}` rather than Python's `repr` of the container. Scalars print exactly.
- `time.sleep` is recorded as a list of waits. Real time passing is not modelled.
- The file system is a path-to-bytes map:
  - directories are not modelled;
  - `IOError` from opening a path that exists but cannot be read is not modelled;
  - the `IOError` handler that maps such errors to `Error: ` is therefore unreachable in the model.
- `json.dumps` formatting of the result record (indent, `ensure_ascii`) is not modelled. The record's fields are.
- Headers are a plain map with case-sensitive names. `requests` uses a case-insensitive dictionary.
- Concurrency is out of scope, including races between concurrent tool calls on the shared session's `Content-Type` header.
- Keyword arguments to `_make_request` other than `json` are not modelled. `files` appears only as the boolean that drives the content type.
- Tools.TemplatePayload: `template is "exotic_princess"` (and the same for `beast_companion`) compares object identity, which the model does not have. It is modelled by a boolean `interned` meaning the argument is the interned object for its contents. Only the "only if" direction (extra key ⇒ matching template name) is claimed as the source's behaviour. Whether a name decoded from a request is the interned object depends on the JSON decoder and the host, not on the adapter. It is normally not, and then neither extra key is sent.
- Default argument values: only the text tool's defaults are written out (`Tools.TextDefaults`, used by the end-to-end scenario). The other tools take every argument explicitly, so a default is just one possible input.
- Image counts: the tool descriptions promise one to three reference images and exactly two start/end images. The code checks only that the list is non-empty. The model follows the code.
