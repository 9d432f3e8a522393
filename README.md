# Image upload gateway and mock AI service — a Dafny model

The system is a one-hop image proxy. A browser posts an image to the backend's
`POST /api/process`. The backend validates the upload, forwards it once to an AI
service, and turns that service's answer, or its failure, into a 200, 400, 503 or 500.
The AI service (`POST /process`, Python/Flask) checks the request, measures the image,
and returns a fixed decision-table "analysis".

This project models the decision logic of both sides:

- `path_text.dfy` (module `PathText`): the two .NET string operations the backend's type
  check uses. `Path.GetExtension` gives the suffix from the last `.` of the last path
  segment, or `""`. `ToLowerInvariant` lower-cases a string.
- `models.dfy` (module `Models`): the deserialized service answer (`AIResponse`,
  `AIObject`) and the backend's public result (`ProcessingResult`, `DetectedObject`).
  The JSON `label` field is called `name`, because `label` is a Dafny keyword.
- `process_controller.dfy` (module `ProcessController`): the backend handler as pure
  functions. It covers the three ordered checks, the outcome of the forwarded call, the
  field-for-field mapping and the two catch blocks.
- `ai_service.dfy` (module `AiService`): the service's classification rule and
  orientation/lighting entries as functions. `analyze_image` and `process_image` are
  methods, because the source builds `objects` by appending and extends the result
  dictionary in place.
- `wrappers.dfy` (module `Wrappers`): `Option` (null) and `Result` (value or exception).

The backend handler keeps no state between requests. It is therefore a function of three
inputs:
- the form file under `image`, if any;
- the platform, whose directory separators `Path.GetExtension` honours;
- what sending the file to the AI service produced: an exception, or a status code and
  a body.

"No outbound call before all checks pass" becomes this statement: a rejected upload's
answer is the same whatever the AI service would have produced.

The three checks are stated against an independent definition of the type check: "the
name ends with `.jpg`, `.jpeg`, `.png`, `.gif` or `.bmp`, ignoring case". The model
proves that the code's extension test (extension, lower-cased, then a list lookup)
accepts exactly those names, on either platform.

Two outcomes of the code are worth stating because they are easy to get wrong:

- When the call runs out of `HttpClient.Timeout`, .NET raises `TaskCanceledException`,
  which is not an `HttpRequestException`. The catch at `ProcessController.cs:61-65` then
  answers 500, not 503. In the model that case is `Threw(OtherException(..))`, and
  `ProcessImage` gives 500 for it. A TCP connect timeout reported by the socket arrives
  as `HttpRequestException` instead; that case is `Threw(HttpRequestException)` and gives 503.
- A JSON `objects` array holding `null` makes the mapping lambda dereference null. The
  result is a 500, and the model shows this (`NullEntryIsServerError`).

A wire mismatch between the two components is noted but not reproduced. The Python
service sends `processing_time`, while the backend's camel-case deserializer reads
`processingTime`. The backend would therefore see 0 for it. The model takes the parsed
`AIResponse` as given.

## Model

| member | source | states |
|---|---|---|
| `PathText.LastDotInFileName` | backend/ai-image-processor/ai-image-processor/Controllers/ProcessController.cs:71 | The index found is a `.` with no `.` or separator after it. When nothing is found, every `.` in the path has a separator after it. |
| `PathText.GetExtension` | backend/ai-image-processor/ai-image-processor/Controllers/ProcessController.cs:71 | The extension is `""`, or a suffix of the name of length at least 2 that starts with `.` and has no further `.` or separator. So no dot, or a trailing dot, gives `""`. |
| `PathText.GetExtensionOfSuffix` | backend/ai-image-processor/ai-image-processor/Controllers/ProcessController.cs:71 | Conversely, any suffix of that shape is the extension. With the ensures of `GetExtension`, this determines the extension completely. |
| `PathText.ToLowerInvariant` | backend/ai-image-processor/ai-image-processor/Controllers/ProcessController.cs:71 | The result has the same length, and each character is the lower-cased input character. |
| `ProcessController.ValidImageFileIffImageExtension` | backend/ai-image-processor/ai-image-processor/Controllers/ProcessController.cs:68-73 | The type check accepts a file if and only if its name ends with one of the five allowed extensions, ignoring case. This holds on both platforms. |
| `ProcessController.UpperCaseExtensionAccepted` | backend/ai-image-processor/ai-image-processor/Controllers/ProcessController.cs:70-72 | `PHOTO.JPG` has an allowed extension. |
| `ProcessController.NonImageNamesRejected` | backend/ai-image-processor/ai-image-processor/Controllers/ProcessController.cs:70-72 | `photo` (no extension) and `doc.pdf` do not. |
| `ProcessController.MirrorsIsFunctional` | backend/ai-image-processor/ai-image-processor/Controllers/ProcessController.cs:128-138 | Two results that mirror the same response are equal, so the field-for-field relation determines the result completely. |
| `ProcessController.MapObjects` | backend/ai-image-processor/ai-image-processor/Controllers/ProcessController.cs:132-136 | Mapping succeeds if and only if no entry is null. Then the list has the same length and order, and each entry copies label and confidence. A null entry raises `NullReferenceException`. |
| `ProcessController.ToProcessingResult` | backend/ai-image-processor/ai-image-processor/Controllers/ProcessController.cs:128-138 | The result copies classification, confidence and processing time. A null list stays null; otherwise the list is copied entry by entry. It fails only on a null entry. |
| `ProcessController.CallAIService` | backend/ai-image-processor/ai-image-processor/Controllers/ProcessController.cs:108-144 | The call yields a result if and only if the status is 2xx, the body is a JSON object and the list has no null entry. That result mirrors the body. It fails with `HttpRequestException` exactly when the transport threw one or the status is not 2xx. |
| `ProcessController.ProcessImage` | backend/ai-image-processor/ai-image-processor/Controllers/ProcessController.cs:27-66 | It answers 400 if and only if some check fails. A missing or empty file gives "No image file provided" first. A wrong extension gives the type message whatever the size. Over 10485760 bytes gives the size message. Otherwise: 200 with the mirrored result if and only if the call succeeds; 503 exactly for an `HttpRequestException`; 500 for any other failure. |
| `ProcessController.RejectionIgnoresUpstream` | backend/ai-image-processor/ai-image-processor/Controllers/ProcessController.cs:31-52 | A rejected upload is answered the same whatever the AI service would have returned: no call is consulted. |
| `ProcessController.ProcessImageIgnoresPlatform` | backend/ai-image-processor/ai-image-processor/Controllers/ProcessController.cs:71 | The answer does not depend on which directory separators the platform uses. |
| `ProcessController.TypeCheckedBeforeSize` | backend/ai-image-processor/ai-image-processor/Controllers/ProcessController.cs:38-47 | An 11 MiB `doc.pdf` gets the type message, not the size message. |
| `ProcessController.SizeBoundary` | backend/ai-image-processor/ai-image-processor/Controllers/ProcessController.cs:44-47 | Exactly 10485760 bytes passes the size check and reaches the call. 10485761 bytes is refused with the size message. |
| `ProcessController.MappingFidelity` | backend/ai-image-processor/ai-image-processor/Controllers/ProcessController.cs:128-138 | A 2 MiB `photo.png` with the answer {cat, 0.97, [{eye, 0.8}], 0.12} gives 200 with exactly those values. |
| `ProcessController.UnparsableBodyIsServerError` | backend/ai-image-processor/ai-image-processor/Controllers/ProcessController.cs:61-65 | A 200 whose body does not parse gives 500 "An error occurred while processing the image". |
| `ProcessController.NullEntryIsServerError` | backend/ai-image-processor/ai-image-processor/Controllers/ProcessController.cs:132-136 | A 200 whose `objects` list holds a null gives 500. |
| `ProcessController.ErrorStatusIsUnavailable` | backend/ai-image-processor/ai-image-processor/Controllers/ProcessController.cs:112-118 | A 404 from the AI service gives 503 "AI service is temporarily unavailable". |
| `AiService.Classify` | ai-service/app.py:32-43 | Each verdict holds on exactly one region. "Low-light Image"/0.88 if and only if brightness < 50. "Bright Image"/0.85 if and only if brightness > 200. "High Contrast Image"/0.82 if and only if 50 ≤ brightness ≤ 200 and contrast > 60. "Normal Image"/0.75 otherwise. |
| `AiService.BrightnessTakesPrecedence` | ai-service/app.py:32-37 | Outside 50..200, contrast does not affect the verdict, so a dark high-contrast image is "Low-light Image". |
| `AiService.Orientation` | ai-service/app.py:47-50 | "Landscape Orientation" if and only if width > height; otherwise "Portrait Orientation" (squares included). Both have confidence 0.90. |
| `AiService.Lighting` | ai-service/app.py:52-55 | "Well-lit Area"/0.85 if and only if brightness > 150; otherwise "Dark Area"/0.80. |
| `AiService.LightingIndependentOfClassification` | ai-service/app.py:32-55 | Brightness 175 with low contrast gives "Normal Image" and "Well-lit Area". |
| `AiService.AnalyzeImage` | ai-service/app.py:12-75 | A failed measurement gives "Analysis Error", 0.0, no objects and the error text. Otherwise the verdict of `Classify`, no error, and exactly two objects: orientation first, lighting second. |
| `AiService.ProcessImage` | ai-service/app.py:78-99 | A missing `image` part gives 400 "No image file provided", checked first. An empty file name gives 400 "No file selected". An image that cannot be opened gives 500 "Processing failed: …". It answers 200 if and only if the part has a name and opens, with the analysis plus `processing_time` 0.5 and the upload's file name. |

## Left out

- HTTP and multipart plumbing is not modelled. This covers `Request.Form.Files`, `IHttpClientFactory`, `MultipartFormDataContent`, `PostAsync` and Flask's `request`/`jsonify`. The model starts from the file the form yields and from what the send produced.
- A request whose body is not a form makes `Request.Form` throw, so the backend answers 500. This path is not modelled.
- The form-file lookup by name, which is case-insensitive in ASP.NET, is not modelled. The model takes the file the lookup returns.
- The file bytes and content type are not inspected by either side's checks. Only name and length are modelled; forwarding them untouched is not. `FormFile.contentType` is carried but never read by the model.
- A request body over the server's request size limit (30,000,000 bytes by default in Kestrel) makes `Request.Form` (:31) throw, so the answer is 500. The model has no input for it; the nearest is a missing form file, which gives 400 instead. The 10485760-byte size message can only be reached below that limit.
- A file part without a Content-Type header makes `new MediaTypeHeaderValue(file.ContentType)` (:101) throw, which gives 500. That case is covered by `Threw(OtherException(..))`.
- Logging is not modelled. The URI parse test at `ProcessController.cs:88-96` only logs when the configured URL is present but malformed, since it catches only `UriFormatException`.
- Reading the service URL from configuration is not modelled. When `AIService:Url` is missing, `new Uri(null)` at `ProcessController.cs:90` throws `ArgumentNullException` before anything is sent. The catch at :93 does not take it, so it passes :140-143 and reaches :61-65. That case is covered by `Threw(OtherException(..))`, which gives 500. A present but malformed URL is logged at :93-96, and `PostAsync` then throws a non-HTTP exception for it; that is also `Threw(OtherException(..))`, giving 500.
- JSON deserialization is taken as a result: `Unparsable`, `JsonNull` or a parsed `AIResponse`. A JSON string field that is missing or null is not distinguished from a string; it is only ever copied.
- Reading the response body is not a separate step. `PostAsync` (:108) buffers the whole body by default, so a failure while receiving it is thrown by `PostAsync` and is covered by `Threw`. The `ReadAsStringAsync` at :120 only reads that buffer. It can fail only on an unknown charset, with `InvalidOperationException`; that is covered by `Threw(OtherException(..))`, which gives 500.
- Doubles are modelled as reals. They are copied or compared with constants, never computed. NaN measurements (comparisons all false) are not modelled.
- PathText.ToLowerInvariant: only ASCII letters are lower-cased. .NET's invariant culture also maps other letters, so a non-ASCII letter that maps to an ASCII one in an extension is not covered.
- Image decoding and measurement (PIL, NumPy, OpenCV) are inputs: `Undecodable`, or a `Measurement` that either holds width, height, brightness and contrast or failed with a message.
- `AiService.ProcessImage` folds any other failure before analysis, such as a failing read of the upload, into `Undecodable`. Both give 500 "Processing failed: …".
- The `image_info` block of `analyze_image` is not modelled; it holds rounded float statistics. `round(confidence, 2)` is taken as the identity, since all confidences have two decimals.
- The `/health` route, server start-up and the React front end have no decision logic and are not modelled.
