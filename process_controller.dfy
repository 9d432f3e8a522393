/** The backend's `POST /api/process` handler: an ordered, short-circuiting validation of
    the uploaded `image` file, one forwarded call to the AI service, and the translation of
    that call's outcome into 200, 400, 503 or 500. The handler keeps no state between
    requests, so it is a function of the uploaded file and of what the call to the AI
    service produced. */
module ProcessController {
  import opened Wrappers
  import opened PathText
  import opened Models

  const AllowedExtensions: seq<string> := [".jpg", ".jpeg", ".png", ".gif", ".bmp"]

  /** 10 MiB. */
  const MaxFileSize: nat := 10 * 1024 * 1024

  const NoImageMessage: string := "No image file provided"
  const InvalidTypeMessage: string := "Invalid file type. Please upload an image file."
  const TooLargeMessage: string := "File size too large. Maximum size is 10MB."
  const UnavailableMessage: string := "AI service is temporarily unavailable"
  const FailureMessage: string := "An error occurred while processing the image"

  /** The form file found under key `image`: its name, declared content type and length.
      The bytes are not modelled; the handler forwards them untouched. */
  datatype FormFile = FormFile(fileName: string, contentType: string, length: nat)

  /** The exceptions that can surface from the call to the AI service. */
  datatype Exception =
    | HttpRequestException
    | JsonException
    | NullReferenceException
    | OtherException(typeName: string)

  /** The body of a response from the AI service, as `JsonSerializer.Deserialize` reads it. */
  datatype Body = Unparsable | JsonNull | Json(response: AIResponse)

  /** What the call produced up to the response: an exception on the way, or a response
      with its status code and body. Connection refused, DNS failures and a socket connect
      timeout are HttpRequestException. Running out of `HttpClient.Timeout` is a
      TaskCanceledException, and a missing service URL makes `new Uri(null)` throw
      ArgumentNullException before anything is sent; both are OtherException. */
  datatype SendOutcome = Threw(exception: Exception) | Responded(statusCode: int, body: Body)

  /** What the action returns: `Ok(result)`, `BadRequest(message)` or `StatusCode(code, message)`. */
  datatype ActionResult =
    | Ok(value: ProcessingResult)
    | BadRequest(message: string)
    | ObjectResult(statusCode: int, message: string)
  {
    function Status(): int
    {
      match this
      case Ok(_) => 200
      case BadRequest(_) => 400
      case ObjectResult(code, _) => code
    }
  }

  // ---------------------------------------------------------------------------------
  // File-type check

  /** The type check as written: the lower-cased extension is on the allow-list. */
  predicate IsValidImageFile(file: FormFile, platform: Platform)
  {
    ToLowerInvariant(GetExtension(file.fileName, platform)) in AllowedExtensions
  }

  /** `name` ends with `ext`, ignoring the case of ASCII letters. */
  predicate EndsWithIgnoringCase(name: string, ext: string)
  {
    |ext| <= |name| && ToLowerInvariant(name[|name| - |ext|..]) == ext
  }

  /** The policy in plain words: the name ends with an allowed extension, ignoring case. */
  predicate HasImageExtension(name: string)
  {
    exists e :: e in AllowedExtensions && EndsWithIgnoringCase(name, e)
  }

  lemma AllowedExtensionShape(e: string)
    requires e in AllowedExtensions
    ensures 2 <= |e| && e[0] == '.'
    ensures forall k :: 1 <= k < |e| ==> 'a' <= e[k] <= 'z'
  {
  }

  /** A name ending, ignoring case, with an allowed extension has exactly that suffix as
      its extension: the suffix starts with '.' and the rest are letters. */
  lemma AllowedSuffixIsExtension(name: string, platform: Platform, e: string)
    requires e in AllowedExtensions && EndsWithIgnoringCase(name, e)
    ensures GetExtension(name, platform) == name[|name| - |e|..]
  {
    AllowedExtensionShape(e);
    var start := |name| - |e|;
    var low := ToLowerInvariant(name[start..]);
    assert low[0] == LowerChar(name[start]);
    LowerCharPreimage(name[start], platform);
    forall k | start + 1 <= k < |name|
      ensures name[k] != '.' && !IsDirectorySeparator(name[k], platform)
    {
      assert low[k - start] == LowerChar(name[k]);
      LowerCharPreimage(name[k], platform);
    }
    GetExtensionOfSuffix(name, platform, |e|);
  }

  /** The type check accepts exactly the names that end with an allowed extension, ignoring
      case, on either platform: "PHOTO.JPG" passes, a name without an extension does not. */
  lemma {:induction false} ValidImageFileIffImageExtension(file: FormFile, platform: Platform)
    ensures IsValidImageFile(file, platform) <==> HasImageExtension(file.fileName)
  {
    var name := file.fileName;
    if IsValidImageFile(file, platform) {
      var ext := GetExtension(name, platform);
      var e := ToLowerInvariant(ext);
      AllowedExtensionShape(e);
      assert ext == name[|name| - |e|..];
      assert EndsWithIgnoringCase(name, e);
    }
    if HasImageExtension(name) {
      var e :| e in AllowedExtensions && EndsWithIgnoringCase(name, e);
      AllowedSuffixIsExtension(name, platform, e);
      assert ToLowerInvariant(GetExtension(name, platform)) == e;
    }
  }

  // ---------------------------------------------------------------------------------
  // Mapping the AI service's answer onto the public result

  /** `d` copies `o` field for field. */
  predicate Copies(d: DetectedObject, o: AIObject)
  {
    d.name == o.name && d.confidence == o.confidence
  }

  /** Every entry of a deserialized `objects` array is non-null. */
  predicate NoNullEntries(objects: seq<Option<AIObject>>)
  {
    forall i :: 0 <= i < |objects| ==> objects[i].Some?
  }

  /** `result` carries the same classification, confidence and processing time as `response`,
      no list where the response had none, and otherwise an entry-by-entry copy in order. */
  predicate Mirrors(result: ProcessingResult, response: AIResponse)
  {
    && result.classification == response.classification
    && result.confidence == response.confidence
    && result.processingTime == response.processingTime
    && (result.objects.None? <==> response.objects.None?)
    && (result.objects.Some? ==>
          && |result.objects.value| == |response.objects.value|
          && forall i :: 0 <= i < |result.objects.value| ==>
               response.objects.value[i].Some? && Copies(result.objects.value[i], response.objects.value[i].value))
  }

  /** A response determines the result it mirrors: the mapping leaves nothing open. */
  lemma MirrorsIsFunctional(x: ProcessingResult, y: ProcessingResult, response: AIResponse)
    requires Mirrors(x, response) && Mirrors(y, response)
    ensures x == y
  {
    if x.objects.Some? {
      assert x.objects.value == y.objects.value;
    }
  }

  /** `Select(o => new DetectedObject { ... }).ToList()`: a null entry is dereferenced and
      throws; otherwise every entry is copied, in order. */
  function MapObjects(objects: seq<Option<AIObject>>): (r: Result<seq<DetectedObject>, Exception>)
    ensures r.Success? <==> NoNullEntries(objects)
    ensures r.Failure? ==> r.error == NullReferenceException
    ensures r.Success? ==>
      |r.value| == |objects| && forall i :: 0 <= i < |objects| ==> Copies(r.value[i], objects[i].value)
  {
    if objects == [] then Success([])
    else match objects[0]
      case None => Failure(NullReferenceException)
      case Some(o) =>
        match MapObjects(objects[1..])
        case Failure(e) => Failure(e)
        case Success(rest) =>
          assert forall i :: 1 <= i < |objects| ==> objects[i] == objects[1..][i - 1];
          Success([DetectedObject(o.name, o.confidence)] + rest)
  }

  /** The object initializer at the end of `CallAIService`. */
  function ToProcessingResult(response: AIResponse): (r: Result<ProcessingResult, Exception>)
    ensures r.Success? <==> (response.objects.None? || NoNullEntries(response.objects.value))
    ensures r.Failure? ==> r.error == NullReferenceException
    ensures r.Success? ==> Mirrors(r.value, response)
  {
    match response.objects
    case None =>
      Success(ProcessingResult(response.classification, response.confidence, None, response.processingTime))
    case Some(objects) =>
      match MapObjects(objects)
      case Failure(e) => Failure(e)
      case Success(detected) =>
        Success(ProcessingResult(response.classification, response.confidence, Some(detected), response.processingTime))
  }

  // ---------------------------------------------------------------------------------
  // The call to the AI service

  /** `IsSuccessStatusCode`: the status is in 200-299. */
  predicate IsSuccessStatusCode(code: int)
  {
    200 <= code <= 299
  }

  /** The call fails with an HttpRequestException: the transport threw one, or the service
      answered with a non-success status (`EnsureSuccessStatusCode`). */
  predicate UpstreamUnavailable(outcome: SendOutcome)
  {
    outcome == Threw(HttpRequestException) || (outcome.Responded? && !IsSuccessStatusCode(outcome.statusCode))
  }

  /** The call yields a result: a success status with a JSON object whose list has no null entry. */
  predicate UpstreamUsable(outcome: SendOutcome)
  {
    && outcome.Responded?
    && IsSuccessStatusCode(outcome.statusCode)
    && outcome.body.Json?
    && (outcome.body.response.objects.None? || NoNullEntries(outcome.body.response.objects.value))
  }

  /** `CallAIService` after the request is sent: check the status, deserialize, map. Its
      own catch block only logs and rethrows, so exceptions pass through unchanged. */
  function CallAIService(outcome: SendOutcome): (r: Result<ProcessingResult, Exception>)
    ensures r.Success? <==> UpstreamUsable(outcome)
    ensures r.Success? ==> Mirrors(r.value, outcome.body.response)
    ensures r.Failure? && r.error == HttpRequestException <==> UpstreamUnavailable(outcome)
  {
    match outcome
    case Threw(e) => Failure(e)
    case Responded(code, body) =>
      if !IsSuccessStatusCode(code) then Failure(HttpRequestException)
      else
        match body
        case Unparsable => Failure(JsonException)
        case JsonNull => Failure(NullReferenceException)
        case Json(response) => ToProcessingResult(response)
  }

  // ---------------------------------------------------------------------------------
  // The action

  /** The upload passes all three checks: present and non-empty, an allowed extension,
      at most 10 MiB. */
  predicate Admissible(file: Option<FormFile>)
  {
    file.Some? && 0 < file.value.length <= MaxFileSize && HasImageExtension(file.value.fileName)
  }

  /** `ProcessImage`: the three checks in order, then the call, then the catch blocks. */
  function ProcessImage(file: Option<FormFile>, platform: Platform, outcome: SendOutcome): (r: ActionResult)
    ensures r.BadRequest? <==> !Admissible(file)
    ensures file.None? || file.value.length == 0 ==> r == BadRequest(NoImageMessage)
    ensures file.Some? && file.value.length > 0 && !HasImageExtension(file.value.fileName) ==>
      r == BadRequest(InvalidTypeMessage)
    ensures file.Some? && file.value.length > MaxFileSize && HasImageExtension(file.value.fileName) ==>
      r == BadRequest(TooLargeMessage)
    ensures r.Ok? <==> Admissible(file) && UpstreamUsable(outcome)
    ensures r.Ok? ==> Mirrors(r.value, outcome.body.response)
    ensures r == ObjectResult(503, UnavailableMessage) <==> Admissible(file) && UpstreamUnavailable(outcome)
    ensures r == ObjectResult(500, FailureMessage) <==>
      Admissible(file) && !UpstreamUnavailable(outcome) && !UpstreamUsable(outcome)
    ensures r.Status() in {200, 400, 500, 503}
  {
    if file.None? || file.value.length == 0 then
      BadRequest(NoImageMessage)
    else
      ValidImageFileIffImageExtension(file.value, platform);
      if !IsValidImageFile(file.value, platform) then
        BadRequest(InvalidTypeMessage)
      else if file.value.length > MaxFileSize then
        BadRequest(TooLargeMessage)
      else
        match CallAIService(outcome)
        case Success(result) => Ok(result)
        case Failure(HttpRequestException) => ObjectResult(503, UnavailableMessage)
        case Failure(_) => ObjectResult(500, FailureMessage)
  }

  /** A rejected upload is answered without consulting the AI service: whatever the call
      would have produced, the answer is the same. */
  lemma RejectionIgnoresUpstream(file: Option<FormFile>, platform: Platform, a: SendOutcome, b: SendOutcome)
    requires !Admissible(file)
    ensures ProcessImage(file, platform, a) == ProcessImage(file, platform, b)
  {
  }

  /** The handler's answer does not depend on the platform's directory separators. */
  lemma ProcessImageIgnoresPlatform(file: Option<FormFile>, outcome: SendOutcome)
    ensures ProcessImage(file, Unix, outcome) == ProcessImage(file, Windows, outcome)
  {
  }

  // ---------------------------------------------------------------------------------
  // Worked cases

  /** Upper-case extensions are accepted: "PHOTO.JPG" ends with ".jpg" ignoring case. */
  lemma UpperCaseExtensionAccepted()
    ensures HasImageExtension("PHOTO.JPG")
  {
    assert ToLowerInvariant(".JPG") == ".jpg";
    assert EndsWithIgnoringCase("PHOTO.JPG", ".jpg");
  }

  /** A name without an extension and a PDF are both refused by type. */
  lemma NonImageNamesRejected()
    ensures !HasImageExtension("photo")
    ensures !HasImageExtension("doc.pdf")
  {
    forall e | e in AllowedExtensions ensures !EndsWithIgnoringCase("photo", e) {
      AllowedExtensionShape(e);
      if |e| <= 5 {
        assert ToLowerInvariant("photo"[5 - |e|..])[0] == LowerChar("photo"[5 - |e|]);
      }
    }
    forall e | e in AllowedExtensions ensures !EndsWithIgnoringCase("doc.pdf", e) {
      AllowedExtensionShape(e);
      var t := "doc.pdf"[7 - |e|..];
      assert ToLowerInvariant(t)[0] == LowerChar(t[0]);
      assert ToLowerInvariant(t)[1] == LowerChar(t[1]);
      assert ToLowerInvariant(t)[2] == LowerChar(t[2]);
    }
  }

  /** A PDF that is also too large gets the type message: type is checked before size. */
  lemma TypeCheckedBeforeSize(outcome: SendOutcome, platform: Platform)
    ensures ProcessImage(Some(FormFile("doc.pdf", "application/pdf", 11 * 1024 * 1024)), platform, outcome)
      == BadRequest(InvalidTypeMessage)
  {
    NonImageNamesRejected();
  }

  /** Exactly 10 MiB passes the size check; one byte more does not. */
  lemma SizeBoundary(platform: Platform)
    ensures ProcessImage(Some(FormFile("PHOTO.JPG", "image/jpeg", 10485760)), platform, Threw(HttpRequestException))
      == ObjectResult(503, UnavailableMessage)
    ensures ProcessImage(Some(FormFile("PHOTO.JPG", "image/jpeg", 10485761)), platform, Threw(HttpRequestException))
      == BadRequest(TooLargeMessage)
  {
    UpperCaseExtensionAccepted();
  }

  /** The payload {"cat", 0.97, [{"eye", 0.8}], 0.12} for "photo.png" of 2 MB comes back as
      the same four fields and the one mapped object. */
  lemma MappingFidelity(file: FormFile, platform: Platform)
    requires file.fileName == "photo.png" && file.length == 2 * 1024 * 1024
    ensures
      var payload := AIResponse("cat", 0.97, Some([Some(AIObject("eye", 0.8))]), 0.12);
      ProcessImage(Some(file), platform, Responded(200, Json(payload)))
        == Ok(ProcessingResult("cat", 0.97, Some([DetectedObject("eye", 0.8)]), 0.12))
  {
    var payload := AIResponse("cat", 0.97, Some([Some(AIObject("eye", 0.8))]), 0.12);
    var expected := ProcessingResult("cat", 0.97, Some([DetectedObject("eye", 0.8)]), 0.12);
    assert HasImageExtension(file.fileName) by {
      assert ToLowerInvariant(".png") == ".png";
      assert EndsWithIgnoringCase(file.fileName, ".png");
    }
    assert UpstreamUsable(Responded(200, Json(payload))) by {
      assert NoNullEntries(payload.objects.value);
    }
    var r := ProcessImage(Some(file), platform, Responded(200, Json(payload)));
    assert Mirrors(r.value, payload);
    assert Mirrors(expected, payload);
    MirrorsIsFunctional(r.value, expected, payload);
  }

  /** A 200 answer whose body does not parse is a 500. */
  lemma UnparsableBodyIsServerError(platform: Platform)
    ensures ProcessImage(Some(FormFile("PHOTO.JPG", "image/jpeg", 1024 * 1024)), platform, Responded(200, Unparsable))
      == ObjectResult(500, FailureMessage)
  {
    UpperCaseExtensionAccepted();
  }

  /** A 200 answer whose `objects` list holds a null is a 500 as well. */
  lemma NullEntryIsServerError(platform: Platform)
    ensures ProcessImage(Some(FormFile("PHOTO.JPG", "image/jpeg", 1024 * 1024)), platform,
                         Responded(200, Json(AIResponse("cat", 0.97, Some([None]), 0.12))))
      == ObjectResult(500, FailureMessage)
  {
    UpperCaseExtensionAccepted();
    var objects: seq<Option<AIObject>> := [None];
    assert objects[0].None?;
  }

  /** A 404 from the AI service is a 503, like a refused connection. */
  lemma ErrorStatusIsUnavailable(platform: Platform)
    ensures ProcessImage(Some(FormFile("PHOTO.JPG", "image/jpeg", 1024 * 1024)), platform, Responded(404, Unparsable))
      == ObjectResult(503, UnavailableMessage)
  {
    UpperCaseExtensionAccepted();
  }
}
