/** The AI service's `POST /process` route: two ordered request checks, then the mock
    analysis of the decoded image. The analysis is a fixed decision table over four
    measurements (width, height, mean brightness, brightness standard deviation), which
    the image libraries compute and which are therefore inputs here. */
module AiService {
  import opened Wrappers

  /** A label with its confidence: the classification, or one entry of `objects`. */
  datatype Scored = Scored(name: string, confidence: real)

  /** What the image libraries measure: pixel width and height, and the mean and standard
      deviation of the grey levels. */
  datatype ImageStats = ImageStats(width: nat, height: nat, brightness: real, contrast: real)

  /** The measurements, or the message of the exception raised while taking them. */
  datatype Measurement = Measured(stats: ImageStats) | MeasureFailed(reason: string)

  /** The dictionary `analyze_image` returns; `error` is present only on the error branch. */
  datatype Analysis = Analysis(classification: string, confidence: real, objects: seq<Scored>, error: Option<string>)

  /** An uploaded part: its file name and what opening its bytes as an image gives. */
  datatype FilePart = FilePart(filename: string, image: Decoded)

  /** `Image.open` either fails with a message or yields an image to measure. */
  datatype Decoded = Undecodable(reason: string) | Opened(measurement: Measurement)

  /** A JSON body: an error object, or the analysis with `processing_time` and `filename` added. */
  datatype ReplyBody =
    | ErrorBody(error: string)
    | ResultBody(analysis: Analysis, processingTime: real, filename: string)

  datatype Reply = Reply(status: int, body: ReplyBody)

  const LowLight: Scored := Scored("Low-light Image", 0.88)
  const Bright: Scored := Scored("Bright Image", 0.85)
  const HighContrast: Scored := Scored("High Contrast Image", 0.82)
  const Normal: Scored := Scored("Normal Image", 0.75)

  const Landscape: Scored := Scored("Landscape Orientation", 0.90)
  const Portrait: Scored := Scored("Portrait Orientation", 0.90)
  const WellLit: Scored := Scored("Well-lit Area", 0.85)
  const Dark: Scored := Scored("Dark Area", 0.80)

  const ProcessingTime: real := 0.5

  /** The classification rule: brightness decides first (below 50, above 200), contrast only
      in between. Each verdict holds on exactly one region of the plane. */
  function Classify(brightness: real, contrast: real): (r: Scored)
    ensures r == LowLight <==> brightness < 50.0
    ensures r == Bright <==> brightness > 200.0
    ensures r == HighContrast <==> 50.0 <= brightness <= 200.0 && contrast > 60.0
    ensures r == Normal <==> 50.0 <= brightness <= 200.0 && contrast <= 60.0
  {
    if brightness < 50.0 then LowLight
    else if brightness > 200.0 then Bright
    else if contrast > 60.0 then HighContrast
    else Normal
  }

  /** The orientation entry: landscape exactly when strictly wider than tall, so a square
      image is reported as portrait. */
  function Orientation(width: nat, height: nat): (r: Scored)
    ensures r.confidence == 0.90
    ensures r.name == "Landscape Orientation" <==> width > height
    ensures r.name == "Portrait Orientation" <==> width <= height
  {
    if width > height then Landscape else Portrait
  }

  /** The lighting entry, on its own threshold of 150. */
  function Lighting(brightness: real): (r: Scored)
    ensures r == WellLit <==> brightness > 150.0
    ensures r == Dark <==> brightness <= 150.0
  {
    if brightness > 150.0 then WellLit else Dark
  }

  /** `a` is what `analyze_image` returns for `m`: the error record when measuring failed;
      otherwise the verdict of Classify, no error, and exactly two objects, the orientation
      entry first and the lighting entry second. */
  predicate IsAnalysisOf(a: Analysis, m: Measurement)
  {
    match m
    case MeasureFailed(reason) =>
      a == Analysis("Analysis Error", 0.0, [], Some(reason))
    case Measured(s) =>
      && Scored(a.classification, a.confidence) == Classify(s.brightness, s.contrast)
      && a.objects == [Orientation(s.width, s.height), Lighting(s.brightness)]
      && a.error.None?
  }

  /** `analyze_image`: choose the verdict, then append the two mock detections in turn.
      (`round(confidence, 2)` leaves the two-decimal constants unchanged.) */
  method AnalyzeImage(m: Measurement) returns (a: Analysis)
    ensures IsAnalysisOf(a, m)
    ensures |a.objects| == if m.Measured? then 2 else 0
  {
    if m.MeasureFailed? {
      return Analysis("Analysis Error", 0.0, [], Some(m.reason));
    }
    var s := m.stats;
    var verdict := Classify(s.brightness, s.contrast);
    var objects: seq<Scored> := [];
    if s.width > s.height {
      objects := objects + [Landscape];
    } else {
      objects := objects + [Portrait];
    }
    if s.brightness > 150.0 {
      objects := objects + [WellLit];
    } else {
      objects := objects + [Dark];
    }
    a := Analysis(verdict.name, verdict.confidence, objects, None);
  }

  /** `process_image`: a missing `image` part, then an empty file name, are refused with 400
      before the bytes are looked at; an image that cannot be opened is a 500; otherwise
      the analysis is returned with 200, `processing_time` 0.5 and the upload's name. */
  method ProcessImage(image: Option<FilePart>) returns (reply: Reply)
    ensures image.None? ==> reply == Reply(400, ErrorBody("No image file provided"))
    ensures image.Some? && image.value.filename == "" ==> reply == Reply(400, ErrorBody("No file selected"))
    ensures image.Some? && image.value.filename != "" && image.value.image.Undecodable? ==>
      reply == Reply(500, ErrorBody("Processing failed: " + image.value.image.reason))
    ensures reply.status == 200 <==> image.Some? && image.value.filename != "" && image.value.image.Opened?
    ensures reply.status == 200 ==>
      && reply.body.ResultBody?
      && IsAnalysisOf(reply.body.analysis, image.value.image.measurement)
      && reply.body.processingTime == ProcessingTime
      && reply.body.filename == image.value.filename
  {
    if image.None? {
      return Reply(400, ErrorBody("No image file provided"));
    }
    var file := image.value;
    if file.filename == "" {
      return Reply(400, ErrorBody("No file selected"));
    }
    match file.image {
      case Undecodable(reason) =>
        reply := Reply(500, ErrorBody("Processing failed: " + reason));
      case Opened(m) =>
        var result := AnalyzeImage(m);
        reply := Reply(200, ResultBody(result, ProcessingTime, file.filename));
    }
  }

  /** A dark image is "Low-light Image" whatever its contrast, and a very bright one is
      "Bright Image": contrast only matters between 50 and 200. So a dark, high-contrast
      image is "Low-light Image". */
  lemma BrightnessTakesPrecedence(brightness: real, c1: real, c2: real)
    requires brightness < 50.0 || brightness > 200.0
    ensures Classify(brightness, c1) == Classify(brightness, c2)
    ensures Classify(20.0, 90.0) == LowLight
  {
  }

  /** The lighting threshold is separate from the classification thresholds: at brightness
      175 with low contrast the image is "Normal Image" yet lies in a "Well-lit Area". */
  lemma LightingIndependentOfClassification()
    ensures Classify(175.0, 10.0) == Normal && Lighting(175.0) == WellLit
  {
  }
}
