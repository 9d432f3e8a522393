/** The two record shapes the backend works with: the AI service's answer as deserialized
    (AIResponse, AIObject) and the backend's own public result (ProcessingResult,
    DetectedObject). They are structurally alike but kept apart; the controller maps one
    onto the other. Doubles are modelled as reals: they are only ever copied. */
module Models {
  import opened Wrappers

  /** One entry of the AI service's `objects` array; `name` holds the JSON `label`
      (`label` is a Dafny keyword). */
  datatype AIObject = AIObject(name: string, confidence: real)

  /** The deserialized AI service body. `objects` is None when the JSON field is absent or
      null; an entry is None when the array holds a JSON null. */
  datatype AIResponse = AIResponse(
    classification: string,
    confidence: real,
    objects: Option<seq<Option<AIObject>>>,
    processingTime: real)

  /** One entry of the backend's result list; `name` is the `Label` property. */
  datatype DetectedObject = DetectedObject(name: string, confidence: real)

  /** The backend's response body on success; `objects` may be absent (None) or empty. */
  datatype ProcessingResult = ProcessingResult(
    classification: string,
    confidence: real,
    objects: Option<seq<DetectedObject>>,
    processingTime: real)
}
