/**
 * The classifier's reply as the normaliser sees it once the HTTP call is abstracted
 * away: either the request never produced a response, or it produced a status code
 * and a body that may or may not decode into the expected JSON shape.
 */
module Response {
  import opened Wrappers

  /**
   * One element of the `emotionPredictions` list, reduced to the three keys the
   * normaliser reads. `None` stands for a key that is absent (for `emotion`, also a
   * JSON null, which `dict.get` returns as Python's None as well). A label is
   * always a string here; a non-string `emotion` value is not modelled.
   */
  datatype Prediction = Prediction(
    emotions: Option<map<string, real>>,  // per-emotion score object of the aggregated workflow
    emotion: Option<string>,              // a single label, in the per-prediction layout
    confidence: Option<real>)             // the confidence attached to that label

  /** What `response.json()` and the shape of its result amount to. */
  datatype Payload =
    | Undecodable                                     // the body is not JSON
    | Malformed                                       // JSON of a shape that makes the normaliser raise
    | Decoded(predictions: Option<seq<Prediction>>)   // None: `emotionPredictions` absent or falsy

  datatype Outcome =
    | TransportError                          // connection failure, timeout, any RequestException
    | Responded(status: int, payload: Payload)

  /** The statuses `raise_for_status` turns into an HTTPError: client errors 4xx and server errors 5xx. */
  predicate IsHttpError(status: int) {
    400 <= status < 600
  }
}
