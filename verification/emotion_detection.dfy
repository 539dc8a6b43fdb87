/**
 * The response normaliser of `emotion_detector`: it turns the classifier's reply into
 * either no result at all or a fixed record of five emotion scores and a dominant label.
 */
module EmotionDetection {
  import opened Wrappers
  import opened Response
  import opened ArgMax

  /** The five tracked emotions, in the order the result dictionary lists them (and `max` scans them). */
  const Names: seq<string> := ["anger", "disgust", "fear", "joy", "sadness"]

  /** The key under which the result carries its label. */
  const DominantKey: string := "dominant_emotion"

  /** The result record: five scores and the dominant emotion, which may be Python's None. */
  datatype Emotions = Emotions(
    anger: real, disgust: real, fear: real, joy: real, sadness: real,
    dominant: Option<string>)
  {
    /** The five scores in `Names` order. */
    function Scores(): seq<real> {
      [anger, disgust, fear, joy, sadness]
    }
  }

  /** The values the scores and the label start from, returned unchanged when there are no predictions. */
  const Zero: Emotions := Emotions(0.0, 0.0, 0.0, 0.0, 0.0, None)

  /** Python's `emotions_data.get(key, 0.0)`. */
  function Lookup(m: map<string, real>, key: string): real {
    if key in m then m[key] else 0.0
  }

  // ---------------------------------------------------------------------------
  // Aggregated layout: the first prediction carries an `emotions` score object.
  // ---------------------------------------------------------------------------

  /**
   * The five scores read from the score object, missing keys counting 0.0, and the
   * label that `max(emotion_scores, key=emotion_scores.get)` picks among them.
   */
  function Aggregated(m: map<string, real>): (e: Emotions)
    ensures forall k :: 0 <= k < |Names| ==> e.Scores()[k] == Lookup(m, Names[k])
    ensures e.dominant.Some?
    ensures exists k :: IsFirstMax(e.Scores(), k) && e.dominant == Some(Names[k])
  {
    var scores := Emotions(Lookup(m, "anger"), Lookup(m, "disgust"), Lookup(m, "fear"),
                           Lookup(m, "joy"), Lookup(m, "sadness"), None);
    var k := FirstMax(scores.Scores());
    scores.(dominant := Some(Names[k]))
  }

  // ---------------------------------------------------------------------------
  // Per-prediction layout: each prediction names one emotion with a confidence.
  // ---------------------------------------------------------------------------

  /** Python's `prediction.get('confidence', 0.0)`. */
  function Confidence(p: Prediction): real {
    p.confidence.GetOr(0.0)
  }

  /** The `if emotion_name == 'anger' ... elif ... 'sadness'` chain: a known name overwrites its own score. */
  function Assign(e: Emotions, name: Option<string>, c: real): (e': Emotions)
    ensures forall k :: 0 <= k < |Names| ==>
      e'.Scores()[k] == (if name == Some(Names[k]) then c else e.Scores()[k])
    ensures e'.dominant == e.dominant
  {
    if name == Some("anger") then e.(anger := c)
    else if name == Some("disgust") then e.(disgust := c)
    else if name == Some("fear") then e.(fear := c)
    else if name == Some("joy") then e.(joy := c)
    else if name == Some("sadness") then e.(sadness := c)
    else e
  }

  /** The loop's variables: the record built so far and `max_score`. */
  datatype FoldState = FoldState(emotions: Emotions, maxScore: real)

  /** Before the first iteration: all scores 0.0, no label, `max_score` seeded at -1.0. */
  const Start: FoldState := FoldState(Zero, -1.0)

  /**
   * One iteration of the loop over the predictions: the named score (if the name is
   * one of the five) takes the confidence, and the label follows `max_score` when the
   * confidence beats it.
   */
  function Step(st: FoldState, p: Prediction): (st': FoldState)
    ensures forall k :: 0 <= k < |Names| ==>
      st'.emotions.Scores()[k] == (if p.emotion == Some(Names[k]) then Confidence(p) else st.emotions.Scores()[k])
    ensures st'.maxScore >= st.maxScore && st'.maxScore >= Confidence(p)
    ensures st'.maxScore == st.maxScore || st'.maxScore == Confidence(p)
    ensures st'.emotions.dominant == (if Confidence(p) > st.maxScore then p.emotion else st.emotions.dominant)
  {
    var c := Confidence(p);
    var e := Assign(st.emotions, p.emotion, c);
    if c > st.maxScore then FoldState(e.(dominant := p.emotion), c)
    else FoldState(e, st.maxScore)
  }

  /** The loop's state once it has visited `preds` in order: a left fold of `Step` from `Start`. */
  function Fold(preds: seq<Prediction>): (st: FoldState)
    ensures st.maxScore >= -1.0
  {
    if |preds| == 0 then Start
    else Step(Fold(preds[..|preds| - 1]), preds[|preds| - 1])
  }

  // ---------------------------------------------------------------------------
  // The whole normaliser.
  // ---------------------------------------------------------------------------

  /**
   * The record built from a decoded body: the initial values when there are no
   * predictions, otherwise the aggregated layout if the first prediction has an
   * `emotions` key and the per-prediction fold if it does not.
   */
  function Normalise(predictions: Option<seq<Prediction>>): Emotions {
    match predictions
    case None => Zero
    case Some(preds) =>
      if |preds| == 0 then Zero
      else if preds[0].emotions.Some? then Aggregated(preds[0].emotions.value)
      else Fold(preds).emotions
  }

  /** The outcomes that end in one of the `except` clauses. */
  predicate Fails(o: Outcome) {
    match o
    case TransportError => true
    case Responded(status, payload) => IsHttpError(status) || !payload.Decoded?
  }

  /**
   * `emotion_detector` with the HTTP exchange replaced by its outcome: every failure
   * becomes None, and every decoded body with a success status becomes a record.
   */
  function EmotionDetector(o: Outcome): (r: Option<Emotions>)
    ensures r.None? <==> Fails(o)
    ensures r.Some? ==> r.value == Normalise(o.payload.predictions)
  {
    match o
    case TransportError => None
    case Responded(status, payload) =>
      if IsHttpError(status) then None
      else
        match payload
        case Undecodable => None
        case Malformed => None
        case Decoded(predictions) => Some(Normalise(predictions))
  }

  // ---------------------------------------------------------------------------
  // The returned dictionary.
  // ---------------------------------------------------------------------------

  /** A value of the result dictionary: a score, or the label (which may be None). */
  datatype Field = Score(score: real) | Label(text: Option<string>)

  /** The dictionary literal the function returns. */
  function ToDict(e: Emotions): (d: map<string, Field>)
    ensures d.Keys == {"anger", "disgust", "fear", "joy", "sadness", DominantKey}
    ensures |d| == 6
    ensures forall k :: 0 <= k < |Names| ==> d[Names[k]] == Score(e.Scores()[k])
    ensures d[DominantKey] == Label(e.dominant)
  {
    map["anger" := Score(e.anger), "disgust" := Score(e.disgust), "fear" := Score(e.fear),
        "joy" := Score(e.joy), "sadness" := Score(e.sadness), DominantKey := Label(e.dominant)]
  }

  /** Reads a record back from a dictionary of that shape, as a caller indexing it by key does. */
  function FromDict(d: map<string, Field>): Option<Emotions> {
    if forall k :: k in Names ==> k in d && d[k].Score?
    then
      if DominantKey in d && d[DominantKey].Label?
      then Some(Emotions(d["anger"].score, d["disgust"].score, d["fear"].score,
                         d["joy"].score, d["sadness"].score, d[DominantKey].text))
      else None
    else None
  }
}
