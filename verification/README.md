# Emotion detector: the response normaliser

This project models `emotion_detector`, the one function with real logic in the
emotion-detection web service. The service sends text to a hosted emotion classifier.
This function turns the classifier's reply into one of two things:

- nothing (Python's `None`), when anything goes wrong;
- a fixed record of five scores (`anger`, `disgust`, `fear`, `joy`, `sadness`) plus a
  `dominant_emotion` label.

The HTTP exchange is abstracted into an `Outcome` (module `Response`). An outcome is
either a transport error, or a response with a status code and a payload. The payload
is one of three things:

- undecodable;
- malformed (decoded, but of a shape that makes the code raise);
- decoded into an optional list of predictions.

Each prediction keeps the three keys the code reads: the `emotions` score object, the
`emotion` label and its `confidence`.

The model is split into four modules:

- `ArgMax` models Python's `max(..., key=...)`. It scans left to right and replaces its
  candidate only by a strictly greater value, so the first maximum wins.
- `EmotionDetection` holds the result record and the normaliser itself. The normaliser
  has two layouts. In the aggregated layout, the first prediction carries a score
  object. In the per-prediction layout, the predictions are folded left to right with
  a `max_score` seeded at -1.0.
- `Properties` states what callers can rely on, as lemmas over `EmotionDetector` and
  its two layouts (`Aggregated` and `Fold`).
- `Wrappers` holds the `Option` type.

Scores are `real`, because the code only copies and compares them.

## Behaviour worth knowing

- **Status 400.** The service rejects blank text with status 400. The code has no
  special case for it: `raise_for_status` raises for every status from 400 to 599,
  and the handler returns `None` (lines 30 and 124-126; `Properties.BlankTextRejected`).
  The comment in `server.py` at line 37 speaks of "specific blank entry handling" in
  the detector, but there is none beyond this collapse to `None`.
- **No predictions is not None.** The function's docstring (lines 13-14) promises
  `None` when no emotions are detected. The code instead returns the initial record:
  five scores of 0.0 and a `None` label (`Properties.EmptyReply`).
- **No positivity filter.** The label comes from `max` over the five scores (line 93),
  whatever their sign. With all scores at 0.0 in the aggregated layout, the label is
  `anger` (`Properties.AggregatedAllZero`).
- **Labels outside the five.** In the per-prediction layout the label is whatever
  the leading prediction's `emotion` holds (lines 96 and 112). It can be a name
  outside the five (`Properties.FallbackUnknownLabel`). It can be `None` while
  scores are set (`Properties.FallbackUnnamedLeader`).

## Model

| member | source | states |
|---|---|---|
| `EmotionDetection.EmotionDetector` | EmotionDetection/emotion_detection.py:28-132 | The result is None exactly when the request failed, the status is 4xx/5xx, or the body is undecodable or malformed; otherwise it is the record built from the decoded predictions, never a partial one |
| `Properties.BlankTextRejected` | EmotionDetection/emotion_detection.py:29-30 | A 400 response (the service's rejection of blank text) yields None whatever its body; status 400 gets no special case |
| `Properties.EmptyReply` | EmotionDetection/emotion_detection.py:20-35 | An absent, null or empty prediction list (any `emotionPredictions` value failing the truth test at line 35) yields all five scores 0.0 and a None label |
| `ArgMax.FirstMax` | EmotionDetection/emotion_detection.py:93 | The index `max` picks holds a greatest value, and every earlier value is strictly smaller |
| `ArgMax.FirstMaxUnique` | EmotionDetection/emotion_detection.py:93 | At most one index is a first maximum |
| `ArgMax.FirstMaxCharacterised` | EmotionDetection/emotion_detection.py:93 | An index is the one `max` picks if and only if it is a first maximum |
| `EmotionDetection.Aggregated` | EmotionDetection/emotion_detection.py:74-93 | Each score is the score object's entry for that name, or 0.0 when it is missing; the label is always present and is the name at a first maximum of the five scores |
| `Properties.AggregatedBranch` | EmotionDetection/emotion_detection.py:74-93 | End to end: a reply whose first prediction has a score object gives scores read from it with default 0.0, and a label that is one of the five names, scoring at least every other and strictly more than every earlier name |
| `Properties.AggregatedReadsFirstOnly` | EmotionDetection/emotion_detection.py:74-75 | In the aggregated layout, predictions after the first never change the result |
| `Properties.AggregatedIgnoresExtraKeys` | EmotionDetection/emotion_detection.py:77-81 | Two score objects that agree on the five names give the same record; other keys are ignored |
| `Properties.AggregatedStrictMax` | EmotionDetection/emotion_detection.py:84-93 | A name whose score strictly beats the other four is the label |
| `Properties.AggregatedTieGoesFirst` | EmotionDetection/emotion_detection.py:84-93 | Among tied greatest scores, the label is the earliest name in the order anger, disgust, fear, joy, sadness |
| `Properties.AggregatedAllZero` | EmotionDetection/emotion_detection.py:84-93 | An empty score object gives all scores 0.0 and still the label anger: there is no positivity filter |
| `Properties.AggregatedJoy` | test_emotion_detection.py:5-11 | A reply in which joy clearly dominates is labelled joy and keeps joy's score |
| `EmotionDetection.Assign` | EmotionDetection/emotion_detection.py:99-108 | A prediction naming one of the five emotions overwrites that score alone; any other name, or none, changes no score and never the label |
| `EmotionDetection.Step` | EmotionDetection/emotion_detection.py:95-112 | One loop iteration: only the named score changes; `max_score` becomes the larger of itself and the confidence; the label moves to the prediction's name only when its confidence is strictly greater |
| `EmotionDetection.Fold` | EmotionDetection/emotion_detection.py:54-112 | `max_score` never falls below its seed -1.0 |
| `Properties.FoldScores` | EmotionDetection/emotion_detection.py:95-108 | Each score is the confidence of the last prediction carrying that name, or 0.0 when no prediction carries it |
| `Properties.LeaderUnique` | EmotionDetection/emotion_detection.py:110-112 | At most one prediction leads: beats -1.0 and all earlier confidences, and is not beaten by any later one |
| `Properties.FoldLeader` | EmotionDetection/emotion_detection.py:54-112 | After the loop, either every confidence is at most -1.0, `max_score` is -1.0 and the label is None; or some prediction leads, and `max_score` and the label are its confidence and name |
| `Properties.FoldDominant` | EmotionDetection/emotion_detection.py:54-112 | The per-prediction label is None when every confidence is at most -1.0; otherwise a leader exists and the label is its name, which may be an unknown label or None |
| `Properties.FallbackBranch` | EmotionDetection/emotion_detection.py:94-112 | End to end: a reply whose first prediction has no score object gives each score from the last prediction with that name (0.0 if none), and the label of the leading prediction; a leader exists whenever some confidence beats -1.0, and the label is None when none does |
| `Properties.FallbackUnknownLabel` | EmotionDetection/emotion_detection.py:96-112 | A single prediction labelled "surprise" leaves all five scores 0.0 and makes "surprise" the label |
| `Properties.FallbackUnnamedLeader` | EmotionDetection/emotion_detection.py:96-112 | A leading prediction without an `emotion` key leaves the label None, while an earlier named prediction still sets its score |
| `EmotionDetection.ToDict` | EmotionDetection/emotion_detection.py:115-122 | The returned dictionary has exactly the six keys anger, disgust, fear, joy, sadness and dominant_emotion, holding the five scores and the label |
| `Properties.ResultShape` | EmotionDetection/emotion_detection.py:115-122 | Any record returned has exactly those six keys and reads back from its dictionary unchanged |

## Left out

- The HTTP call is not modelled: `requests.post`, the URL, the model-id header and the
  request body. Neither are `raise_for_status` or `response.json()`. They are network
  I/O and a foreign library, and the model takes their outcome as the `Outcome` input.
  The status range 400-599 is the one `raise_for_status` rejects.
- The `print` calls in the exception handlers and the `__main__` demo are console
  output with no behaviour of their own.
- `server.py` is not part of this model. This covers the Flask routes, template
  rendering and the formatting of scores into a sentence. It also covers the gate that
  answers "Invalid text! Please try again!" when the result or its label is None.
- Floating point is modelled as `real`. NaN and infinities are not modelled, and
  neither is how they compare.
- Ill-typed JSON that makes the code raise is collapsed into `Payload.Malformed`,
  which yields None as in the code. Which exception is raised is not modelled. These
  inputs raise:
  - a body that is a number, null or a boolean;
  - a string body containing the text `emotionPredictions`, or an array body
    containing that string (the `in` test at line 35 succeeds, and indexing the body
    by that key then raises);
  - a truthy `emotionPredictions` value that is not a list, or a list whose first
    element is not an object;
  - in the per-prediction layout, any later element that is not an object (such as
    `[{"emotion": "joy"}, 3]`), on which `.get` raises at line 96;
  - a null or non-object score object;
  - null or string scores or confidences that get compared with a float.
- Ill-typed JSON that raises nothing is modelled by the case it falls into:
  - An array body that does not contain the string `emotionPredictions`, or a string
    body that does not contain that text, fails the `in` test at line 35. So does
    a falsy `emotionPredictions` value such as `0`, `false`, `""` or `{}`. All of
    these are `Decoded(None)`, and the code returns the initial record.
- Scores and confidences are modelled as reals only. Booleans compare as the
  integers 0 and 1 and pass through into the result unchanged. Five string scores
  compare with each other at line 93 and also come back as a record. The model
  covers neither case.
- The `emotion` label is modelled as a string or None only. The code passes a
  non-string `emotion` value through unchanged as `dominant_emotion` when its
  confidence leads (line 112). An example is the object layout that the comments at
  lines 40 and 45 describe, which has no `emotions` key and so takes the
  per-prediction loop. There the confidence defaults to 0.0, so the code returns
  five 0.0 scores with the score object itself as the label.
