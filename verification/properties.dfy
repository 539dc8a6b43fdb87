/**
 * What `emotion_detector` promises its callers, stated over the model in
 * `EmotionDetection`: failures collapse to None, an empty reply gives the initial
 * record, and each of the two reply layouts fills the record by its own rule.
 */
module Properties {
  import opened Wrappers
  import opened Response
  import opened ArgMax
  import opened EmotionDetection

  // ---------------------------------------------------------------------------
  // Failures and empty replies
  // ---------------------------------------------------------------------------

  /**
   * The service rejects blank text with status 400, and nothing singles that status
   * out: like every 4xx and 5xx it ends in None, whatever the body says.
   */
  lemma BlankTextRejected(payload: Payload)
    ensures EmotionDetector(Responded(400, payload)) == None
  {
  }

  /** No prediction list, or an empty one: all five scores 0.0 and no label. */
  lemma EmptyReply(status: int, predictions: Option<seq<Prediction>>)
    requires !IsHttpError(status)
    requires predictions == None || predictions == Some([])
    ensures var r := EmotionDetector(Responded(status, Decoded(predictions)));
      && r.Some?
      && r.value.Scores() == [0.0, 0.0, 0.0, 0.0, 0.0]
      && r.value.dominant == None
  {
  }

  // ---------------------------------------------------------------------------
  // Aggregated layout
  // ---------------------------------------------------------------------------

  /** The record produced from a successful reply whose first prediction carries a score object. */
  ghost predicate AggregatedReply(status: int, preds: seq<Prediction>) {
    !IsHttpError(status) && |preds| > 0 && preds[0].emotions.Some?
  }

  /**
   * Each score is the first prediction's entry for that emotion, or 0.0 when the
   * entry is missing; the label is always one of the five names, held by a greatest
   * score, with every earlier name scoring strictly less.
   */
  lemma AggregatedBranch(status: int, preds: seq<Prediction>)
    requires AggregatedReply(status, preds)
    ensures var r := EmotionDetector(Responded(status, Decoded(Some(preds))));
      && r.Some?
      && (forall k :: 0 <= k < |Names| ==> r.value.Scores()[k] == Lookup(preds[0].emotions.value, Names[k]))
      && r.value.dominant.Some?
      && r.value.dominant.value in Names
      && (exists k :: IsFirstMax(r.value.Scores(), k) && r.value.dominant == Some(Names[k]))
  {
  }

  /** Only the first prediction is read: the ones after it never change the result. */
  lemma AggregatedReadsFirstOnly(status: int, preds: seq<Prediction>, preds': seq<Prediction>)
    requires AggregatedReply(status, preds)
    requires |preds'| > 0 && preds'[0] == preds[0]
    ensures EmotionDetector(Responded(status, Decoded(Some(preds))))
         == EmotionDetector(Responded(status, Decoded(Some(preds'))))
  {
  }

  /** Keys of the score object other than the five names are ignored. */
  lemma AggregatedIgnoresExtraKeys(m: map<string, real>, m': map<string, real>)
    requires forall key :: key in Names ==> (key in m <==> key in m') && (key in m ==> m[key] == m'[key])
    ensures Aggregated(m) == Aggregated(m')
  {
    assert forall k :: 0 <= k < |Names| ==> Lookup(m, Names[k]) == Lookup(m', Names[k]);
  }

  /** A name whose score beats all four others is the label. */
  lemma AggregatedStrictMax(m: map<string, real>, k: nat)
    requires k < |Names|
    requires forall j :: 0 <= j < |Names| && j != k ==> Lookup(m, Names[j]) < Lookup(m, Names[k])
    ensures Aggregated(m).dominant == Some(Names[k])
  {
    AggregatedTieGoesFirst(m, k);
  }

  /** A tie goes to the earliest of the tied names in the order anger, disgust, fear, joy, sadness. */
  lemma AggregatedTieGoesFirst(m: map<string, real>, k: nat)
    requires k < |Names|
    requires forall j :: 0 <= j < |Names| ==> Lookup(m, Names[j]) <= Lookup(m, Names[k])
    requires forall j :: 0 <= j < k ==> Lookup(m, Names[j]) < Lookup(m, Names[k])
    ensures Aggregated(m).dominant == Some(Names[k])
  {
    var e := Aggregated(m);
    var w :| IsFirstMax(e.Scores(), w) && e.dominant == Some(Names[w]);
    assert IsFirstMax(e.Scores(), k);
    FirstMaxUnique(e.Scores(), w, k);
  }

  /** There is no positivity filter: an empty score object still names a label, "anger". */
  lemma AggregatedAllZero()
    ensures Aggregated(map[]) == Emotions(0.0, 0.0, 0.0, 0.0, 0.0, Some("anger"))
  {
    AggregatedTieGoesFirst(map[], 0);
  }

  /** A reply in which joy clearly dominates is labelled joy. */
  lemma AggregatedJoy(status: int)
    requires !IsHttpError(status)
    ensures var m := map["anger" := 0.01, "disgust" := 0.02, "fear" := 0.03, "joy" := 0.9, "sadness" := 0.04];
      var r := EmotionDetector(Responded(status, Decoded(Some([Prediction(Some(m), None, None)]))));
      r.Some? && r.value.dominant == Some("joy") && r.value.joy == 0.9
  {
    var m := map["anger" := 0.01, "disgust" := 0.02, "fear" := 0.03, "joy" := 0.9, "sadness" := 0.04];
    AggregatedStrictMax(m, 3);
  }

  // ---------------------------------------------------------------------------
  // Per-prediction layout
  // ---------------------------------------------------------------------------

  /** `i` is the last prediction carrying `name`. */
  ghost predicate LastNamed(preds: seq<Prediction>, name: string, i: int) {
    && 0 <= i < |preds|
    && preds[i].emotion == Some(name)
    && (forall j :: i < j < |preds| ==> preds[j].emotion != Some(name))
  }

  /**
   * Each score is the confidence of the last prediction carrying that name, or 0.0
   * when none does; predictions with other names, or none, leave it alone.
   */
  lemma {:induction false} FoldScores(preds: seq<Prediction>, k: nat)
    requires k < |Names|
    ensures (forall i :: 0 <= i < |preds| ==> preds[i].emotion != Some(Names[k]))
            ==> Fold(preds).emotions.Scores()[k] == 0.0
    ensures forall i :: LastNamed(preds, Names[k], i) ==> Fold(preds).emotions.Scores()[k] == Confidence(preds[i])
  {
    if |preds| > 0 {
      var n := |preds| - 1;
      var q, p := preds[..n], preds[n];
      var name := Names[k];
      FoldScores(q, k);
      assert Fold(preds) == Step(Fold(q), p);
      if p.emotion != Some(name) {
        // the last step leaves this score alone, and the last prediction naming it lies in `q`
        assert Fold(preds).emotions.Scores()[k] == Fold(q).emotions.Scores()[k];
        forall i | LastNamed(preds, name, i)
          ensures LastNamed(q, name, i)
        {
          assert i < n;
          assert forall j :: i < j < n ==> q[j] == preds[j];
        }
        if forall i :: 0 <= i < |preds| ==> preds[i].emotion != Some(name) {
          assert forall i :: 0 <= i < n ==> q[i] == preds[i];
        }
      } else {
        // the last step sets this score, and the last prediction naming it is `p` itself
        assert Fold(preds).emotions.Scores()[k] == Confidence(p);
        forall i | LastNamed(preds, name, i)
          ensures i == n
        {
        }
      }
    }
  }

  /**
   * `i` is the prediction the loop leaves as the label: its confidence beats the
   * seed -1.0 and every earlier confidence, and no later confidence beats it.
   */
  ghost predicate Leads(preds: seq<Prediction>, i: int) {
    && 0 <= i < |preds|
    && Confidence(preds[i]) > -1.0
    && (forall j :: 0 <= j < i ==> Confidence(preds[j]) < Confidence(preds[i]))
    && (forall j :: i < j < |preds| ==> Confidence(preds[j]) <= Confidence(preds[i]))
  }

  lemma LeaderUnique(preds: seq<Prediction>, i: int, i': int)
    requires Leads(preds, i) && Leads(preds, i')
    ensures i == i'
  {
    assert Confidence(preds[i]) == Confidence(preds[i']);
  }

  /** The loop's `max_score` and label after visiting `preds`. */
  lemma {:induction false} FoldLeader(preds: seq<Prediction>)
    ensures var st := Fold(preds);
      || (&& st.maxScore == -1.0
          && st.emotions.dominant == None
          && forall j :: 0 <= j < |preds| ==> Confidence(preds[j]) <= -1.0)
      || (exists i :: Leads(preds, i) && st.maxScore == Confidence(preds[i])
                      && st.emotions.dominant == preds[i].emotion)
  {
    if |preds| > 0 {
      var n := |preds| - 1;
      var q, p := preds[..n], preds[n];
      FoldLeader(q);
      assert forall j :: 0 <= j < n ==> q[j] == preds[j];
      var st := Fold(q);
      if Confidence(p) > st.maxScore {
        assert Leads(preds, n);
      } else if st.maxScore != -1.0 || st.emotions.dominant != None
                || exists j :: 0 <= j < n && Confidence(q[j]) > -1.0 {
        var i :| Leads(q, i) && st.maxScore == Confidence(q[i]) && st.emotions.dominant == q[i].emotion;
        assert Leads(preds, i);
      }
    }
  }

  /**
   * The label of the per-prediction layout: None when every confidence is at most
   * -1.0; otherwise the name (possibly an unknown one, possibly None) of the first
   * prediction with the greatest confidence.
   */
  lemma FoldDominant(preds: seq<Prediction>)
    ensures (forall j :: 0 <= j < |preds| ==> Confidence(preds[j]) <= -1.0)
            ==> Fold(preds).emotions.dominant == None
    ensures (exists j :: 0 <= j < |preds| && Confidence(preds[j]) > -1.0)
            ==> exists i :: Leads(preds, i)
    ensures forall i :: Leads(preds, i) ==> Fold(preds).emotions.dominant == preds[i].emotion
  {
    FoldLeader(preds);
    forall i | Leads(preds, i)
      ensures Fold(preds).emotions.dominant == preds[i].emotion
    {
      if exists i' :: Leads(preds, i') && Fold(preds).emotions.dominant == preds[i'].emotion {
        var i' :| Leads(preds, i') && Fold(preds).emotions.dominant == preds[i'].emotion;
        LeaderUnique(preds, i, i');
      }
    }
  }

  /** A successful reply whose first prediction has no score object. */
  ghost predicate FallbackReply(status: int, preds: seq<Prediction>) {
    !IsHttpError(status) && |preds| > 0 && preds[0].emotions.None?
  }

  /** The per-prediction layout end to end: scores by the last prediction naming them, label by the leader. */
  lemma FallbackBranch(status: int, preds: seq<Prediction>)
    requires FallbackReply(status, preds)
    ensures var r := EmotionDetector(Responded(status, Decoded(Some(preds))));
      && r.Some?
      && (forall k, i :: 0 <= k < |Names| && LastNamed(preds, Names[k], i) ==> r.value.Scores()[k] == Confidence(preds[i]))
      && (forall k :: 0 <= k < |Names| && (forall i :: 0 <= i < |preds| ==> preds[i].emotion != Some(Names[k]))
            ==> r.value.Scores()[k] == 0.0)
      && ((forall j :: 0 <= j < |preds| ==> Confidence(preds[j]) <= -1.0) ==> r.value.dominant == None)
      && ((exists j :: 0 <= j < |preds| && Confidence(preds[j]) > -1.0) ==> exists i :: Leads(preds, i))
      && (forall i :: Leads(preds, i) ==> r.value.dominant == preds[i].emotion)
  {
    forall k | 0 <= k < |Names| {
      FoldScores(preds, k);
    }
    FoldDominant(preds);
  }

  /** The label can be a name outside the five, and then no score records it. */
  lemma FallbackUnknownLabel(status: int)
    requires !IsHttpError(status)
    ensures EmotionDetector(Responded(status, Decoded(Some([Prediction(None, Some("surprise"), Some(0.8))]))))
         == Some(Emotions(0.0, 0.0, 0.0, 0.0, 0.0, Some("surprise")))
  {
  }

  /** A leading prediction without an `emotion` key leaves the label None, even after a named one. */
  lemma FallbackUnnamedLeader(status: int)
    requires !IsHttpError(status)
    ensures EmotionDetector(Responded(status, Decoded(Some([Prediction(None, Some("joy"), Some(0.3)),
                                                            Prediction(None, None, Some(0.7))]))))
         == Some(Emotions(0.0, 0.0, 0.0, 0.3, 0.0, None))
  {
    var preds := [Prediction(None, Some("joy"), Some(0.3)), Prediction(None, None, Some(0.7))];
    assert preds[..1][..0] == [];
    assert Fold(preds[..1]) == FoldState(Emotions(0.0, 0.0, 0.0, 0.3, 0.0, Some("joy")), 0.3);
  }

  // ---------------------------------------------------------------------------
  // Shape of the result
  // ---------------------------------------------------------------------------

  /** Any record returned has exactly the five score keys and `dominant_emotion`, and reads back unchanged. */
  lemma ResultShape(o: Outcome)
    ensures var r := EmotionDetector(o);
      r.Some? ==> && ToDict(r.value).Keys == {"anger", "disgust", "fear", "joy", "sadness", "dominant_emotion"}
                  && FromDict(ToDict(r.value)) == r
  {
  }
}
