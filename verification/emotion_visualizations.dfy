/**
 The chart projections of the `EmotionVisualizations` component.

 The comparison bars, the speech radar and the per-emotion time series are
 pure functions of the store's current readings and of the component's own
 local history. Colours, chart options and layout are presentation only and
 are not modelled. The charts keep their category labels and numeric data;
 only the time-series datasets keep their own dataset label.
 */
module EmotionVisualizations {
  import opened Readings

  /** The fixed, ordered emotion vocabulary every chart is laid out by. */
  const Emotions: seq<string> := ["anger", "disgust", "fear", "happy", "neutral", "sad", "surprise"]

  /** `vocab.map((emotion) => reading[emotion] || 0)`: one score per
      vocabulary entry, in vocabulary order. */
  function Project(vocab: seq<string>, r: Reading): (xs: seq<real>)
    ensures |xs| == |vocab|
    ensures forall i :: 0 <= i < |vocab| ==>
              xs[i] == (if vocab[i] in r then r[vocab[i]] else 0.0)
    decreases |vocab|
  {
    if |vocab| == 0 then []
    else [Score(r, vocab[0])] + Project(vocab[1..], r)
  }

  /** Keys outside the vocabulary are ignored by every projection. */
  lemma UnknownKeysIgnored(vocab: seq<string>, r: Reading, k: string, v: real)
    requires k !in vocab
    ensures Project(vocab, r[k := v]) == Project(vocab, r)
  {
  }

  // ---------------------------------------------------------------------
  // Comparison bars and speech radar
  // ---------------------------------------------------------------------

  datatype BarChart = BarChart(labels: seq<string>, facial: seq<real>, speech: seq<real>)

  datatype RadarChart = RadarChart(labels: seq<string>, speech: seq<real>)

  /** `barData`: facial and speech scores side by side, in vocabulary
      order, a missing key read as 0 and a present score passed through. */
  function BarData(facialEmotions: Reading, speechEmotions: Reading): (c: BarChart)
    ensures c.labels == Emotions
    ensures |c.facial| == |Emotions| && |c.speech| == |Emotions|
    ensures forall i :: 0 <= i < |Emotions| ==>
              c.facial[i] == (if Emotions[i] in facialEmotions then facialEmotions[Emotions[i]] else 0.0)
    ensures forall i :: 0 <= i < |Emotions| ==>
              c.speech[i] == (if Emotions[i] in speechEmotions then speechEmotions[Emotions[i]] else 0.0)
  {
    BarChart(Emotions, Project(Emotions, facialEmotions), Project(Emotions, speechEmotions))
  }

  /** `radarData`: the speech reading alone, in vocabulary order. */
  function RadarData(speechEmotions: Reading): (c: RadarChart)
    ensures c.labels == Emotions && |c.speech| == |Emotions|
    ensures forall i :: 0 <= i < |Emotions| ==>
              c.speech[i] == (if Emotions[i] in speechEmotions then speechEmotions[Emotions[i]] else 0.0)
  {
    RadarChart(Emotions, Project(Emotions, speechEmotions))
  }

  /** The radar series is the speech comparison series, whatever the
      facial reading. */
  lemma RadarMatchesSpeechBars(facialEmotions: Reading, speechEmotions: Reading)
    ensures RadarData(speechEmotions).labels == BarData(facialEmotions, speechEmotions).labels
    ensures RadarData(speechEmotions).speech == BarData(facialEmotions, speechEmotions).speech
  {
  }

  /** Before any reading arrives both current readings are `{}`: every
      comparison and radar value is 0, and nothing fails. */
  lemma EmptyReadingsProjectToZero()
    ensures BarData(map[], map[]).facial == [0.0, 0.0, 0.0, 0.0, 0.0, 0.0, 0.0]
    ensures BarData(map[], map[]).speech == [0.0, 0.0, 0.0, 0.0, 0.0, 0.0, 0.0]
    ensures RadarData(map[]).speech == [0.0, 0.0, 0.0, 0.0, 0.0, 0.0, 0.0]
  {
  }

  // ---------------------------------------------------------------------
  // The component-local history and the time series over it
  // ---------------------------------------------------------------------

  /** `emotionHistory`: the component's own record of the store's current
      readings, one entry per run of its effect. */
  datatype LocalHistory = LocalHistory(facial: seq<Reading>, speech: seq<Reading>)

  /** The local history the component mounts with. */
  const NoLocalHistory := LocalHistory([], [])

  /** One run of the effect: append the current facial reading to `facial`
      and the current speech reading to `speech`. */
  function RecordRender(h: LocalHistory, facialEmotions: Reading, speechEmotions: Reading): (h': LocalHistory)
    ensures |h'.facial| == |h.facial| + 1 && |h'.speech| == |h.speech| + 1
    ensures h'.facial[..|h.facial|] == h.facial && h'.facial[|h.facial|] == facialEmotions
    ensures h'.speech[..|h.speech|] == h.speech && h'.speech[|h.speech|] == speechEmotions
    ensures |h.facial| == |h.speech| <==> |h'.facial| == |h'.speech|
  {
    LocalHistory(h.facial + [facialEmotions], h.speech + [speechEmotions])
  }

  /** The local history after the effect has run once per snapshot
      `(facialEmotions, speechEmotions)`, in order. */
  function RunEffects(h: LocalHistory, snapshots: seq<(Reading, Reading)>): LocalHistory
    decreases |snapshots|
  {
    if |snapshots| == 0 then h
    else
      var last := snapshots[|snapshots| - 1];
      RecordRender(RunEffects(h, snapshots[..|snapshots| - 1]), last.0, last.1)
  }

  lemma {:induction false} FacialEntriesAreSnapshots(snapshots: seq<(Reading, Reading)>)
    ensures |RunEffects(NoLocalHistory, snapshots).facial| == |snapshots|
    ensures forall i :: 0 <= i < |snapshots| ==>
              RunEffects(NoLocalHistory, snapshots).facial[i] == snapshots[i].0
    decreases |snapshots|
  {
    if |snapshots| > 0 {
      var n := |snapshots| - 1;
      var init := snapshots[..n];
      FacialEntriesAreSnapshots(init);
      var prev := RunEffects(NoLocalHistory, init).facial;
      var now := RunEffects(NoLocalHistory, snapshots).facial;
      assert now == prev + [snapshots[n].0];
      forall i | 0 <= i < n
        ensures now[i] == snapshots[i].0
      {
        assert snapshots[i] == init[i];
      }
    }
  }

  lemma {:induction false} SpeechEntriesAreSnapshots(snapshots: seq<(Reading, Reading)>)
    ensures |RunEffects(NoLocalHistory, snapshots).speech| == |snapshots|
    ensures forall i :: 0 <= i < |snapshots| ==>
              RunEffects(NoLocalHistory, snapshots).speech[i] == snapshots[i].1
    decreases |snapshots|
  {
    if |snapshots| > 0 {
      var n := |snapshots| - 1;
      var init := snapshots[..n];
      SpeechEntriesAreSnapshots(init);
      var prev := RunEffects(NoLocalHistory, init).speech;
      var now := RunEffects(NoLocalHistory, snapshots).speech;
      assert now == prev + [snapshots[n].1];
      forall i | 0 <= i < n
        ensures now[i] == snapshots[i].1
      {
        assert snapshots[i] == init[i];
      }
    }
  }

  /** From mount, the two local histories always have equal length, one
      entry per effect run, holding the snapshots in order. */
  lemma {:induction false} LocalHistoriesStayAligned(snapshots: seq<(Reading, Reading)>)
    ensures |RunEffects(NoLocalHistory, snapshots).facial| == |snapshots|
    ensures |RunEffects(NoLocalHistory, snapshots).speech| == |snapshots|
    ensures forall i :: 0 <= i < |snapshots| ==>
              RunEffects(NoLocalHistory, snapshots).facial[i] == snapshots[i].0
              && RunEffects(NoLocalHistory, snapshots).speech[i] == snapshots[i].1
  {
    FacialEntriesAreSnapshots(snapshots);
    SpeechEntriesAreSnapshots(snapshots);
  }

  /** One time series; `name` is the chart.js dataset `label`. */
  datatype Dataset = Dataset(name: string, data: seq<real>)

  datatype LineChart = LineChart(labels: seq<int>, datasets: seq<Dataset>)

  /** `Array.from({ length: n }, (_, i) => i + 1)`. */
  function Positions(n: nat): (ps: seq<int>)
    ensures |ps| == n
    ensures forall i :: 0 <= i < n ==> ps[i] == i + 1
  {
    if n == 0 then [] else Positions(n - 1) + [n]
  }

  /** `history.map((entry) => entry[emotion] || 0)`: one emotion's score
      at every position of a history, unclamped. */
  function Column(history: seq<Reading>, emotion: string): (xs: seq<real>)
    ensures |xs| == |history|
    ensures forall i :: 0 <= i < |history| ==>
              xs[i] == (if emotion in history[i] then history[i][emotion] else 0.0)
    decreases |history|
  {
    if |history| == 0 then []
    else Column(history[..|history| - 1], emotion) + [Score(history[|history| - 1], emotion)]
  }

  /** One dataset per vocabulary entry, labelled `<prefix><emotion>`. */
  function Datasets(vocab: seq<string>, history: seq<Reading>, prefix: string): (ds: seq<Dataset>)
    ensures |ds| == |vocab|
    ensures forall j :: 0 <= j < |vocab| ==>
              ds[j].name == prefix + vocab[j] && ds[j].data == Column(history, vocab[j])
    decreases |vocab|
  {
    if |vocab| == 0 then []
    else [Dataset(prefix + vocab[0], Column(history, vocab[0]))] + Datasets(vocab[1..], history, prefix)
  }

  /** The time series chart of one history: positions `1..n` and one
      series of length n per emotion. */
  function LineData(history: seq<Reading>, prefix: string): (c: LineChart)
    ensures |c.labels| == |history|
    ensures forall i :: 0 <= i < |history| ==> c.labels[i] == i + 1
    ensures |c.datasets| == |Emotions|
    ensures forall j :: 0 <= j < |Emotions| ==>
              c.datasets[j].name == prefix + Emotions[j] && |c.datasets[j].data| == |history|
    ensures forall j, i :: 0 <= j < |Emotions| && 0 <= i < |history| ==>
              c.datasets[j].data[i]
                == (if Emotions[j] in history[i] then history[i][Emotions[j]] else 0.0)
  {
    LineChart(Positions(|history|), Datasets(Emotions, history, prefix))
  }

  /** `lineData`: the facial time series over the local history. */
  function FacialLineData(h: LocalHistory): LineChart
  {
    LineData(h.facial, "Facial ")
  }

  /** `speechLineData`: the speech time series over the local history. */
  function SpeechLineData(h: LocalHistory): LineChart
  {
    LineData(h.speech, "Speech ")
  }

  /** A present score is never altered by any projection: the comparison
      bars, the radar and both time series pass it through unclamped. */
  lemma PresentScoresPassThrough(h: LocalHistory, facialEmotions: Reading, speechEmotions: Reading, j: nat, i: nat)
    requires j < |Emotions|
    ensures Emotions[j] in facialEmotions ==>
              BarData(facialEmotions, speechEmotions).facial[j] == facialEmotions[Emotions[j]]
    ensures Emotions[j] in speechEmotions ==>
              BarData(facialEmotions, speechEmotions).speech[j] == speechEmotions[Emotions[j]]
              && RadarData(speechEmotions).speech[j] == speechEmotions[Emotions[j]]
    ensures i < |h.facial| && Emotions[j] in h.facial[i] ==>
              FacialLineData(h).datasets[j].data[i] == h.facial[i][Emotions[j]]
    ensures i < |h.speech| && Emotions[j] in h.speech[i] ==>
              SpeechLineData(h).datasets[j].data[i] == h.speech[i][Emotions[j]]
  {
  }

  /** Mounted and run through any number of effects, the facial and speech
      time series share one index domain `1..n`. */
  lemma {:induction false} TimeSeriesShareDomain(snapshots: seq<(Reading, Reading)>)
    ensures FacialLineData(RunEffects(NoLocalHistory, snapshots)).labels
              == SpeechLineData(RunEffects(NoLocalHistory, snapshots)).labels
    ensures |FacialLineData(RunEffects(NoLocalHistory, snapshots)).labels| == |snapshots|
  {
    LocalHistoriesStayAligned(snapshots);
  }

  /** One effect run extends every facial series by the new reading's score
      and the labels by the next position; earlier points are unchanged. */
  lemma RecordRenderExtendsSeries(h: LocalHistory, f: Reading, s: Reading, j: nat)
    requires j < |Emotions|
    ensures FacialLineData(RecordRender(h, f, s)).labels
              == FacialLineData(h).labels + [|h.facial| + 1]
    ensures FacialLineData(RecordRender(h, f, s)).datasets[j].data
              == FacialLineData(h).datasets[j].data + [Score(f, Emotions[j])]
  {
  }

  /** Worked example: a facial history `[{happy: 0.8}, {happy: 0.2}]` gives
      the happy series `[(1, 0.8), (2, 0.2)]` and zero for the others. */
  lemma HappySeriesExample()
    ensures Emotions[3] == "happy"
    ensures LineData([map["happy" := 0.8], map["happy" := 0.2]], "Facial ").labels == [1, 2]
    ensures LineData([map["happy" := 0.8], map["happy" := 0.2]], "Facial ").datasets[3]
              == Dataset("Facial happy", [0.8, 0.2])
    ensures LineData([map["happy" := 0.8], map["happy" := 0.2]], "Facial ").datasets[0].data
              == [0.0, 0.0]
  {
    var c := LineData([map["happy" := 0.8], map["happy" := 0.2]], "Facial ");
    assert c.datasets[3].data == [0.8, 0.2];
    assert c.datasets[0].data == [0.0, 0.0];
  }
}
