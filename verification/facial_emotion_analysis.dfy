/**
 The pure parts of the `FacialEmotionAnalysis` component.

 The camera, the canvas, the upload and the one-second timer are browser
 I/O and stay outside the model; what remains is the handling of one
 completed inference request, the rescaling of the face box from the
 reference frame to the video's intrinsic size (`videoWidth` x
 `videoHeight`), the descending ordering of the
 detected emotions and the clamped width of each emotion's bar.
 */
module FacialEmotionAnalysis {
  import opened Readings
  import EmotionStore

  // ---------------------------------------------------------------------
  // Responses of the inference endpoint
  // ---------------------------------------------------------------------

  /** A face box `[x, y, w, h]` in pixels. */
  datatype Box = Box(x: real, y: real, w: real, h: real)

  /** One entry of `results`: the scores of one face and where it is. */
  datatype Detection = Detection(emotions: Reading, faceCoordinates: Box)

  /** The parsed JSON body; `results` may be missing altogether. */
  datatype Response = Response(results: Option<seq<Detection>>)

  /** How one request ended: the fetch or the JSON parse failed (the
      `.catch` branch), or a body was received. */
  datatype Completion = RequestFailed | Completed(data: Response)

  /** The state one completion can change: the shared store and the
      component's `emotionData`, the detection its overlay is drawn from. */
  datatype AnalysisState = AnalysisState(store: EmotionStore.EmotionState, emotionData: Option<Detection>)

  /** The detection a completion records, if any: `results[0]`, provided
      `results` is present and non-empty. */
  function Recorded(c: Completion): Option<Detection>
  {
    if c.Completed? && c.data.results.Some? && |c.data.results.value| > 0
    then Some(c.data.results.value[0])
    else None
  }

  /** The `.then((data) => ...)` step of one capture tick. */
  function HandleCompletion(st: AnalysisState, c: Completion): (st': AnalysisState)
    ensures c.Completed? && c.data.results.Some? && |c.data.results.value| > 0 ==>
              var first := c.data.results.value[0];
              && st'.emotionData == Some(first)
              && st'.store.facialEmotions == first.emotions
              && st'.store.facialEmotionHistory == st.store.facialEmotionHistory + [first.emotions]
              && st'.store.speechEmotions == st.store.speechEmotions
              && st'.store.speechEmotionHistory == st.store.speechEmotionHistory
    ensures c.RequestFailed? || c.data.results.None? || c.data.results == Some([]) ==> st' == st
    ensures EmotionStore.Consistent(st.store) ==> EmotionStore.Consistent(st'.store)
  {
    match Recorded(c)
    case None => st
    case Some(d) => AnalysisState(EmotionStore.SetFacialEmotions(st.store, d.emotions), Some(d))
  }

  /** The state after the completions `cs` have been handled, in order of
      arrival (not necessarily the order in which the frames were taken). */
  function HandleAll(st: AnalysisState, cs: seq<Completion>): AnalysisState
    decreases |cs|
  {
    if |cs| == 0 then st else HandleCompletion(HandleAll(st, cs[..|cs| - 1]), cs[|cs| - 1])
  }

  /** The store calls the completions `cs` amount to: one facial call per
      completion that carries a detection, none for the others. */
  function AsStoreCalls(cs: seq<Completion>): seq<EmotionStore.Call>
    decreases |cs|
  {
    if |cs| == 0 then []
    else
      var rest := AsStoreCalls(cs[..|cs| - 1]);
      match Recorded(cs[|cs| - 1])
      case None => rest
      case Some(d) => rest + [EmotionStore.Facial(d.emotions)]
  }

  /** Handling completions is exactly performing the corresponding facial
      calls on the store: failed or empty responses are dropped, and no
      speech reading is ever written. */
  lemma {:induction false} CompletionsAreFacialCalls(st: AnalysisState, cs: seq<Completion>)
    ensures HandleAll(st, cs).store == EmotionStore.Run(st.store, AsStoreCalls(cs))
    ensures forall i :: 0 <= i < |AsStoreCalls(cs)| ==> AsStoreCalls(cs)[i].Facial?
    ensures |AsStoreCalls(cs)| <= |cs|
    decreases |cs|
  {
    if |cs| > 0 {
      var init := cs[..|cs| - 1];
      CompletionsAreFacialCalls(st, init);
      var calls := AsStoreCalls(init);
      match Recorded(cs[|cs| - 1])
      case None =>
      case Some(d) =>
        var calls' := calls + [EmotionStore.Facial(d.emotions)];
        assert calls'[..|calls'| - 1] == calls;
    }
  }

  /** Whatever completions arrive, the speech stream is untouched and the
      facial history grows by at most one entry per completion. */
  lemma {:induction false} SpeechUntouchedByCapture(st: AnalysisState, cs: seq<Completion>)
    ensures HandleAll(st, cs).store.speechEmotionHistory == st.store.speechEmotionHistory
    ensures |HandleAll(st, cs).store.facialEmotionHistory| <= |st.store.facialEmotionHistory| + |cs|
  {
    CompletionsAreFacialCalls(st, cs);
    EmotionStore.RunAppendsPerStream(st.store, AsStoreCalls(cs));
    NoSpeechReadings(AsStoreCalls(cs));
    FacialReadingsShorter(AsStoreCalls(cs));
  }

  lemma {:induction false} NoSpeechReadings(calls: seq<EmotionStore.Call>)
    requires forall i :: 0 <= i < |calls| ==> calls[i].Facial?
    ensures EmotionStore.SpeechReadings(calls) == []
    decreases |calls|
  {
    if |calls| > 0 {
      NoSpeechReadings(calls[..|calls| - 1]);
    }
  }

  lemma {:induction false} FacialReadingsShorter(calls: seq<EmotionStore.Call>)
    ensures |EmotionStore.FacialReadings(calls)| <= |calls|
    decreases |calls|
  {
    if |calls| > 0 {
      FacialReadingsShorter(calls[..|calls| - 1]);
    }
  }

  // ---------------------------------------------------------------------
  // Face box rescaling
  // ---------------------------------------------------------------------

  /** The size of the frame sent for inference (the hidden canvas), in
      which the returned face box is expressed. */
  const ReferenceWidth: real := 640.0
  const ReferenceHeight: real := 480.0

  /** The video's intrinsic size (`videoWidth` x `videoHeight`), as reported once its metadata loads. */
  datatype VideoDimensions = VideoDimensions(width: nat, height: nat)

  /** The size assumed until the video reports its own. */
  const InitialVideoDimensions := VideoDimensions(640, 480)

  /** `adjustCoordinates`: map a box from the reference frame to the
      video's intrinsic size (`videoWidth` x `videoHeight`). */
  function AdjustCoordinates(b: Box, d: VideoDimensions): (r: Box)
    ensures r.x * ReferenceWidth == b.x * d.width as real
    ensures r.y * ReferenceHeight == b.y * d.height as real
    ensures r.w * ReferenceWidth == b.w * d.width as real
    ensures r.h * ReferenceHeight == b.h * d.height as real
    ensures b.x >= 0.0 && b.y >= 0.0 && b.w >= 0.0 && b.h >= 0.0 ==>
              r.x >= 0.0 && r.y >= 0.0 && r.w >= 0.0 && r.h >= 0.0
    ensures d == InitialVideoDimensions ==> r == b
  {
    var scaleX := d.width as real / ReferenceWidth;
    var scaleY := d.height as real / ReferenceHeight;
    Box(b.x * scaleX, b.y * scaleY, b.w * scaleX, b.h * scaleY)
  }

  function AddBoxes(a: Box, b: Box): Box
  {
    Box(a.x + b.x, a.y + b.y, a.w + b.w, a.h + b.h)
  }

  function ScaleBox(k: real, a: Box): Box
  {
    Box(k * a.x, k * a.y, k * a.w, k * a.h)
  }

  /** Rescaling is additive: the box of a sum is the sum of the boxes. */
  lemma AdjustCoordinatesAdditive(a: Box, b: Box, d: VideoDimensions)
    ensures AdjustCoordinates(AddBoxes(a, b), d) == AddBoxes(AdjustCoordinates(a, d), AdjustCoordinates(b, d))
  {
  }

  /** Rescaling is homogeneous: it commutes with scalar multiples. */
  lemma AdjustCoordinatesHomogeneous(a: Box, k: real, d: VideoDimensions)
    ensures AdjustCoordinates(ScaleBox(k, a), d) == ScaleBox(k, AdjustCoordinates(a, d))
  {
  }

  /** Worked example: at an intrinsic video size of 320x240,
      `[10, 10, 100, 100]` becomes `[5, 5, 50, 50]`. */
  lemma HalfSizeExample()
    ensures AdjustCoordinates(Box(10.0, 10.0, 100.0, 100.0), VideoDimensions(320, 240))
              == Box(5.0, 5.0, 50.0, 50.0)
  {
  }

  // ---------------------------------------------------------------------
  // Ordering of the detected emotions
  // ---------------------------------------------------------------------

  /** An `[emotion, value]` pair of `Object.entries`. */
  type Entry = (string, real)

  /** Values never increase along the sequence. */
  predicate Descending(es: seq<Entry>)
  {
    forall i, j :: 0 <= i < j < |es| ==> es[i].1 >= es[j].1
  }

  /** `es` lists exactly the entries of `r`, each once, in some order. */
  ghost predicate ListsReading(es: seq<Entry>, r: Reading)
  {
    multiset(es) == multiset(r.Items)
  }

  lemma ItemsWithout(m: Reading, k: string)
    requires k in m
    ensures multiset(m.Items) == multiset((m - {k}).Items) + multiset{(k, m[k])}
  {
    var rest := (m - {k}).Items;
    forall p | p in m.Items
      ensures p in rest + {(k, m[k])}
    {
      assert p.0 in m && m[p.0] == p.1;
    }
    forall p | p in rest + {(k, m[k])}
      ensures p in m.Items
    {
    }
    assert m.Items == rest + {(k, m[k])};
    assert (k, m[k]) !in rest;
  }

  /** `Object.entries(reading)`. The property order of a JavaScript object
      is not part of a map, so the entries come in an unspecified order. */
  method Entries(r: Reading) returns (es: seq<Entry>)
    ensures ListsReading(es, r)
  {
    es := [];
    var rest := r;
    while rest != map[]
      invariant forall k :: k in rest ==> k in r && rest[k] == r[k]
      invariant multiset(es) + multiset(rest.Items) == multiset(r.Items)
      decreases rest.Keys
    {
      var k :| k in rest;
      ItemsWithout(rest, k);
      es := es + [(k, rest[k])];
      rest := rest - {k};
    }
    assert rest.Items == {};
  }

  /** Every listed entry is a key of the reading with its own value, the
      keys are distinct and there is one entry per key. */
  lemma {:induction false} ListedEntriesAreItems(es: seq<Entry>, r: Reading)
    requires ListsReading(es, r)
    ensures |es| == |r|
    ensures forall i :: 0 <= i < |es| ==> es[i].0 in r && r[es[i].0] == es[i].1
    ensures forall i, j :: 0 <= i < j < |es| ==> es[i].0 != es[j].0
  {
    assert |es| == |multiset(es)| == |multiset(r.Items)| == |r.Items|;
    forall i | 0 <= i < |es|
      ensures es[i].0 in r && r[es[i].0] == es[i].1
    {
      assert es[i] in multiset(es);
      assert es[i] in r.Items;
    }
    forall i, j | 0 <= i < j < |es|
      ensures es[i].0 != es[j].0
    {
      if es[i].0 == es[j].0 {
        RepeatedEntry(es, i, j);
        assert false;
      }
    }
  }

  /** An entry found at two positions occurs at least twice. */
  lemma RepeatedEntry(es: seq<Entry>, i: nat, j: nat)
    requires i < j < |es| && es[i] == es[j]
    ensures multiset(es)[es[i]] >= 2
  {
    assert es == es[..j] + [es[j]] + es[j + 1..];
    assert es[i] in es[..j];
  }

  /** Prepending an entry no smaller than the current head keeps a
      sequence descending. */
  lemma ConsDescending(x: Entry, es: seq<Entry>)
    requires Descending(es)
    requires |es| > 0 ==> x.1 >= es[0].1
    ensures Descending([x] + es)
  {
  }

  /** Insert `e` into a descending sequence after every entry whose value is
      at least `e`'s. */
  function InsertDescending(e: Entry, es: seq<Entry>): (res: seq<Entry>)
    requires Descending(es)
    ensures Descending(res)
    ensures multiset(res) == multiset(es) + multiset{e}
    ensures |res| == |es| + 1 && (res[0] == e || (|es| > 0 && res[0] == es[0]))
    decreases |es|
  {
    if |es| == 0 then [e]
    else if es[0].1 >= e.1 then
      var rest := InsertDescending(e, es[1..]);
      assert es == [es[0]] + es[1..];
      ConsDescending(es[0], rest);
      [es[0]] + rest
    else
      ConsDescending(e, es);
      [e] + es
  }

  /** The entries of `es` by non-increasing value (insertion sort). */
  function SortDescending(es: seq<Entry>): (res: seq<Entry>)
    ensures Descending(res)
    ensures multiset(res) == multiset(es)
    decreases |es|
  {
    if |es| == 0 then []
    else
      var n := |es| - 1;
      assert es == es[..n] + [es[n]];
      InsertDescending(es[n], SortDescending(es[..n]))
  }

  /** `sortedEmotions`: the entries of the current detection's emotions,
      highest value first, or nothing when there is no detection yet. */
  method SortedEmotions(emotionData: Option<Detection>) returns (sorted: seq<Entry>)
    ensures emotionData.None? ==> sorted == []
    ensures emotionData.Some? ==> ListsReading(sorted, emotionData.value.emotions)
    ensures Descending(sorted)
  {
    match emotionData
    case None =>
      sorted := [];
    case Some(d) =>
      var es := Entries(d.emotions);
      sorted := SortDescending(es);
  }

  // ---------------------------------------------------------------------
  // Bar width
  // ---------------------------------------------------------------------

  function Min(a: real, b: real): real { if a <= b then a else b }

  function Max(a: real, b: real): real { if a >= b then a else b }

  /** The width, in percent, of the bar drawn for a score:
      `Math.max(0, Math.min(100, (value + 5) * 10))`. */
  function BarWidth(value: real): (w: real)
    ensures 0.0 <= w <= 100.0
    ensures w == (value + 5.0) * 10.0 <==> -5.0 <= value <= 5.0
    ensures value <= -5.0 ==> w == 0.0
    ensures value >= 5.0 ==> w == 100.0
  {
    Max(0.0, Min(100.0, (value + 5.0) * 10.0))
  }

  /** A higher score never gets a narrower bar. */
  lemma BarWidthMonotone(a: real, b: real)
    requires a <= b
    ensures BarWidth(a) <= BarWidth(b)
  {
  }
}
