# Emotion history store and chart projections

A Dafny model of the frontend core of an emotion-analysis app. Two producers feed a
session-wide store. The first is a webcam loop that posts a frame every second to a face
and emotion detector. The second is a voice conversation that emits speech-emotion
readings. Charts then compare the two streams.

The model covers three parts:

- `emotion_store.dfy` (module `EmotionStore`) models the zustand store of
  `Frontend/components/stores/emotionStore.ts`. It is a record with a current reading and an
  append-only history for each of the two streams, facial and speech. Its two setters are
  pure transitions. Any interleaving of calls is a sequence of `Call`s folded by `Run`.
- `emotion_visualizations.dfy` (module `EmotionVisualizations`) models the projections of
  `Frontend/components/EmotionVisualizations.tsx`:
  - the fixed seven-emotion vocabulary;
  - the facial/speech comparison bars;
  - the speech radar;
  - the component's own local history, which the effect extends on every run;
  - the per-emotion time series over that local history.
- `facial_emotion_analysis.dfy` (module `FacialEmotionAnalysis`) models the pure parts of
  `Frontend/components/FacialEmotionAnalysis.tsx`:
  - handling one completed inference request, as an update of the store and of the
    component's `emotionData`;
  - rescaling the face box from the 640x480 capture frame to the video's intrinsic size
    (`videoWidth` x `videoHeight`);
  - the descending `sortedEmotions` list;
  - the clamped width of each emotion bar.
- `readings.dfy` (module `Readings`) holds the shared reading type, `Option`, and the
  `reading[emotion] || 0` lookup.

A reading is a `map<string, real>`. Scores are exact reals. This is an idealisation of
JavaScript doubles: NaN, infinities, negative zero and rounding are not represented. Over
the reals, `x[k] || 0` is exactly "the value if present, else 0", because a stored 0 reads
as 0 either way.

Behaviours of the code a reader may not expect:

- The time series are not computed from the store's histories. They come from a history
  that the visualization component keeps itself. Each run of its effect appends both current
  readings to it, even when only one of them changed (`EmotionVisualizations.tsx:37-42`).
- The radar shows the speech reading only (`EmotionVisualizations.tsx:62-67`).
- The facial and speech time series (`lineData`, `speechLineData`, modelled as
  `FacialLineData` and `SpeechLineData`, both instances of `LineData`) are computed on
  every render, but the two `<Line>` charts that would show them are commented out
  (`EmotionVisualizations.tsx:159-166`).

## Model

| member | source | states |
|---|---|---|
| EmotionStore.Initial | Frontend/components/stores/emotionStore.ts:12-16 | the store starts with both histories empty and both current readings consistent with them, so both are `{}` |
| EmotionStore.SetFacialEmotions | Frontend/components/stores/emotionStore.ts:17-21 | the facial current becomes the reading; the facial history grows by exactly one entry, that reading, with the old history as prefix; the speech fields are unchanged; current == last of history is preserved |
| EmotionStore.SetSpeechEmotions | Frontend/components/stores/emotionStore.ts:22-26 | the symmetric statement for the speech stream, leaving both facial fields unchanged |
| EmotionStore.RunAppendsPerStream | Frontend/components/stores/emotionStore.ts:17-26 | for any interleaving of calls from any state, each history gains exactly its own stream's readings in call order, and the current == last invariant is kept |
| EmotionStore.FacialReadingsCount | Frontend/components/stores/emotionStore.ts:17-21 | the facial readings of a call sequence are as many as its facial calls |
| EmotionStore.SpeechReadingsCount | Frontend/components/stores/emotionStore.ts:22-26 | the speech readings of a call sequence are as many as its speech calls |
| EmotionStore.RunCurrentReadings | Frontend/components/stores/emotionStore.ts:17-26 | from any state, after any interleaving of calls, each stream's current reading is the last reading written by that stream's calls, or the starting one when none was |
| EmotionStore.InterleavedCalls | Frontend/components/stores/emotionStore.ts:12-26 | from the initial store, each history is its stream's readings in call order, each history's length is the number of that stream's calls, and a non-empty history ends with the stream's current reading |
| EmotionStore.FacialFieldsDetermined | Frontend/components/stores/emotionStore.ts:17-21 | from any state, two call sequences with the same facial readings leave the same facial current reading and facial history |
| EmotionStore.SpeechFieldsDetermined | Frontend/components/stores/emotionStore.ts:22-26 | from any state, two call sequences with the same speech readings leave the same speech current reading and speech history |
| EmotionStore.StreamsIndependent | Frontend/components/stores/emotionStore.ts:17-26 | from any starting state, two call sequences with the same facial calls leave identical facial fields, whatever speech calls are interleaved, and symmetrically for speech |
| EmotionStore.FacialHistoryOnlyGrows | Frontend/components/stores/emotionStore.ts:17-21 | an earlier facial history is a prefix of any later one, extended by exactly the later facial readings |
| EmotionStore.SpeechHistoryOnlyGrows | Frontend/components/stores/emotionStore.ts:22-26 | an earlier speech history is a prefix of any later one, extended by exactly the later speech readings |
| EmotionVisualizations.Project | Frontend/components/EmotionVisualizations.tsx:51 | mapping a vocabulary over a reading gives one score per vocabulary entry, in vocabulary order: the stored value if present, else 0 |
| EmotionVisualizations.UnknownKeysIgnored | Frontend/components/EmotionVisualizations.tsx:51 | adding or changing a key outside the vocabulary does not change the projection |
| EmotionVisualizations.BarData | Frontend/components/EmotionVisualizations.tsx:44-60 | the comparison chart is labelled by the vocabulary; both series have one value per emotion in vocabulary order, the reading's score if present and 0 if absent |
| EmotionVisualizations.RadarData | Frontend/components/EmotionVisualizations.tsx:62-67 | the radar is labelled by the vocabulary and holds the speech score of each emotion, or 0 |
| EmotionVisualizations.RadarMatchesSpeechBars | Frontend/components/EmotionVisualizations.tsx:56-67 | the radar series equals the speech comparison series, whatever the facial reading |
| EmotionVisualizations.EmptyReadingsProjectToZero | Frontend/components/EmotionVisualizations.tsx:44-67 | with both readings `{}`, both comparison series and the radar are seven zeros |
| EmotionVisualizations.RecordRender | Frontend/components/EmotionVisualizations.tsx:37-42 | one effect run appends exactly the current facial reading to the facial local history and the current speech reading to the speech one, keeping the rest; equal lengths are kept |
| EmotionVisualizations.LocalHistoriesStayAligned | Frontend/components/EmotionVisualizations.tsx:35-42 | from mount, after any number of effect runs both local histories have one entry per run, so they have equal length, and they hold the snapshots in order |
| EmotionVisualizations.Positions | Frontend/components/EmotionVisualizations.tsx:79 | the time-series labels are 1..n |
| EmotionVisualizations.Column | Frontend/components/EmotionVisualizations.tsx:82 | one emotion's series over a history has one value per entry: the entry's score if present, else 0 |
| EmotionVisualizations.Datasets | Frontend/components/EmotionVisualizations.tsx:80-85 | one dataset per vocabulary emotion, in order, labelled with the prefix and the emotion, holding that emotion's series |
| EmotionVisualizations.LineData | Frontend/components/EmotionVisualizations.tsx:78-96 | the time-series chart has labels 1..n for a history of length n, and seven datasets each of length n whose i-th value is the i-th entry's score or 0 |
| EmotionVisualizations.PresentScoresPassThrough | Frontend/components/EmotionVisualizations.tsx:46-96 | for any facial and speech readings, a score present in a reading appears unaltered, with no clamping, in the facial and speech comparison bars, in the radar, and in the facial and speech time series |
| EmotionVisualizations.TimeSeriesShareDomain | Frontend/components/EmotionVisualizations.tsx:78-96 | after any run of effects from mount, the facial and speech time series have the same labels, 1..number of runs |
| EmotionVisualizations.RecordRenderExtendsSeries | Frontend/components/EmotionVisualizations.tsx:37-86 | one effect run extends the labels by the next position and each facial series by the new reading's score, leaving earlier points unchanged |
| EmotionVisualizations.HappySeriesExample | Frontend/components/EmotionVisualizations.tsx:78-86 | the facial history `[{happy: 0.8}, {happy: 0.2}]` gives labels `[1, 2]`, the series "Facial happy" = `[0.8, 0.2]`, and zeros for anger |
| FacialEmotionAnalysis.HandleCompletion | Frontend/components/FacialEmotionAnalysis.tsx:63-70 | a response with a non-empty `results` records exactly `results[0].emotions` in the facial stream and shows `results[0]`, leaving speech untouched; a failed request, a missing `results` or an empty one changes nothing |
| FacialEmotionAnalysis.CompletionsAreFacialCalls | Frontend/components/FacialEmotionAnalysis.tsx:65-68 | handling any sequence of completions is the same as performing one facial store call per completion that carries a detection, and no speech call |
| FacialEmotionAnalysis.SpeechUntouchedByCapture | Frontend/components/FacialEmotionAnalysis.tsx:65-68 | capture completions never change the speech history, and the facial history grows by at most one entry per completion |
| FacialEmotionAnalysis.AdjustCoordinates | Frontend/components/FacialEmotionAnalysis.tsx:98-103 | each coordinate is scaled by the video's intrinsic size (`videoWidth` x `videoHeight`) over 640 for x and w and over 480 for y and h; a non-negative box stays non-negative; at the initial 640x480 size it is the identity |
| FacialEmotionAnalysis.AdjustCoordinatesAdditive | Frontend/components/FacialEmotionAnalysis.tsx:98-103 | rescaling a sum of boxes is the sum of the rescaled boxes |
| FacialEmotionAnalysis.AdjustCoordinatesHomogeneous | Frontend/components/FacialEmotionAnalysis.tsx:98-103 | rescaling a multiple of a box is that multiple of the rescaled box |
| FacialEmotionAnalysis.HalfSizeExample | Frontend/components/FacialEmotionAnalysis.tsx:98-103 | at an intrinsic video size (`videoWidth` x `videoHeight`) of 320x240, the box `[10, 10, 100, 100]` becomes `[5, 5, 50, 50]` |
| FacialEmotionAnalysis.Entries | Frontend/components/FacialEmotionAnalysis.tsx:105 | the entries of a reading list each key/value pair exactly once, as a multiset |
| FacialEmotionAnalysis.ListedEntriesAreItems | Frontend/components/FacialEmotionAnalysis.tsx:105 | a listing of a reading has one entry per key, with distinct keys, each carrying that key's value |
| FacialEmotionAnalysis.InsertDescending | Frontend/components/FacialEmotionAnalysis.tsx:105 | inserting into a non-increasing list keeps it non-increasing and adds exactly the one entry |
| FacialEmotionAnalysis.SortDescending | Frontend/components/FacialEmotionAnalysis.tsx:105 | the result is a permutation of the input with non-increasing values |
| FacialEmotionAnalysis.SortedEmotions | Frontend/components/FacialEmotionAnalysis.tsx:105 | without a detection the list is empty; with one it is a permutation of the detection's emotion entries, with non-increasing values |
| FacialEmotionAnalysis.BarWidth | Frontend/components/FacialEmotionAnalysis.tsx:150 | the width lies in [0, 100]; it equals (v+5)*10 exactly when -5 <= v <= 5; it is 0 at or below -5 and 100 at or above 5 |
| FacialEmotionAnalysis.BarWidthMonotone | Frontend/components/FacialEmotionAnalysis.tsx:150 | a higher score never gets a narrower bar |

## Left out

- Camera acquisition, the `onloadedmetadata` handler, canvas drawing, JPEG encoding,
  `fetch` and the one-second timer with its teardown are browser I/O and timers
  (`FacialEmotionAnalysis.tsx:27-86`). Each completed request appears in the model as one
  `Completion` handed to `HandleCompletion`. The video's reported intrinsic size appears
  as a `VideoDimensions` parameter.
- The CSS size at which the video element is drawn (`w-full max-w-md`, at most 300px high)
  is not modelled. The overlay box is placed in CSS pixels but scaled by the intrinsic
  size, so the two agree only when CSS does not resize the video.
- Requests that overlap in flight are a concurrency concern. The model takes completions in
  arrival order, which is the order the store sees them.
- React and zustand hook mechanics are not modelled. This includes when the effect fires:
  dependency identity and batched renders. A run of the effect is one `RecordRender`; which
  store updates trigger a run is not modelled.
- framer-motion animation, chart.js registration and options, and JSX layout are not
  modelled.
- The random hue of each line series and `toFixed(2)` formatting are presentation-only.
- `Frontend/components/Chat.tsx` is not modelled: tab switching, the scroll timeout and the
  voice provider wiring. The voice producer appears only as `Speech` calls into the store.
- `Frontend/pages/index.tsx` is not modelled: access-token fetch and splash timer.
- `Backend/api.py` and `Backend/single_image_test.py` are not modelled: model inference,
  face detection and Flask request handling are library calls the model cannot see.
- IEEE-754 behaviour is not modelled: NaN, infinities, rounding, negative zero. Scores are
  exact reals.
- FacialEmotionAnalysis.SortedEmotions: does not state the tie order. JavaScript's sort is
  stable over `Object.entries` order, which is the object's property insertion order. A
  Dafny map has no such order, so entries are enumerated in an unspecified order.
- FacialEmotionAnalysis.AdjustCoordinates: takes a four-field box. A `face_coordinates`
  array shorter than four would give NaN coordinates in JavaScript. The detector always
  sends `[x, y, w, h]`.
- The JSON decoding of the response is not modelled. A body that does not parse is the
  `RequestFailed` case. A body without `results`, such as an error object, has
  `results == None`.
