/**
 The session-wide emotion store (`useEmotionStore`).

 Two independent modality streams, facial and speech, each hold the
 current reading and the append-only history of every reading recorded.
 The zustand container becomes an immutable record and the two setters
 become pure transitions from one state to the next.
 */
module EmotionStore {
  import opened Readings

  datatype EmotionState = EmotionState(
    facialEmotions: Reading,
    speechEmotions: Reading,
    facialEmotionHistory: seq<Reading>,
    speechEmotionHistory: seq<Reading>
  )

  /** The store's invariant: each stream's current reading is the last one
      appended to its history, or empty while the history is empty. */
  predicate Consistent(s: EmotionState)
  {
    && s.facialEmotions == LastOrEmpty(s.facialEmotionHistory)
    && s.speechEmotions == LastOrEmpty(s.speechEmotionHistory)
  }

  /** The state the store is created with. */
  function Initial(): (s: EmotionState)
    ensures s.facialEmotionHistory == [] && s.speechEmotionHistory == []
    ensures Consistent(s)
  {
    EmotionState(map[], map[], [], [])
  }

  /** `setFacialEmotions(emotions)`. */
  function SetFacialEmotions(s: EmotionState, emotions: Reading): (t: EmotionState)
    ensures t.facialEmotions == emotions
    ensures |t.facialEmotionHistory| == |s.facialEmotionHistory| + 1
    ensures t.facialEmotionHistory[..|s.facialEmotionHistory|] == s.facialEmotionHistory
    ensures t.facialEmotionHistory[|s.facialEmotionHistory|] == emotions
    ensures t.speechEmotions == s.speechEmotions
    ensures t.speechEmotionHistory == s.speechEmotionHistory
    ensures Consistent(s) ==> Consistent(t)
  {
    s.(facialEmotions := emotions,
       facialEmotionHistory := s.facialEmotionHistory + [emotions])
  }

  /** `setSpeechEmotions(emotions)`. */
  function SetSpeechEmotions(s: EmotionState, emotions: Reading): (t: EmotionState)
    ensures t.speechEmotions == emotions
    ensures |t.speechEmotionHistory| == |s.speechEmotionHistory| + 1
    ensures t.speechEmotionHistory[..|s.speechEmotionHistory|] == s.speechEmotionHistory
    ensures t.speechEmotionHistory[|s.speechEmotionHistory|] == emotions
    ensures t.facialEmotions == s.facialEmotions
    ensures t.facialEmotionHistory == s.facialEmotionHistory
    ensures Consistent(s) ==> Consistent(t)
  {
    s.(speechEmotions := emotions,
       speechEmotionHistory := s.speechEmotionHistory + [emotions])
  }

  /** One call into the store by one of its two writers. */
  datatype Call = Facial(reading: Reading) | Speech(reading: Reading)

  function Apply(s: EmotionState, c: Call): EmotionState
  {
    match c
    case Facial(e) => SetFacialEmotions(s, e)
    case Speech(e) => SetSpeechEmotions(s, e)
  }

  /** The state after performing `calls` in order, starting from `s`. */
  function Run(s: EmotionState, calls: seq<Call>): EmotionState
    decreases |calls|
  {
    if |calls| == 0 then s
    else Apply(Run(s, calls[..|calls| - 1]), calls[|calls| - 1])
  }

  /** The readings of the facial calls, in call order. */
  function FacialReadings(calls: seq<Call>): seq<Reading>
    decreases |calls|
  {
    if |calls| == 0 then []
    else
      var rest := FacialReadings(calls[..|calls| - 1]);
      if calls[|calls| - 1].Facial? then rest + [calls[|calls| - 1].reading] else rest
  }

  /** The readings of the speech calls, in call order. */
  function SpeechReadings(calls: seq<Call>): seq<Reading>
    decreases |calls|
  {
    if |calls| == 0 then []
    else
      var rest := SpeechReadings(calls[..|calls| - 1]);
      if calls[|calls| - 1].Speech? then rest + [calls[|calls| - 1].reading] else rest
  }

  /** The number of facial calls among `calls`. */
  function FacialCount(calls: seq<Call>): nat
  {
    |set i | 0 <= i < |calls| && calls[i].Facial?|
  }

  /** The number of speech calls among `calls`. */
  function SpeechCount(calls: seq<Call>): nat
  {
    |set i | 0 <= i < |calls| && calls[i].Speech?|
  }

  /** Any interleaving of calls appends exactly each stream's own readings,
      in call order, to that stream's history, and keeps the invariant. */
  lemma {:induction false} RunAppendsPerStream(s: EmotionState, calls: seq<Call>)
    ensures Run(s, calls).facialEmotionHistory == s.facialEmotionHistory + FacialReadings(calls)
    ensures Run(s, calls).speechEmotionHistory == s.speechEmotionHistory + SpeechReadings(calls)
    ensures Consistent(s) ==> Consistent(Run(s, calls))
    decreases |calls|
  {
    if |calls| > 0 {
      var init := calls[..|calls| - 1];
      RunAppendsPerStream(s, init);
      var c := calls[|calls| - 1];
      if c.Facial? {
        assert s.facialEmotionHistory + (FacialReadings(init) + [c.reading])
            == (s.facialEmotionHistory + FacialReadings(init)) + [c.reading];
      } else {
        assert s.speechEmotionHistory + (SpeechReadings(init) + [c.reading])
            == (s.speechEmotionHistory + SpeechReadings(init)) + [c.reading];
      }
    }
  }

  /** The facial history has one entry per facial call. */
  lemma {:induction false} FacialReadingsCount(calls: seq<Call>)
    ensures |FacialReadings(calls)| == FacialCount(calls)
    decreases |calls|
  {
    if |calls| > 0 {
      var n := |calls| - 1;
      FacialReadingsCount(calls[..n]);
      var before := set i | 0 <= i < n && calls[..n][i].Facial?;
      var all := set i | 0 <= i < |calls| && calls[i].Facial?;
      if calls[n].Facial? {
        assert all == before + {n};
      } else {
        assert all == before;
      }
    }
  }

  /** The speech history has one entry per speech call. */
  lemma {:induction false} SpeechReadingsCount(calls: seq<Call>)
    ensures |SpeechReadings(calls)| == SpeechCount(calls)
    decreases |calls|
  {
    if |calls| > 0 {
      var n := |calls| - 1;
      SpeechReadingsCount(calls[..n]);
      var before := set i | 0 <= i < n && calls[..n][i].Speech?;
      var all := set i | 0 <= i < |calls| && calls[i].Speech?;
      if calls[n].Speech? {
        assert all == before + {n};
      } else {
        assert all == before;
      }
    }
  }

  /** Each stream's current reading is the last reading its calls wrote,
      or the starting one when no call wrote to it. */
  lemma {:induction false} RunCurrentReadings(s: EmotionState, calls: seq<Call>)
    ensures Run(s, calls).facialEmotions
              == (if |FacialReadings(calls)| == 0 then s.facialEmotions
                  else FacialReadings(calls)[|FacialReadings(calls)| - 1])
    ensures Run(s, calls).speechEmotions
              == (if |SpeechReadings(calls)| == 0 then s.speechEmotions
                  else SpeechReadings(calls)[|SpeechReadings(calls)| - 1])
    decreases |calls|
  {
    if |calls| > 0 {
      RunCurrentReadings(s, calls[..|calls| - 1]);
    }
  }

  /** From the initial state, whatever the interleaving: each history is
      exactly its stream's readings in call order, with one entry per call
      of that stream, and a non-empty history ends with the
      stream's current reading. */
  lemma {:induction false} InterleavedCalls(calls: seq<Call>)
    ensures Run(Initial(), calls).facialEmotionHistory == FacialReadings(calls)
    ensures Run(Initial(), calls).speechEmotionHistory == SpeechReadings(calls)
    ensures |Run(Initial(), calls).facialEmotionHistory| == FacialCount(calls)
    ensures |Run(Initial(), calls).speechEmotionHistory| == SpeechCount(calls)
    ensures |FacialReadings(calls)| > 0 ==>
              Run(Initial(), calls).facialEmotions == FacialReadings(calls)[|FacialReadings(calls)| - 1]
    ensures |SpeechReadings(calls)| > 0 ==>
              Run(Initial(), calls).speechEmotions == SpeechReadings(calls)[|SpeechReadings(calls)| - 1]
  {
    RunAppendsPerStream(Initial(), calls);
    FacialReadingsCount(calls);
    SpeechReadingsCount(calls);
  }

  /** Two call sequences with the same facial readings leave the same
      facial fields. */
  lemma {:induction false} FacialFieldsDetermined(s: EmotionState, a: seq<Call>, b: seq<Call>)
    requires FacialReadings(a) == FacialReadings(b)
    ensures Run(s, a).facialEmotions == Run(s, b).facialEmotions
    ensures Run(s, a).facialEmotionHistory == Run(s, b).facialEmotionHistory
  {
    var ra, rb := Run(s, a), Run(s, b);
    RunAppendsPerStream(s, a);
    RunAppendsPerStream(s, b);
    assert ra.facialEmotionHistory == s.facialEmotionHistory + FacialReadings(a);
    assert rb.facialEmotionHistory == s.facialEmotionHistory + FacialReadings(b);
    RunCurrentReadings(s, a);
    RunCurrentReadings(s, b);
  }

  /** Two call sequences with the same speech readings leave the same
      speech fields. */
  lemma {:induction false} SpeechFieldsDetermined(s: EmotionState, a: seq<Call>, b: seq<Call>)
    requires SpeechReadings(a) == SpeechReadings(b)
    ensures Run(s, a).speechEmotions == Run(s, b).speechEmotions
    ensures Run(s, a).speechEmotionHistory == Run(s, b).speechEmotionHistory
  {
    var ra, rb := Run(s, a), Run(s, b);
    RunAppendsPerStream(s, a);
    RunAppendsPerStream(s, b);
    assert ra.speechEmotionHistory == s.speechEmotionHistory + SpeechReadings(a);
    assert rb.speechEmotionHistory == s.speechEmotionHistory + SpeechReadings(b);
    RunCurrentReadings(s, a);
    RunCurrentReadings(s, b);
  }

  /** The facial fields depend only on the facial calls: speech calls,
      however interleaved, never touch them (and symmetrically). */
  lemma {:induction false} StreamsIndependent(s: EmotionState, a: seq<Call>, b: seq<Call>)
    ensures FacialReadings(a) == FacialReadings(b) ==>
              Run(s, a).facialEmotions == Run(s, b).facialEmotions
              && Run(s, a).facialEmotionHistory == Run(s, b).facialEmotionHistory
    ensures SpeechReadings(a) == SpeechReadings(b) ==>
              Run(s, a).speechEmotions == Run(s, b).speechEmotions
              && Run(s, a).speechEmotionHistory == Run(s, b).speechEmotionHistory
  {
    if FacialReadings(a) == FacialReadings(b) {
      FacialFieldsDetermined(s, a, b);
    }
    if SpeechReadings(a) == SpeechReadings(b) {
      SpeechFieldsDetermined(s, a, b);
    }
  }

  /** Performing `a` then `b` is performing `a + b`. */
  lemma {:induction false} RunConcat(s: EmotionState, a: seq<Call>, b: seq<Call>)
    ensures Run(s, a + b) == Run(Run(s, a), b)
    decreases |b|
  {
    if |b| == 0 {
      assert a + b == a;
    } else {
      var b' := b[..|b| - 1];
      assert (a + b)[..|a + b| - 1] == a + b';
      assert (a + b)[|a + b| - 1] == b[|b| - 1];
      RunConcat(s, a, b');
    }
  }

  /** A facial snapshot taken earlier is a prefix of one taken later: the
      history only grows, with no gaps, reordering or duplication. */
  lemma {:induction false} FacialHistoryOnlyGrows(s: EmotionState, earlier: seq<Call>, later: seq<Call>)
    ensures Run(s, earlier + later).facialEmotionHistory
              == Run(s, earlier).facialEmotionHistory + FacialReadings(later)
  {
    RunConcat(s, earlier, later);
    RunAppendsPerStream(Run(s, earlier), later);
  }

  /** The speech counterpart of `FacialHistoryOnlyGrows`. */
  lemma {:induction false} SpeechHistoryOnlyGrows(s: EmotionState, earlier: seq<Call>, later: seq<Call>)
    ensures Run(s, earlier + later).speechEmotionHistory
              == Run(s, earlier).speechEmotionHistory + SpeechReadings(later)
  {
    RunConcat(s, earlier, later);
    RunAppendsPerStream(Run(s, earlier), later);
  }
}
