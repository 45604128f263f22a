/**
 The data unit shared by every component: an emotion reading.

 A reading is the frontend's `Record<string, number>`: a map from emotion
 name to score. Scores are exact reals, an idealisation of JavaScript
 doubles (no NaN, no negative zero, no rounding).
 */
module Readings {

  /** Scores keyed by emotion name; keys outside the vocabulary are allowed. */
  type Reading = map<string, real>

  /** The conventional Some/None datatype, used for optional response fields. */
  datatype Option<+T> = None | Some(value: T)

  /** The score a projection reads for `emotion`: the JavaScript idiom
      `reading[emotion] || 0`. A missing key reads as 0; a stored 0 also
      reads as 0, so the two cases agree over the reals. */
  function Score(r: Reading, emotion: string): real
  {
    if emotion in r then r[emotion] else 0.0
  }

  /** The last element of a history, or the empty reading when there is none. */
  function LastOrEmpty(h: seq<Reading>): Reading
  {
    if |h| == 0 then map[] else h[|h| - 1]
  }
}
