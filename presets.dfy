/** The string presets (`GUITAR_STRINGS`, `BASS_STRINGS` and the choice in
    `renderStrings` in app.js). Only the choice of table is modelled; the
    buttons built from it are page content. */
module Presets {
  /** A reference string: its note label and its frequency in Hz. */
  datatype TunerString = TunerString(name: string, freq: real)

  /** Standard guitar tuning, highest string first. */
  const GuitarStrings: seq<TunerString> := [
    TunerString("E4", 329.628), TunerString("B3", 246.942), TunerString("G3", 196.000),
    TunerString("D3", 146.832), TunerString("A2", 110.000), TunerString("E2", 82.407)
  ]

  /** Standard four-string bass tuning, highest string first. */
  const BassStrings: seq<TunerString> := [
    TunerString("G2", 98.000), TunerString("D2", 73.416), TunerString("A1", 55.000), TunerString("E1", 41.203)
  ]

  /** The strings shown for the mode selector's value: the bass table for
      "bass", the guitar table for "guitar", none in any other (chromatic)
      mode. */
  function StringsFor(mode: string): seq<TunerString>
  {
    if mode == "bass" then BassStrings
    else if mode == "guitar" then GuitarStrings
    else []
  }

  /** The chromatic-mode legend is shown exactly when the mode is neither
      "bass" nor "guitar"; the two instruments have 4 and 6 strings. */
  lemma ModeSelection(mode: string)
    ensures |StringsFor(mode)| == 0 <==> mode != "bass" && mode != "guitar"
    ensures mode == "bass" ==> |StringsFor(mode)| == 4
    ensures mode == "guitar" ==> |StringsFor(mode)| == 6
  {
  }

  /** Each table runs from the highest string to the lowest, all at
      positive frequencies. */
  predicate Descending(s: seq<TunerString>)
  {
    (forall i :: 0 <= i < |s| ==> s[i].freq > 0.0) &&
    (forall i, j :: 0 <= i < j < |s| ==> s[i].freq > s[j].freq)
  }

  lemma PresetsDescend(mode: string)
    ensures Descending(StringsFor(mode))
  {
  }
}
