/** The note mapper (`freqToNote` in app.js): from a frequency and the
    reference pitch A4 to a semitone index, a pitch-class name, an octave,
    the equal-temperament frequency of that semitone and the deviation in
    cents.

    `Math.log2` and `Math.pow(2, x)` are transcendental and are passed in as
    the functions `log2` and `exp2`; the lemmas state which of their laws
    each property uses. Index arithmetic follows JavaScript: `Math.round`
    rounds halves up and `%` keeps the sign of the dividend. */
module Notes {
  import opened Base

  /** The twelve pitch-class names, starting at C. */
  const NoteNames: seq<string> := ["C", "C#", "D", "D#", "E", "F", "F#", "G", "G#", "A", "A#", "B"]

  /** The semitone index of A4. */
  const A4Index: int := 69

  /** JavaScript's `a % 12`: truncating, so the remainder has the sign of
      the dividend (Dafny's `%` is Euclidean and never negative). */
  function JsRemainder12(a: int): (r: int)
    ensures a >= 0 ==> r == a % 12
    ensures a < 0 ==> -12 < r <= 0 && (a - r) % 12 == 0
  {
    if a >= 0 then a % 12 else -((-a) % 12)
  }

  /** `Math.round`: the nearest integer, halves rounded up. */
  function JsRound(x: real): (n: int)
    ensures n as real - 0.5 <= x < n as real + 0.5
  {
    (x + 0.5).Floor
  }

  /** `NOTE_NAMES[n % 12]`; None where JavaScript reads `undefined` (a
      negative remainder indexes outside the table). */
  function NoteName(n: int): (name: Option<string>)
    ensures name.Some? ==> name.value in NoteNames
    ensures n >= 0 ==> name.Some?
  {
    var i := JsRemainder12(n);
    if 0 <= i < |NoteNames| then Some(NoteNames[i]) else None
  }

  /** `Math.floor(n / 12) - 1`: octave 4 holds C4 = 60 up to B4 = 71. */
  function Octave(n: int): (oct: int)
    ensures 12 * (oct + 1) <= n < 12 * (oct + 2)
  {
    n / 12 - 1
  }

  /** The continuous semitone position `12 * log2(f / A4) + 69`. */
  function SemitonePosition(f: real, a4: real, log2: real -> real): real
    requires a4 != 0.0
  {
    12.0 * log2(f / a4) + A4Index as real
  }

  /** `A4 * 2^((n - 69) / 12)`, the equal-temperament frequency of semitone n. */
  function RefFrequency(a4: real, n: int, exp2: real -> real): real
  {
    a4 * exp2((n - A4Index) as real / 12.0)
  }

  datatype NoteInfo = NoteInfo(n: int, name: Option<string>, oct: int, ref: real, cents: real)

  /** `freqToNote(f, A4)`. */
  function FreqToNote(f: real, a4: real, log2: real -> real, exp2: real -> real): (note: NoteInfo)
    requires f > 0.0 && a4 > 0.0
    requires forall x :: exp2(x) > 0.0
    ensures note.ref > 0.0
  {
    var n := JsRound(SemitonePosition(f, a4, log2));
    var ref := RefFrequency(a4, n, exp2);
    assert ref > 0.0 by { PositiveProduct(a4, exp2((n - A4Index) as real / 12.0)); }
    NoteInfo(n, NoteName(n), Octave(n), ref, 1200.0 * log2(f / ref))
  }

  lemma PositiveProduct(x: real, y: real)
    requires x > 0.0 && y > 0.0
    ensures x * y > 0.0
  {
  }

  /** For a non-negative index the name is the table entry at n mod 12 and
      n splits into octave and pitch class. */
  lemma NameOfNonNegativeIndex(n: int)
    requires n >= 0
    ensures NoteName(n) == Some(NoteNames[n % 12])
    ensures n == 12 * (Octave(n) + 1) + n % 12
  {
  }

  /** For a negative index JavaScript's remainder is negative unless n is a
      multiple of 12, so the name is undefined except for those, which read
      entry 0, "C". */
  lemma NameOfNegativeIndex(n: int)
    requires n < 0
    ensures NoteName(n).Some? <==> n % 12 == 0
    ensures NoteName(n).Some? ==> NoteName(n) == Some("C")
  {
    var m := -n;
    var q, r := m / 12, m % 12;
    assert m == 12 * q + r && 0 <= r < 12;
    assert JsRemainder12(n) == -r;
    if r == 0 {
      ModOf(n, -q, 0);
    } else {
      ModOf(n, -q - 1, 12 - r);
    }
  }

  lemma ModOf(n: int, k: int, r: int)
    requires n == 12 * k + r && 0 <= r < 12
    ensures n % 12 == r
  {
  }

  /** Twelve semitones up keeps a non-negative index's name and raises its
      octave by one. */
  lemma OctaveShift(n: int)
    requires n >= 0
    ensures NoteName(n + 12) == NoteName(n)
    ensures Octave(n + 12) == Octave(n) + 1
  {
    assert (n + 12) % 12 == n % 12;
  }

  /** Rounding commutes with a whole shift of 12. */
  lemma RoundShift(x: real)
    ensures JsRound(x + 12.0) == JsRound(x) + 12
  {
    var n, m := JsRound(x), JsRound(x + 12.0);
    assert m as real - 0.5 <= x + 12.0 < m as real + 0.5;
    assert (n + 12) as real - 0.5 <= x + 12.0 < (n + 12) as real + 0.5;
  }

  /** The reference itself: when log2(1) = 0 and 2^0 = 1, A4 maps to index
      69, "A", octave 4, reference frequency A4 and zero cents. */
  lemma ReferencePitchIsA4(a4: real, log2: real -> real, exp2: real -> real)
    requires a4 > 0.0
    requires forall x :: exp2(x) > 0.0
    requires log2(1.0) == 0.0 && exp2(0.0) == 1.0
    ensures FreqToNote(a4, a4, log2, exp2) == NoteInfo(69, Some("A"), 4, a4, 0.0)
  {
    assert a4 / a4 == 1.0;
    assert SemitonePosition(a4, a4, log2) == 69.0;
    assert JsRound(69.0) == 69 by {
      var k := JsRound(69.0);
      assert k as real - 0.5 <= 69.0 < k as real + 0.5;
    }
    assert RefFrequency(a4, 69, exp2) == a4;
  }

  /** Doubling the frequency: when log2 and exp2 obey their octave laws at
      the points used, the index rises by 12, the octave by one, the name of
      a non-negative index is kept, the reference doubles and the cents are
      unchanged. */
  lemma DoublingRaisesOctave(f: real, a4: real, log2: real -> real, exp2: real -> real)
    requires f > 0.0 && a4 > 0.0
    requires forall x :: exp2(x) > 0.0
    requires log2(2.0 * f / a4) == log2(f / a4) + 1.0
    requires var n := FreqToNote(f, a4, log2, exp2).n;
      exp2((n + 12 - A4Index) as real / 12.0) == 2.0 * exp2((n - A4Index) as real / 12.0)
    ensures var lo, hi := FreqToNote(f, a4, log2, exp2), FreqToNote(2.0 * f, a4, log2, exp2);
      && hi.n == lo.n + 12
      && hi.oct == lo.oct + 1
      && (lo.n >= 0 ==> hi.name == lo.name)
      && hi.ref == 2.0 * lo.ref
      && hi.cents == lo.cents
  {
    var lo := FreqToNote(f, a4, log2, exp2);
    DoubledIndex(f, a4, log2);
    var n := lo.n;
    if n >= 0 {
      OctaveShift(n);
    }
    RefOctave(a4, n, exp2);
    var r := lo.ref;
    HalvesCancel(f, r);
  }

  /** Doubling the frequency raises the rounded semitone index by 12. */
  lemma DoubledIndex(f: real, a4: real, log2: real -> real)
    requires a4 > 0.0
    requires log2(2.0 * f / a4) == log2(f / a4) + 1.0
    ensures JsRound(SemitonePosition(2.0 * f, a4, log2)) == JsRound(SemitonePosition(f, a4, log2)) + 12
  {
    var p := SemitonePosition(f, a4, log2);
    assert SemitonePosition(2.0 * f, a4, log2) == p + 12.0;
    RoundShift(p);
  }

  /** Under the octave law of exp2 at n, the reference doubles 12 semitones up. */
  lemma RefOctave(a4: real, n: int, exp2: real -> real)
    requires exp2((n + 12 - A4Index) as real / 12.0) == 2.0 * exp2((n - A4Index) as real / 12.0)
    ensures RefFrequency(a4, n + 12, exp2) == 2.0 * RefFrequency(a4, n, exp2)
  {
    assert (n + 12 - A4Index) as real / 12.0 == ((n + 12) - A4Index) as real / 12.0;
  }

  lemma HalvesCancel(f: real, r: real)
    requires r > 0.0
    ensures (2.0 * f) / (2.0 * r) == f / r
  {
  }

  /** The deviation is within half a semitone: when log2 turns the quotient
      f / ref into a difference of logarithms, the cents lie in [-50, 50). */
  lemma CentsWithinHalfSemitone(f: real, a4: real, log2: real -> real, exp2: real -> real)
    requires f > 0.0 && a4 > 0.0
    requires forall x :: exp2(x) > 0.0
    requires var note := FreqToNote(f, a4, log2, exp2);
      log2(f / note.ref) == log2(f / a4) - (note.n - A4Index) as real / 12.0
    ensures -50.0 <= FreqToNote(f, a4, log2, exp2).cents < 50.0
  {
    var note := FreqToNote(f, a4, log2, exp2);
    var p := SemitonePosition(f, a4, log2);
    var l := log2(f / a4);
    assert p == 12.0 * l + 69.0;
    assert note.n as real - 0.5 <= p < note.n as real + 0.5;
    assert note.cents == 1200.0 * (l - (note.n - A4Index) as real / 12.0);
    assert note.cents == 100.0 * (p - note.n as real);
  }
}
