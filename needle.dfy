/** The needle and the tuning band (`setNeedle` in app.js), without the
    page updates: the cents value is clamped to the dial's range of ±50,
    turned into a position in percent, and classified "good" (within 5
    cents), "warn" (more than 20 cents off) or neither. The band is taken
    from the unclamped value. */
module Needle {
  import opened Base

  const DialRange: real := 50.0
  const GoodCents: real := 5.0
  const WarnCents: real := 20.0

  /** The CSS class the cents display carries. */
  datatype Band = Good | Warn | Plain

  function Min(x: real, y: real): real { if x <= y then x else y }
  function Max(x: real, y: real): real { if x >= y then x else y }

  /** `Math.max(-50, Math.min(50, cents))` */
  function Clamp(cents: real): (r: real)
    ensures -DialRange <= r <= DialRange
    ensures -DialRange <= cents <= DialRange ==> r == cents
    ensures cents > DialRange ==> r == DialRange
    ensures cents < -DialRange ==> r == -DialRange
  {
    Max(-DialRange, Min(DialRange, cents))
  }

  /** `(clamped + 50) / 100 * 100`, the needle's left offset in percent. */
  function Position(cents: real): (pos: real)
    ensures 0.0 <= pos <= 100.0
  {
    (Clamp(cents) + 50.0) / 100.0 * 100.0
  }

  /** The position is the clamped value shifted to start at 0, it moves
      with the cents value, centres at 0 and is symmetric about the centre. */
  lemma PositionProperties(c: real, d: real)
    ensures Position(c) == Clamp(c) + 50.0
    ensures c <= d ==> Position(c) <= Position(d)
    ensures Position(0.0) == 50.0
    ensures Position(-c) == 100.0 - Position(c)
  {
  }

  /** The class chosen from `Math.abs(cents)`. */
  function Classify(cents: real): Band
  {
    if Abs(cents) <= GoodCents then Good
    else if Abs(cents) > WarnCents then Warn
    else Plain
  }

  /** The three bands partition the cents values by magnitude, including
      the boundaries: exactly 5 is good, exactly 20 is neither. */
  lemma ClassifyBands(c: real)
    ensures Classify(c) == Good <==> -GoodCents <= c <= GoodCents
    ensures Classify(c) == Warn <==> c < -WarnCents || WarnCents < c
    ensures Classify(c) == Plain <==> (GoodCents < c <= WarnCents || -WarnCents <= c < -GoodCents)
  {
  }

  /** The band depends only on the magnitude, and a larger deviation never
      falls in a better band. */
  lemma ClassifyMonotone(c: real, d: real)
    ensures Classify(-c) == Classify(c)
    ensures Abs(c) <= Abs(d) ==> Severity(Classify(c)) <= Severity(Classify(d))
  {
  }

  function Severity(b: Band): nat
  {
    match b
    case Good => 0
    case Plain => 1
    case Warn => 2
  }

  /** The band looks at the unclamped value: anything past the dial's end
      is "warn", even though the needle stops at the end. */
  lemma PinnedNeedleWarns(c: real)
    requires Abs(c) > DialRange
    ensures Classify(c) == Warn
    ensures Position(c) == 0.0 || Position(c) == 100.0
  {
  }
}
