/** The tuner's drive loop (`update`, `start` and `stop` in app.js).

    `Cycle` is what one pass of `update` shows for the estimator's result.
    The class `Tuner` holds the module-level state the source mutates:
    `isRunning`, the pending animation-frame handle `rafId` and the
    reference pitch `a4`. The calls the source makes into the browser
    (opening the microphone, requesting and cancelling animation frames,
    stopping the tracks and closing the audio context) are recorded in the
    field `effects`, in order; whether opening the microphone succeeds and
    which handle a frame request returns are inputs. */
module Driver {
  import opened Base
  import opened Notes
  import opened Needle
  import PitchDetection

  // ---------------------------------------------------------------------
  // One pass of update

  /** What one pass of `update` shows. */
  datatype Display =
      /** note name (None for `undefined`), octave, needle position and band */
    | Detected(freq: real, name: Option<string>, oct: int, position: real, band: Band)
      /** a frequency of +Infinity passes the `freq > 0` test; what the page
          then shows (an undefined name, NaN cents) is not modelled */
    | Unbounded
      /** `setNeedle(0)` and a dash for the frequency */
    | NoSignal(position: real, band: Band)

  /** One pass of `update` for the estimator's result `reading`, with the
      reference pitch read once for the whole pass. */
  function Cycle(reading: Number, a4: real, log2: real -> real, exp2: real -> real): Display
    requires a4 > 0.0
    requires forall x :: exp2(x) > 0.0
  {
    match reading
    case Finite(v) =>
      if v > 0.0 then
        var note := FreqToNote(v, a4, log2, exp2);
        Detected(v, note.name, note.oct, Position(note.cents), Classify(note.cents))
      else NoSignal(Position(0.0), Classify(0.0))
    case PosInfinity => Unbounded
    case NaN => NoSignal(Position(0.0), Classify(0.0))
  }

  /** A note is shown exactly for a positive finite reading; the -1
      sentinel, any other non-positive value and NaN show no signal, with
      the needle centred and the cents display in the "good" class. */
  lemma CycleOutcomes(reading: Number, a4: real, log2: real -> real, exp2: real -> real)
    requires a4 > 0.0
    requires forall x :: exp2(x) > 0.0
    ensures Cycle(reading, a4, log2, exp2).Detected? <==> reading.Finite? && reading.value > 0.0
    ensures Cycle(reading, a4, log2, exp2).NoSignal? <==> !IsPositive(reading)
    ensures !IsPositive(reading) ==> Cycle(reading, a4, log2, exp2) == NoSignal(50.0, Good)
    ensures Cycle(reading, a4, log2, exp2).Detected? ==>
      Cycle(reading, a4, log2, exp2).freq == reading.value &&
      0.0 <= Cycle(reading, a4, log2, exp2).position <= 100.0
  {
    assert Position(0.0) == 50.0;
  }

  /** A detected note whose cents are within half a semitone (see
      Notes.CentsWithinHalfSemitone) is shown unclamped: the needle sits at
      cents + 50 and the band is that of the cents value. */
  lemma DetectedNeedleTracksCents(v: real, a4: real, log2: real -> real, exp2: real -> real)
    requires v > 0.0 && a4 > 0.0
    requires forall x :: exp2(x) > 0.0
    requires var note := FreqToNote(v, a4, log2, exp2);
      log2(v / note.ref) == log2(v / a4) - (note.n - A4Index) as real / 12.0
    ensures var note := FreqToNote(v, a4, log2, exp2);
      Cycle(Finite(v), a4, log2, exp2) ==
        Detected(v, note.name, note.oct, note.cents + 50.0, Classify(note.cents))
  {
    CentsWithinHalfSemitone(v, a4, log2, exp2);
  }

  /** A quiet frame shows no signal. */
  lemma QuietFrameShowsNoSignal(buf: seq<real>, sampleRate: int, a4: real, log2: real -> real, exp2: real -> real)
    requires sampleRate > 0 && a4 > 0.0
    requires forall x :: exp2(x) > 0.0
    requires PitchDetection.TooQuiet(buf)
    ensures Cycle(PitchDetection.Estimate(buf, sampleRate), a4, log2, exp2) == NoSignal(50.0, Good)
  {
    CycleOutcomes(PitchDetection.Sentinel, a4, log2, exp2);
  }

  // ---------------------------------------------------------------------
  // Calls into the browser

  datatype Effect =
    | Acquired                  // the microphone stream is open
    | AcquireFailed             // getUserMedia rejected; an alert is shown
    | FrameRequested(handle: nat)
    | FrameCancelled(handle: nat)
    | Released                  // tracks stopped and the audio context closed

  /** Whether the microphone is held after the effects so far. */
  function Holding(t: seq<Effect>): bool
  {
    if t == [] then false
    else match t[|t| - 1]
      case Acquired => true
      case Released => false
      case _ => Holding(t[..|t| - 1])
  }

  /** The microphone is opened only while it is not held and released only
      while it is. */
  predicate Alternates(t: seq<Effect>)
  {
    forall k :: 0 <= k < |t| ==>
      (t[k] == Acquired ==> !Holding(t[..k])) && (t[k] == Released ==> Holding(t[..k]))
  }

  lemma AlternatesExtend(t: seq<Effect>, e: Effect)
    requires Alternates(t)
    requires e == Acquired ==> !Holding(t)
    requires e == Released ==> Holding(t)
    ensures Alternates(t + [e])
    ensures Holding(t + [e]) == (if e == Acquired then true else if e == Released then false else Holding(t))
  {
    var u := t + [e];
    assert u[..|t|] == t;
    forall k | 0 <= k < |t| ensures u[..k] == t[..k] {
    }
  }

  function Count(t: seq<Effect>, e: Effect): nat
  {
    if t == [] then 0 else Count(t[..|t| - 1], e) + (if t[|t| - 1] == e then 1 else 0)
  }

  /** In an alternating history the microphone was opened once more than it
      was released while it is held, and as often otherwise. */
  lemma {:induction false} AcquireReleaseBalance(t: seq<Effect>)
    requires Alternates(t)
    ensures Count(t, Acquired) == Count(t, Released) + (if Holding(t) then 1 else 0)
  {
    if t != [] {
      var init := t[..|t| - 1];
      assert Alternates(init) by {
        forall k | 0 <= k < |init| ensures init[..k] == t[..k] {
        }
      }
      AcquireReleaseBalance(init);
      assert t[..|t| - 1] == init;
    }
  }

  // ---------------------------------------------------------------------
  // The state the source keeps at module level

  class Tuner {
    var isRunning: bool
    var rafId: Option<nat>
    var a4: real
    var effects: seq<Effect>

    /** `isRunning` says exactly whether the microphone is held, the
        history alternates, while running a frame has been requested, and
        the reference pitch is positive. */
    ghost predicate Valid()
      reads this
    {
      Alternates(effects) && isRunning == Holding(effects) && (isRunning ==> rafId.Some?) && a4 > 0.0
    }

    /** The initial state: not running, no frame handle, A4 = 440 Hz. */
    constructor ()
      ensures Valid()
      ensures !isRunning && rafId == None && a4 == 440.0 && effects == []
    {
      isRunning := false;
      rafId := None;
      a4 := 440.0;
      effects := [];
    }

    /** `start()`: nothing when already running; otherwise open the
        microphone (`acquired` says whether that succeeds), and on success
        set running and run the first pass of `update`, which requests the
        next frame (`handle` is what the request returns). On failure only
        the alert happens and the tuner stays idle. */
    method Start(acquired: bool, handle: nat)
      requires Valid()
      modifies this
      ensures Valid()
      ensures a4 == old(a4)
      ensures old(isRunning) ==> isRunning && rafId == old(rafId) && effects == old(effects)
      ensures !old(isRunning) && acquired ==>
        isRunning && rafId == Some(handle) && effects == old(effects) + [Acquired, FrameRequested(handle)]
      ensures !old(isRunning) && !acquired ==>
        !isRunning && rafId == old(rafId) && effects == old(effects) + [AcquireFailed]
    {
      if isRunning {
        return;
      }
      if !acquired {
        AlternatesExtend(effects, AcquireFailed);
        effects := effects + [AcquireFailed];
        return;
      }
      AlternatesExtend(effects, Acquired);
      effects := effects + [Acquired];
      isRunning := true;
      AlternatesExtend(effects, FrameRequested(handle));
      effects := effects + [FrameRequested(handle)];
      rafId := Some(handle);
    }

    /** `stop()`: nothing when idle; otherwise cancel the pending frame,
        release the microphone and clear the running flag. The stale handle
        stays in `rafId`, as in the source. */
    method Stop()
      requires Valid()
      modifies this
      ensures Valid()
      ensures a4 == old(a4) && rafId == old(rafId) && !isRunning
      ensures !old(isRunning) ==> effects == old(effects)
      ensures old(isRunning) ==> effects == old(effects) + [FrameCancelled(old(rafId).value), Released]
    {
      if !isRunning {
        return;
      }
      AlternatesExtend(effects, FrameCancelled(rafId.value));
      effects := effects + [FrameCancelled(rafId.value)];
      AlternatesExtend(effects, Released);
      effects := effects + [Released];
      isRunning := false;
    }

    /** One `update` callback: estimate the pitch of the frame just read,
        show it with the current reference pitch, and request the next
        frame. */
    method Update(buf: array<real>, sampleRate: int, handle: nat, log2: real -> real, exp2: real -> real)
      returns (d: Display)
      requires Valid() && sampleRate > 0
      requires forall x :: exp2(x) > 0.0
      modifies this
      ensures Valid()
      ensures d == Cycle(PitchDetection.Estimate(buf[..], sampleRate), old(a4), log2, exp2)
      ensures isRunning == old(isRunning) && a4 == old(a4)
      ensures rafId == Some(handle) && effects == old(effects) + [FrameRequested(handle)]
    {
      var freq := PitchDetection.AutoCorrelate(buf, sampleRate);
      d := Cycle(freq, a4, log2, exp2);
      AlternatesExtend(effects, FrameRequested(handle));
      effects := effects + [FrameRequested(handle)];
      rafId := Some(handle);
    }

    /** The A4 slider's input handler: the new reference pitch applies from
        the next pass of `update` on. The slider only offers positive
        values. */
    method SetA4(value: real)
      requires Valid() && value > 0.0
      modifies this`a4
      ensures Valid() && a4 == value
    {
      a4 := value;
    }
  }
}
