/**
 * The linked parameters of the PWM player's control panel and the input
 * handlers that edit them. Each handler is an atomic transition from the
 * panel state it reads to the state it sets.
 *
 * Times are in microseconds and are modelled as exact reals.
 */
module PanelState {

  const MicrosPerSecond: real := 1000000.0

  /** Period `lambda` and pulse width `width` (both in µs), the invert flag
      of the second channel and whether the loop is playing. */
  datatype Panel = Panel(lambda: real, width: real, inverted: bool, playing: bool)

  /** The state the panel starts in: a 20000 µs period, a 1500 µs pulse. */
  const Initial: Panel := Panel(20000.0, 1500.0, false, false)

  /** The pulse sits inside a positive period. */
  predicate WellFormed(p: Panel)
  {
    0.0 < p.lambda && 0.0 <= p.width <= p.lambda
  }

  /** Frequency in Hz shown beside the period. */
  function Frequency(p: Panel): real
    requires p.lambda != 0.0
  {
    MicrosPerSecond / p.lambda
  }

  /** Fraction of the period the signal is high (the duty cycle over 100). */
  function Duty(p: Panel): real
    requires p.lambda != 0.0
  {
    p.width / p.lambda
  }

  /** `Math.min` on two finite numbers. */
  function Min(a: real, b: real): (m: real)
    ensures m <= a && m <= b
    ensures m == a || m == b
  {
    if a <= b then a else b
  }

  /** A new period typed in: the pulse is cut down to the new period. */
  function LambdaChanged(p: Panel, newLambda: real): (q: Panel)
    ensures q.lambda == newLambda
    ensures q.width <= newLambda && q.width <= p.width
    ensures p.width <= newLambda ==> q.width == p.width
    ensures newLambda < p.width ==> q.width == newLambda
    ensures q.inverted == p.inverted && q.playing == p.playing
  {
    p.(lambda := newLambda, width := Min(p.width, newLambda))
  }

  /** A new frequency typed in: the period becomes its reciprocal and the
      pulse is rescaled with it, so the duty cycle is kept. */
  function FreqChanged(p: Panel, f: real): (q: Panel)
    requires f != 0.0 && p.lambda != 0.0
    ensures q.lambda != 0.0 && Frequency(q) == f
    ensures Duty(q) == Duty(p)
    ensures q.inverted == p.inverted && q.playing == p.playing
  {
    var newLambda := MicrosPerSecond / f;
    p.(lambda := newLambda, width := p.width * newLambda / p.lambda)
  }

  /** A new pulse width typed in: taken as it is, not clamped to the period. */
  function PulseChanged(p: Panel, w: real): (q: Panel)
    ensures q.width == w
    ensures q.lambda == p.lambda && q.inverted == p.inverted && q.playing == p.playing
  {
    p.(width := w)
  }

  /** A new duty cycle `d` (in percent) typed in: the pulse becomes that
      share of the unchanged period. */
  function DutyChanged(p: Panel, d: real): (q: Panel)
    ensures q.lambda == p.lambda && q.inverted == p.inverted && q.playing == p.playing
    ensures p.lambda != 0.0 ==> Duty(q) * 100.0 == d
    ensures p.lambda == 0.0 ==> q.width == 0.0
  {
    p.(width := p.lambda * d / 100.0)
  }

  /** The invert checkbox toggled to `checked`. */
  function InvertChanged(p: Panel, checked: bool): (q: Panel)
    ensures q.inverted == checked
    ensures q.lambda == p.lambda && q.width == p.width && q.playing == p.playing
  {
    p.(inverted := checked)
  }

  /** The play button. */
  function PlayClicked(p: Panel): (q: Panel)
    ensures q.playing
    ensures q.lambda == p.lambda && q.width == p.width && q.inverted == p.inverted
  {
    p.(playing := true)
  }

  /** The stop button. */
  function StopClicked(p: Panel): (q: Panel)
    ensures !q.playing
    ensures q.lambda == p.lambda && q.width == p.width && q.inverted == p.inverted
  {
    p.(playing := false)
  }

  // ---------------------------------------------------------------------
  // Round trips: typing back the panel's exact frequency, duty or pulse
  // changes nothing.

  lemma LambdaChangedIdempotent(p: Panel, l: real)
    ensures LambdaChanged(LambdaChanged(p, l), l) == LambdaChanged(p, l)
  {
  }

  lemma FreqRoundTrip(p: Panel)
    requires p.lambda != 0.0
    ensures FreqChanged(p, Frequency(p)) == p
  {
  }

  lemma DutyRoundTrip(p: Panel)
    requires p.lambda != 0.0
    ensures DutyChanged(p, Duty(p) * 100.0) == p
  {
  }

  lemma PulseRoundTrip(p: Panel)
    ensures PulseChanged(p, p.width) == p
  {
  }

  // ---------------------------------------------------------------------
  // Which edits keep the pulse inside the period.

  lemma InitialWellFormed()
    ensures WellFormed(Initial)
    ensures Frequency(Initial) == 50.0 && Duty(Initial) * 100.0 == 7.5
  {
  }

  lemma LambdaKeepsPulseInside(p: Panel, l: real)
    requires WellFormed(p) && 0.0 < l
    ensures WellFormed(LambdaChanged(p, l))
  {
  }

  lemma FreqKeepsPulseInside(p: Panel, f: real)
    requires WellFormed(p) && 0.0 < f
    ensures WellFormed(FreqChanged(p, f))
  {
    var q := FreqChanged(p, f);
    assert q.width == Duty(p) * q.lambda;
  }

  lemma DutyKeepsPulseInside(p: Panel, d: real)
    requires WellFormed(p) && 0.0 <= d <= 100.0
    ensures WellFormed(DutyChanged(p, d))
  {
    var x := d / 100.0;
    assert 0.0 <= x <= 1.0;
    assert DutyChanged(p, d).width == p.lambda * x;
    assert p.lambda * x <= p.lambda * 1.0 by {
      assert p.lambda * (1.0 - x) >= 0.0;
    }
  }

  lemma PulseKeepsPulseInside(p: Panel, w: real)
    requires WellFormed(p) && 0.0 <= w <= p.lambda
    ensures WellFormed(PulseChanged(p, w))
  {
  }

  /** The pulse handler does not clamp: a well-formed panel can be left with
      a pulse longer than its period. */
  lemma PulseMayOverrunPeriod()
    ensures WellFormed(Initial) && !WellFormed(PulseChanged(Initial, 30000.0))
  {
  }

  /** The pulse input's own upper limit is the period rounded up, so at a
      fractional period (here after typing 30 Hz) a pulse the input accepts
      can still overrun the period. */
  lemma PulseAtInputMaxMayOverrunPeriod()
    ensures var p := FreqChanged(Initial, 30.0);
      WellFormed(p) && -((-p.lambda).Floor) == 33334 &&
      !Tame(p, PulseEdit(33334.0)) && !WellFormed(PulseChanged(p, 33334.0))
  {
  }

  // ---------------------------------------------------------------------
  // Sequences of edits.

  /** One user action on the panel, with the number typed or the box state. */
  datatype Event =
    | LambdaEdit(newLambda: real)
    | FreqEdit(freq: real)
    | PulseEdit(pulse: real)
    | DutyEdit(duty: real)
    | InvertEdit(checked: bool)
    | Play
    | Stop

  /** The handlers are total except that a frequency edit divides by the
      typed frequency and by the current period. */
  predicate Defined(p: Panel, e: Event)
  {
    e.FreqEdit? ==> e.freq != 0.0 && p.lambda != 0.0
  }

  /** Dispatch of an action to its handler. */
  function Step(p: Panel, e: Event): (q: Panel)
    requires Defined(p, e)
    ensures !e.InvertEdit? ==> q.inverted == p.inverted
    ensures !(e.Play? || e.Stop?) ==> q.playing == p.playing
    ensures e.InvertEdit? || e.Play? || e.Stop? ==> q.lambda == p.lambda && q.width == p.width
  {
    match e
    case LambdaEdit(l) => LambdaChanged(p, l)
    case FreqEdit(f) => FreqChanged(p, f)
    case PulseEdit(w) => PulseChanged(p, w)
    case DutyEdit(d) => DutyChanged(p, d)
    case InvertEdit(c) => InvertChanged(p, c)
    case Play => PlayClicked(p)
    case Stop => StopClicked(p)
  }

  /** An action whose number keeps the pulse inside a positive period: a
      positive period or frequency, a pulse between 0 and the period, a duty
      between 0 and 100 percent. */
  predicate Tame(p: Panel, e: Event)
  {
    match e
    case LambdaEdit(l) => 0.0 < l
    case FreqEdit(f) => 0.0 < f
    case PulseEdit(w) => 0.0 <= w <= p.lambda
    case DutyEdit(d) => 0.0 <= d <= 100.0
    case _ => true
  }

  lemma StepKeepsPulseInside(p: Panel, e: Event)
    requires WellFormed(p) && Tame(p, e)
    ensures Defined(p, e) && WellFormed(Step(p, e))
  {
    match e
    case LambdaEdit(l) => LambdaKeepsPulseInside(p, l);
    case FreqEdit(f) => FreqKeepsPulseInside(p, f);
    case PulseEdit(w) => PulseKeepsPulseInside(p, w);
    case DutyEdit(d) => DutyKeepsPulseInside(p, d);
    case _ =>
  }

  /** Every action of `es` is defined in the state it is applied to. */
  predicate DefinedRun(p: Panel, es: seq<Event>)
    decreases |es|
  {
    es == [] || (Defined(p, es[0]) && DefinedRun(Step(p, es[0]), es[1..]))
  }

  /** The panel after applying the actions of `es` in order. */
  function Run(p: Panel, es: seq<Event>): (q: Panel)
    requires DefinedRun(p, es)
    ensures (forall i :: 0 <= i < |es| ==> !es[i].InvertEdit?) ==> q.inverted == p.inverted
    decreases |es|
  {
    if es == [] then p else Run(Step(p, es[0]), es[1..])
  }

  /** Every action of `es` is defined and tame in the state it is applied to. */
  predicate TameRun(p: Panel, es: seq<Event>)
    decreases |es|
  {
    es == [] || (Defined(p, es[0]) && Tame(p, es[0]) && TameRun(Step(p, es[0]), es[1..]))
  }

  /** From a well-formed panel, the pulse stays inside a positive period
      through any run of tame actions. */
  lemma {:induction false} TameRunKeepsPulseInside(p: Panel, es: seq<Event>)
    requires WellFormed(p) && TameRun(p, es)
    ensures DefinedRun(p, es) && WellFormed(Run(p, es))
    decreases |es|
  {
    if es != [] {
      StepKeepsPulseInside(p, es[0]);
      TameRunKeepsPulseInside(Step(p, es[0]), es[1..]);
    }
  }

  /** Invert, play and stop actions never move the period or the pulse, from
      any panel, well formed or not. */
  lemma {:induction false} FlagRunKeepsTiming(p: Panel, es: seq<Event>)
    requires forall i :: 0 <= i < |es| ==> es[i].InvertEdit? || es[i].Play? || es[i].Stop?
    ensures DefinedRun(p, es)
    ensures Run(p, es).lambda == p.lambda && Run(p, es).width == p.width
    decreases |es|
  {
    if es != [] {
      FlagRunKeepsTiming(Step(p, es[0]), es[1..]);
    }
  }
}
