/**
 * The classic-flip executor (src/components/ClassicFlipAnimation.tsx): when
 * triggered it either writes the final properties at once (reduced motion)
 * or tweens the container from edge-on and transparent to upright and opaque.
 */
module ClassicFlip {
  import opened Options
  import opened Effects
  import opened Tweens

  /** Where the flip starts: rotated a quarter turn back, transparent. */
  const FlipFrom := Vars(Some(-90), Some(0), None, None)

  /** Where the flip ends: upright and opaque. */
  const FlipTo := Vars(Some(0), Some(1), None, None)

  /** The end state written at once under reduced motion. */
  const ReducedEnd := Vars(Some(0), Some(1), Some(Px(0)), None)

  /**
   * The call one run of the effect makes: none without a trigger, the end
   * state at once under reduced motion, otherwise one tween over `duration`.
   */
  function Decide(d: Deps): (r: Option<Call>)
    ensures r.Some? <==> d.trigger
    ensures r.Some? ==> (r.value.Set? <==> d.reduced)
    ensures r.Some? && r.value.FromTo? ==> r.value.duration == d.duration
  {
    if !d.trigger then None
    else if d.reduced then Some(Set(ReducedEnd))
    else Some(FromTo(FlipFrom, FlipTo, d.duration))
  }

  /**
   * Whatever the container showed before, a triggered run leaves the digit
   * upright and opaque; the tween starts from an invisible digit.
   */
  lemma TriggeredRunShowsDigit(s: Style, d: Deps)
    requires d.trigger
    ensures Decide(d).Some?
    ensures Shown(EndOf(s, Decide(d).value))
    ensures !d.reduced ==> Hidden(StartOf(s, Decide(d).value)) && StartOf(s, Decide(d).value).rotateX == -90
  {
  }

  /**
   * Reduced motion skips the tween but lands on the same rotation and
   * opacity; it also resets the vertical offset, which the tween leaves alone.
   */
  lemma ReducedMotionSameEnd(s: Style, duration: real)
    ensures EndOf(s, Decide(Deps(true, duration, true)).value).rotateX
         == EndOf(s, Decide(Deps(true, duration, false)).value).rotateX
    ensures EndOf(s, Decide(Deps(true, duration, true)).value).opacity
         == EndOf(s, Decide(Deps(true, duration, false)).value).opacity
    ensures EndOf(s, Decide(Deps(true, duration, true)).value).y == Px(0)
    ensures EndOf(s, Decide(Deps(true, duration, false)).value).y == s.y
  {
  }

  /**
   * The mounted component: the dependency list of its last render, the
   * calls its effect has made on the container, and the container's
   * properties once those calls have run to their end.
   */
  class ClassicFlipAnimation {
    var lastDeps: Option<Deps>
    var calls: seq<Call>
    var style: Style

    constructor (initial: Style)
      ensures lastDeps == None && calls == [] && style == initial
    {
      lastDeps := None;
      calls := [];
      style := initial;
    }

    /** One render with the given props, followed by the effect if its dependencies changed. */
    method Render(trigger: bool, duration: Option<real>, reduced: Option<bool>)
      modifies this
      ensures lastDeps == Some(DepsOf(trigger, duration, reduced))
      ensures old(lastDeps) == Some(DepsOf(trigger, duration, reduced)) ==> calls == old(calls) && style == old(style)
      ensures var d := DepsOf(trigger, duration, reduced);
        if EffectRuns(old(lastDeps), d) && trigger then
          calls == old(calls) + [Decide(d).value] && style == EndOf(old(style), Decide(d).value) && Shown(style)
        else
          calls == old(calls) && style == old(style)
    {
      var d := DepsOf(trigger, duration, reduced);
      if EffectRuns(lastDeps, d) {
        var call := Decide(d);
        if call.Some? {
          TriggeredRunShowsDigit(style, d);
          calls := calls + [call.value];
          style := EndOf(style, call.value);
        }
      }
      lastDeps := Some(d);
    }
  }
}
