/**
 * The drop-down executor (src/components/DropDownAnimation.tsx): when
 * triggered it either writes the final properties at once (reduced motion)
 * or tweens the container down from half its height above, slightly tilted
 * and transparent, hinged at its top edge.
 */
module DropDown {
  import opened Options
  import opened Effects
  import opened Tweens

  /** The hinge of the drop, named at both ends of the tween. */
  const Hinge := "center top"

  /** Where the drop starts: half a height up, tilted back 15 degrees, transparent. */
  const DropFrom := Vars(Some(-15), Some(0), Some(Percent(-50)), Some(Hinge))

  /** Where the drop ends: in place, upright and opaque. */
  const DropTo := Vars(Some(0), Some(1), Some(Px(0)), Some(Hinge))

  /** The end state written at once under reduced motion. */
  const ReducedEnd := Vars(Some(0), Some(1), Some(Px(0)), None)

  /**
   * The call one run of the effect makes: none without a trigger, the end
   * state at once under reduced motion, otherwise one tween over `duration`.
   */
  function Decide(d: Deps): (r: Option<Call>)
    ensures r.Some? <==> d.trigger
    ensures r.Some? ==> (r.value.Set? <==> d.reduced)
    ensures r.Some? && r.value.FromTo? ==> r.value.duration == d.duration
  {
    if !d.trigger then None
    else if d.reduced then Some(Set(ReducedEnd))
    else Some(FromTo(DropFrom, DropTo, d.duration))
  }

  /**
   * Whatever the container showed before, a triggered run leaves the digit
   * upright, opaque and in place; the tween starts invisible, half a height
   * up, and keeps the top-edge hinge from start to end.
   */
  lemma TriggeredRunShowsDigit(s: Style, d: Deps)
    requires d.trigger
    ensures Decide(d).Some?
    ensures Shown(EndOf(s, Decide(d).value)) && EndOf(s, Decide(d).value).y == Px(0)
    ensures !d.reduced ==>
              && Hidden(StartOf(s, Decide(d).value))
              && StartOf(s, Decide(d).value).rotateX == -15
              && StartOf(s, Decide(d).value).y == Percent(-50)
              && StartOf(s, Decide(d).value).origin == Hinge
              && EndOf(s, Decide(d).value).origin == Hinge
  {
  }

  /** Reduced motion skips the tween but lands on the same rotation, opacity and offset. */
  lemma ReducedMotionSameEnd(s: Style, duration: real)
    ensures var reduced := EndOf(s, Decide(Deps(true, duration, true)).value);
            var tweened := EndOf(s, Decide(Deps(true, duration, false)).value);
            reduced.rotateX == tweened.rotateX && reduced.opacity == tweened.opacity && reduced.y == tweened.y
  {
  }

  /**
   * The mounted component: the dependency list of its last render, the
   * calls its effect has made on the container, and the container's
   * properties once those calls have run to their end.
   */
  class DropDownAnimation {
    var lastDeps: Option<Deps>
    var calls: seq<Call>
    var style: Style

    constructor (initial: Style)
      ensures lastDeps == None && calls == [] && style == initial
    {
      lastDeps := None;
      calls := [];
      style := initial;
    }

    /** One render with the given props, followed by the effect if its dependencies changed. */
    method Render(trigger: bool, duration: Option<real>, reduced: Option<bool>)
      modifies this
      ensures lastDeps == Some(DepsOf(trigger, duration, reduced))
      ensures old(lastDeps) == Some(DepsOf(trigger, duration, reduced)) ==> calls == old(calls) && style == old(style)
      ensures var d := DepsOf(trigger, duration, reduced);
        if EffectRuns(old(lastDeps), d) && trigger then
          calls == old(calls) + [Decide(d).value] && style == EndOf(old(style), Decide(d).value)
          && Shown(style) && style.y == Px(0)
        else
          calls == old(calls) && style == old(style)
    {
      var d := DepsOf(trigger, duration, reduced);
      if EffectRuns(lastDeps, d) {
        var call := Decide(d);
        if call.Some? {
          TriggeredRunShowsDigit(style, d);
          calls := calls + [call.value];
          style := EndOf(style, call.value);
        }
      }
      lastDeps := Some(d);
    }
  }
}
