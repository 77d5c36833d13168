/**
 * The part of the gsap animation library the flip executors use: `gsap.set`
 * (write properties at once) and `gsap.fromTo` (write the start properties,
 * then tween to the end properties over a duration). Only the properties the
 * components name are modelled; easing and the frames in between are not.
 */
module Tweens {
  import opened Options

  /** A vertical offset: plain pixels (a bare number) or a percentage string such as '-50%'. */
  datatype Length = Px(px: int) | Percent(percent: int)

  /** The properties a call names; a property left None is not touched. */
  datatype Vars = Vars(rotateX: Option<int>, opacity: Option<int>, y: Option<Length>, origin: Option<string>)

  /** One call a component makes on its container. */
  datatype Call =
    | Set(vars: Vars)
    | FromTo(from: Vars, to: Vars, duration: real)

  /** The animated properties of an element. */
  datatype Style = Style(rotateX: int, opacity: int, y: Length, origin: string)

  /** Writes the named properties of `v` over `s`. */
  function Apply(s: Style, v: Vars): Style {
    Style(v.rotateX.Or(s.rotateX), v.opacity.Or(s.opacity), v.y.Or(s.y), v.origin.Or(s.origin))
  }

  /** The element's properties when a call starts taking effect. */
  function StartOf(s: Style, c: Call): Style {
    match c
    case Set(v) => Apply(s, v)
    case FromTo(from, _, _) => Apply(s, from)
  }

  /** The element's properties once a call has run to its end. */
  function EndOf(s: Style, c: Call): Style {
    match c
    case Set(v) => Apply(s, v)
    case FromTo(from, to, _) => Apply(Apply(s, from), to)
  }

  /** The digit is fully visible: upright and opaque. */
  predicate Shown(s: Style) {
    s.rotateX == 0 && s.opacity == 1
  }

  /** The digit is invisible. */
  predicate Hidden(s: Style) {
    s.opacity == 0
  }

  /** Seconds a flip executor's animation lasts when no duration is given. */
  const DefaultDuration: real := 0.75

  /** The props a flip executor's effect depends on, defaults applied. */
  datatype Deps = Deps(trigger: bool, duration: real, reduced: bool)

  /** The dependency list of a render: duration defaults to 0.75 and reduced motion to false. */
  function DepsOf(trigger: bool, duration: Option<real>, reduced: Option<bool>): (d: Deps)
    ensures d.trigger == trigger
    ensures duration.None? ==> d.duration == DefaultDuration
    ensures duration.Some? ==> d.duration == duration.value
    ensures d.reduced == (reduced == Some(true))
  {
    Deps(trigger, duration.Or(DefaultDuration), reduced.Or(false))
  }
}
