/**
 * The animation dispatcher (src/components/AnimationHandler.tsx): it reads
 * the reduced-motion preference, resolves the optional digit props, and
 * hands one digit position to the card-fold, drop-down or classic-flip
 * executor with the duration and content it should use.
 */
module AnimationHandler {
  import opened Options
  import CardFold
  import ClassicFlip
  import DropDown
  import Tweens

  /** Seconds an animation lasts when no duration is given. */
  const DefaultDuration: real := 0.75

  /** The three animation styles a user can choose. */
  datatype FlipStyle = ClassicFlipStyle | DropDownStyle | CardFoldStyle

  /** What was passed as children: nothing, a single valid element, or some other node. */
  datatype Children = NoChildren | Element | OtherNode

  /**
   * The props of one render. `hasRenderContent` says whether a render
   * function was passed; the function itself is not modelled, only where
   * it is applied.
   */
  datatype Props = Props(
    trigger: bool,
    duration: Option<real>,
    flipStyle: Option<FlipStyle>,
    oldDigit: Option<string>,
    newDigit: Option<string>,
    digit: Option<string>,
    hasRenderContent: bool,
    children: Children)

  /** The duration passed to every executor: none at all under reduced motion. */
  function EffectiveDuration(p: Props, reduced: bool): (r: real)
    ensures reduced ==> r == 0.0
    ensures !reduced && p.duration.None? ==> r == DefaultDuration
    ensures !reduced && p.duration.Some? ==> r == p.duration.value
  {
    if reduced then 0.0 else p.duration.Or(DefaultDuration)
  }

  /** Whether any of the three digit props was given. */
  predicate AnyDigit(p: Props) {
    p.digit.Some? || p.newDigit.Some? || p.oldDigit.Some?
  }

  /** `digit`, else `newDigit`, else `oldDigit`, else the empty string. */
  function ResolvedDigit(p: Props): (r: string)
    ensures p.digit.Some? ==> r == p.digit.value
    ensures p.digit.None? && p.newDigit.Some? ==> r == p.newDigit.value
    ensures p.digit.None? && p.newDigit.None? && p.oldDigit.Some? ==> r == p.oldDigit.value
    ensures !AnyDigit(p) ==> r == ""
  {
    p.digit.Or(p.newDigit.Or(p.oldDigit.Or("")))
  }

  /** The old digit card-fold receives: `oldDigit`, else the resolved digit. */
  function SafeOldDigit(p: Props): string {
    p.oldDigit.Or(ResolvedDigit(p))
  }

  /** The new digit card-fold receives: `newDigit`, else `digit`, else the safe old digit. */
  function SafeNewDigit(p: Props): string {
    p.newDigit.Or(p.digit.Or(SafeOldDigit(p)))
  }

  /**
   * Explicit digits are passed through; a lone `digit` becomes both the old
   * and the new digit, so card-fold shows it without flipping; with no digit
   * at all both are empty.
   */
  lemma SafeDigits(p: Props)
    ensures p.oldDigit.Some? ==> SafeOldDigit(p) == p.oldDigit.value
    ensures p.newDigit.Some? ==> SafeNewDigit(p) == p.newDigit.value
    ensures p.oldDigit.None? && p.newDigit.None? && p.digit.Some? ==>
              SafeOldDigit(p) == p.digit.value && SafeNewDigit(p) == p.digit.value
    ensures p.oldDigit.None? && p.newDigit.Some? && p.digit.None? ==> SafeOldDigit(p) == p.newDigit.value
    ensures !AnyDigit(p) ==> SafeOldDigit(p) == "" && SafeNewDigit(p) == ""
  {
  }

  /** How card-fold renders a digit it is given. */
  datatype CardRender =
    | CustomRender   // the caller's render function
    | DigitSpans     // the digit in a span
    | ClonedChild    // the child element, cloned with the digit as its content

  /** What ends up on screen for one digit. */
  datatype Content =
    | Rendered(digit: string)   // the caller's render function applied to the digit
    | Span(digit: string)       // the digit in a span
    | Cloned(digit: string)     // the child element with the digit in a span as its content
    | ChildrenAsGiven           // the children, untouched

  /** The content card-fold shows for `digit` with render mode `r`. */
  function CardFace(r: CardRender, digit: string): (c: Content)
    ensures r.CustomRender? ==> c == Rendered(digit)
    ensures r.DigitSpans? ==> c == Span(digit)
    ensures r.ClonedChild? && digit == "" ==> c == ChildrenAsGiven
    ensures r.ClonedChild? && digit != "" ==> c == Cloned(digit)
  {
    match r
    case CustomRender => Rendered(digit)
    case DigitSpans => Span(digit)
    case ClonedChild => if digit == "" then ChildrenAsGiven else Cloned(digit)
  }

  /** The executor a render hands the digit position to, with its arguments. */
  datatype Executor =
    | CardFoldExec(trigger: bool, duration: real, oldDigit: string, newDigit: string, render: CardRender)
    | PlainContainer
    | DropDownExec(trigger: bool, duration: real, reduced: bool, content: Content)
    | ClassicExec(trigger: bool, duration: real, reduced: bool, content: Content)

  /** The content of the non-card-fold styles: render function, else a span if any digit, else children. */
  function ContentOf(p: Props): (c: Content)
    ensures p.hasRenderContent ==> c == Rendered(ResolvedDigit(p))
    ensures !p.hasRenderContent && AnyDigit(p) ==> c == Span(ResolvedDigit(p))
    ensures !p.hasRenderContent && !AnyDigit(p) ==> c == ChildrenAsGiven
  {
    if p.hasRenderContent then Rendered(ResolvedDigit(p))
    else if AnyDigit(p) then Span(ResolvedDigit(p))
    else ChildrenAsGiven
  }

  /** One render of the handler, given the current reduced-motion preference. */
  function Dispatch(p: Props, reduced: bool): (e: Executor)
    ensures (e.CardFoldExec? || e.PlainContainer?) <==> p.flipStyle == Some(CardFoldStyle)
    ensures e.PlainContainer? <==>
              p.flipStyle == Some(CardFoldStyle) && !p.hasRenderContent && !AnyDigit(p) && p.children != Element
    ensures e.DropDownExec? <==> p.flipStyle == Some(DropDownStyle)
    ensures e.ClassicExec? <==> p.flipStyle != Some(CardFoldStyle) && p.flipStyle != Some(DropDownStyle)
    ensures !e.PlainContainer? ==> e.trigger == p.trigger && e.duration == EffectiveDuration(p, reduced)
    ensures e.CardFoldExec? ==> e.oldDigit == SafeOldDigit(p) && e.newDigit == SafeNewDigit(p)
    ensures e.CardFoldExec? ==>
              e.render == (if p.hasRenderContent then CustomRender
                           else if AnyDigit(p) then DigitSpans
                           else ClonedChild)
    ensures (e.DropDownExec? || e.ClassicExec?) ==> e.reduced == reduced && e.content == ContentOf(p)
  {
    var duration := EffectiveDuration(p, reduced);
    var style := p.flipStyle.Or(ClassicFlipStyle);
    match style
    case CardFoldStyle =>
      var oldDigit, newDigit := SafeOldDigit(p), SafeNewDigit(p);
      if p.hasRenderContent then CardFoldExec(p.trigger, duration, oldDigit, newDigit, CustomRender)
      else if AnyDigit(p) then CardFoldExec(p.trigger, duration, oldDigit, newDigit, DigitSpans)
      else if p.children == Element then CardFoldExec(p.trigger, duration, oldDigit, newDigit, ClonedChild)
      else PlainContainer
    case DropDownStyle => DropDownExec(p.trigger, duration, reduced, ContentOf(p))
    case ClassicFlipStyle => ClassicExec(p.trigger, duration, reduced, ContentOf(p))
  }

  /**
   * The cloning fallback is only chosen when no digit prop is given, so both
   * digits the dispatcher passes it are empty and each renders as the
   * children as given. (Cards still holding a digit from an earlier render
   * are not covered: the card-fold state survives the change of props.)
   */
  lemma ClonedChildShowsChildrenOnly(p: Props, reduced: bool)
    requires Dispatch(p, reduced).CardFoldExec? && Dispatch(p, reduced).render == ClonedChild
    ensures var e := Dispatch(p, reduced);
            CardFace(e.render, e.oldDigit) == ChildrenAsGiven && CardFace(e.render, e.newDigit) == ChildrenAsGiven
  {
    SafeDigits(p);
  }

  /**
   * Under reduced motion card-fold takes its instant path: one triggered
   * effect run shows the new digit at once, with no timeline started.
   */
  lemma ReducedMotionCardFoldIsInstant(p: Props, c: CardFold.Cards)
    requires p.flipStyle == Some(CardFoldStyle) && p.trigger
    requires !Dispatch(p, true).PlainContainer?
    ensures var e := Dispatch(p, true);
            var d := CardFold.Deps(e.trigger, e.duration, e.oldDigit, e.newDigit);
            d.duration == 0.0 && CardFold.ShowsDigit(CardFold.Effect(c, d), SafeNewDigit(p))
  {
  }

  /**
   * Under reduced motion the flip executors, which receive the flag and a
   * zero duration, write their end state at once instead of tweening.
   */
  lemma ReducedMotionNoTween(p: Props)
    requires p.trigger
    ensures var e := Dispatch(p, true);
            e.DropDownExec? ==> DropDown.Decide(Tweens.Deps(e.trigger, e.duration, e.reduced)).value.Set?
    ensures var e := Dispatch(p, true);
            e.ClassicExec? ==> ClassicFlip.Decide(Tweens.Deps(e.trigger, e.duration, e.reduced)).value.Set?
  {
  }

  /** The component: the reduced-motion preference its media-query effect keeps up to date. */
  class Handler {
    var prefersReducedMotion: bool

    /** Before the media query is first read, motion is assumed wanted. */
    constructor ()
      ensures !prefersReducedMotion
    {
      prefersReducedMotion := false;
    }

    /** The media query is read on mount, and again each time it reports a change. */
    method MediaQueryReports(matches: bool)
      modifies this
      ensures prefersReducedMotion == matches
    {
      prefersReducedMotion := matches;
    }

    /** One render: the executor chosen for `p` under the current preference. */
    method Render(p: Props) returns (e: Executor)
      ensures e == Dispatch(p, prefersReducedMotion)
      ensures prefersReducedMotion && !e.PlainContainer? ==> e.duration == 0.0
    {
      e := Dispatch(p, prefersReducedMotion);
    }
  }
}
