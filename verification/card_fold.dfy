/**
 * The card-fold executor (src/components/CardFoldAnimation.tsx): a physical
 * flip card built from an upper static card (always the `oldDigit` prop), a
 * bottom static card, and an overlay card clipped to one half that folds
 * down in two phases. The component state is the overlay's clip, the
 * overlay's digit and the bottom card's digit; gsap adds the overlay's
 * rotation about the horizontal axis.
 */
module CardFold {
  import opened Options
  import opened Effects

  /** Seconds the whole fold lasts when no duration is given. */
  const DefaultDuration: real := 0.75

  /** Which half of the overlay card is visible. */
  datatype Clip = TopHalf | BottomHalf

  /** The state the trigger effect and the phase callbacks overwrite. */
  datatype Cards = Cards(overlayClip: Clip, overlayDigit: string, bottomCardDigit: string, rotation: int)

  /** The instant path (duration exactly zero): the new digit at once, rotation untouched. */
  function Commit(c: Cards, newDigit: string): Cards {
    c.(overlayClip := BottomHalf, overlayDigit := newDigit, bottomCardDigit := newDigit)
  }

  /**
   * The state on mounting, and the animated path's reset: every card on the
   * old digit, the overlay lying flat and showing its top half.
   */
  function Reset(oldDigit: string): Cards {
    Cards(TopHalf, oldDigit, oldDigit, 0)
  }

  /**
   * Phase one's completion: the top half has folded down to -90 degrees; the
   * overlay switches to the bottom half of the new digit and is snapped to
   * +90 degrees, ready to fold up.
   */
  function FoldTopDone(c: Cards, newDigit: string): Cards {
    c.(overlayClip := BottomHalf, overlayDigit := newDigit, rotation := 90)
  }

  /** Phase two's completion: the overlay has folded up flat and the bottom card takes the new digit. */
  function FoldBottomDone(c: Cards, newDigit: string): Cards {
    c.(bottomCardDigit := newDigit, rotation := 0)
  }

  /** Each phase lasts half the duration. */
  function PhaseDuration(duration: real): (p: real)
    ensures p + p == duration
    ensures duration > 0.0 ==> 0.0 < p < duration
  {
    duration / 2.0
  }

  /** The effect's dependency list: trigger, duration (default applied) and the two digits. */
  datatype Deps = Deps(trigger: bool, duration: real, oldDigit: string, newDigit: string)

  /** What one run of the effect with a trigger does to the cards. */
  function Effect(c: Cards, d: Deps): Cards {
    if d.duration == 0.0 then Commit(c, d.newDigit) else Reset(d.oldDigit)
  }

  /** The terminal picture: both visible halves of the overlay and the bottom card show `digit`. */
  predicate ShowsDigit(c: Cards, digit: string) {
    c.overlayClip == BottomHalf && c.overlayDigit == digit && c.bottomCardDigit == digit
  }

  /** At rest the overlay never shows a turned top half. */
  predicate Flat(c: Cards) {
    c.overlayClip == TopHalf ==> c.rotation == 0
  }

  /** The full animated cycle: reset, fold the top down, fold the bottom up. */
  function FullCycle(oldDigit: string, newDigit: string): Cards {
    FoldBottomDone(FoldTopDone(Reset(oldDigit), newDigit), newDigit)
  }

  /**
   * After the full cycle both the overlay and the bottom card show the new
   * digit, the overlay lies flat, and the instant path shows the same
   * picture from any state.
   */
  lemma FullCycleShowsNewDigit(c: Cards, oldDigit: string, newDigit: string)
    ensures ShowsDigit(FullCycle(oldDigit, newDigit), newDigit)
    ensures FullCycle(oldDigit, newDigit).rotation == 0
    ensures ShowsDigit(Commit(c, newDigit), newDigit)
    ensures Commit(c, newDigit).(rotation := 0) == FullCycle(oldDigit, newDigit)
  {
  }

  /**
   * The phases in between: after the reset everything shows the old digit;
   * after phase one the overlay shows the new digit's bottom half while the
   * bottom card still shows the old digit.
   */
  lemma PhasesInBetween(oldDigit: string, newDigit: string)
    ensures Reset(oldDigit).overlayClip == TopHalf
    ensures Reset(oldDigit).overlayDigit == oldDigit && Reset(oldDigit).bottomCardDigit == oldDigit
    ensures var p := FoldTopDone(Reset(oldDigit), newDigit);
            p.overlayClip == BottomHalf && p.overlayDigit == newDigit && p.bottomCardDigit == oldDigit
            && p.rotation == 90
  {
  }

  /** Every step keeps the overlay flat whenever its top half is shown. */
  lemma StepsKeepFlat(c: Cards, d: Deps, digit: string)
    requires Flat(c)
    ensures Flat(Reset(digit)) && Flat(Effect(c, d))
    ensures Flat(FoldTopDone(c, digit)) && Flat(FoldBottomDone(c, digit))
  {
  }

  /** The four visible cards: height reference, upper, bottom, and overlay with its clip. */
  datatype Picture = Picture(reference: string, upper: string, bottom: string, overlay: string, overlayClip: Clip)

  /** What the component renders for props `oldDigit`, `newDigit` and state `c`. */
  function View(oldDigit: string, newDigit: string, c: Cards): (p: Picture)
    ensures p.upper == oldDigit && p.reference == newDigit
  {
    Picture(newDigit, oldDigit, c.bottomCardDigit, c.overlayDigit, c.overlayClip)
  }

  /** Every card of the picture shows `digit`. */
  predicate Uniform(p: Picture, digit: string) {
    p.reference == digit && p.upper == digit && p.bottom == digit && p.overlay == digit
  }

  /**
   * When the old and the new digit are the same, every step keeps every card
   * on that digit: no flip ever shows another one.
   */
  lemma SameDigitStaysUniform(c: Cards, digit: string, duration: real, trigger: bool)
    requires Uniform(View(digit, digit, c), digit)
    ensures Uniform(View(digit, digit, Reset(digit)), digit)
    ensures Uniform(View(digit, digit, Effect(c, Deps(trigger, duration, digit, digit))), digit)
    ensures Uniform(View(digit, digit, FoldTopDone(c, digit)), digit)
    ensures Uniform(View(digit, digit, FoldBottomDone(c, digit)), digit)
  {
  }

  /** The stage a timeline has reached. */
  datatype Stage = FoldingTop | FoldingBottom | Finished

  /** A running gsap timeline, with the new digit its callbacks captured. */
  datatype Timeline = Timeline(newDigit: string, phaseDuration: real, stage: Stage)

  /**
   * The mounted component: the props of its last render, the state, the
   * dependency list of the last render, and every timeline an effect run has
   * started (earlier ones are never stopped).
   */
  class CardFoldAnimation {
    var oldDigit: string
    var newDigit: string
    var overlayClip: Clip
    var overlayDigit: string
    var bottomCardDigit: string
    var rotation: int
    var lastDeps: Option<Deps>
    var timelines: seq<Timeline>

    function CardsNow(): Cards
      reads this
    {
      Cards(overlayClip, overlayDigit, bottomCardDigit, rotation)
    }

    ghost predicate Valid()
      reads this
    {
      Flat(CardsNow())
    }

    /** The state initialisers of the first render; its effect runs in the first `Render`. */
    constructor (oldDigit: string, newDigit: string)
      ensures Valid()
      ensures CardsNow() == Reset(oldDigit)
      ensures this.oldDigit == oldDigit && this.newDigit == newDigit
      ensures lastDeps == None && timelines == []
    {
      this.oldDigit, this.newDigit := oldDigit, newDigit;
      overlayClip, overlayDigit, bottomCardDigit, rotation := TopHalf, oldDigit, oldDigit, 0;
      lastDeps, timelines := None, [];
    }

    /** One render with the given props, followed by the trigger effect if its dependencies changed. */
    method Render(trigger: bool, duration: Option<real>, oldDigit: string, newDigit: string)
      requires Valid()
      modifies this
      ensures Valid()
      ensures this.oldDigit == oldDigit && this.newDigit == newDigit
      ensures old(lastDeps) == Some(Deps(trigger, duration.Or(DefaultDuration), oldDigit, newDigit)) ==>
                CardsNow() == old(CardsNow()) && timelines == old(timelines)
      ensures var d := Deps(trigger, duration.Or(DefaultDuration), oldDigit, newDigit);
        && lastDeps == Some(d)
        && (if EffectRuns(old(lastDeps), d) && trigger then
              && CardsNow() == Effect(old(CardsNow()), d)
              && timelines == old(timelines) +
                   (if d.duration == 0.0 then [] else [Timeline(newDigit, PhaseDuration(d.duration), FoldingTop)])
            else
              CardsNow() == old(CardsNow()) && timelines == old(timelines))
    {
      this.oldDigit, this.newDigit := oldDigit, newDigit;
      var d := Deps(trigger, duration.Or(DefaultDuration), oldDigit, newDigit);
      if EffectRuns(lastDeps, d) && trigger {
        if d.duration == 0.0 {
          overlayClip, overlayDigit, bottomCardDigit := BottomHalf, newDigit, newDigit;
        } else {
          overlayClip, overlayDigit, bottomCardDigit := TopHalf, oldDigit, oldDigit;
          rotation := 0;
          timelines := timelines + [Timeline(newDigit, PhaseDuration(d.duration), FoldingTop)];
        }
      }
      lastDeps := Some(d);
    }

    /** Timeline `k` finishes its first phase and runs its callback. */
    method CompleteFoldTop(k: nat)
      requires Valid() && k < |timelines| && timelines[k].stage == FoldingTop
      modifies this
      ensures Valid()
      ensures CardsNow() == FoldTopDone(old(CardsNow()), old(timelines[k].newDigit))
      ensures timelines == old(timelines[k := timelines[k].(stage := FoldingBottom)])
      ensures oldDigit == old(oldDigit) && newDigit == old(newDigit) && lastDeps == old(lastDeps)
    {
      overlayClip, overlayDigit := BottomHalf, timelines[k].newDigit;
      rotation := 90;
      timelines := timelines[k := timelines[k].(stage := FoldingBottom)];
    }

    /** Timeline `k` finishes its second phase and runs its callback. */
    method CompleteFoldBottom(k: nat)
      requires Valid() && k < |timelines| && timelines[k].stage == FoldingBottom
      modifies this
      ensures Valid()
      ensures CardsNow() == FoldBottomDone(old(CardsNow()), old(timelines[k].newDigit))
      ensures timelines == old(timelines[k := timelines[k].(stage := Finished)])
      ensures oldDigit == old(oldDigit) && newDigit == old(newDigit) && lastDeps == old(lastDeps)
    {
      rotation := 0;
      bottomCardDigit := timelines[k].newDigit;
      timelines := timelines[k := timelines[k].(stage := Finished)];
    }
  }
}
