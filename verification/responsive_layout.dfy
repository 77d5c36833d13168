/**
 * Responsive layout (src/utils/useResponsiveLayout.ts): the viewport class
 * and the scale factor of the clock face, both computed from the window
 * width, and the hook that recomputes them once resizing has paused.
 */
module ResponsiveLayout {
  import opened Options

  /** Widths below this are phones. */
  const MobileBreakpoint: int := 768

  /** Widths up to and including this are tablets. */
  const TabletBreakpoint: int := 1024

  /** The width assumed when there is no window (server rendering). */
  const FallbackWidth: int := 1920

  datatype Viewport = Mobile | Tablet | Desktop

  datatype Layout = Layout(viewport: Viewport, scaleFactor: real)

  function Min(a: real, b: real): real {
    if a <= b then a else b
  }

  function Max(a: real, b: real): real {
    if a >= b then a else b
  }

  /** `getViewportType`. */
  function ViewportFor(width: int): (v: Viewport)
    ensures v == Mobile <==> width < MobileBreakpoint
    ensures v == Tablet <==> MobileBreakpoint <= width <= TabletBreakpoint
    ensures v == Desktop <==> width > TabletBreakpoint
  {
    if width < MobileBreakpoint then Mobile
    else if width <= TabletBreakpoint then Tablet
    else Desktop
  }

  /** `calculateScaleFactor`: piecewise linear in the width, clamped at both ends. */
  function ScaleFactor(width: int): (r: real)
    ensures width < MobileBreakpoint ==> 0.4 <= r <= 0.6
    ensures MobileBreakpoint <= width <= TabletBreakpoint ==> 0.75 <= r <= 1.0
    ensures TabletBreakpoint < width <= 1920 ==> r == 1.0
    ensures width > 1920 ==> 1.0 < r <= 1.5
  {
    var w := width as real;
    if width < MobileBreakpoint then
      Max(0.4, Min(0.6, w / 1280.0))
    else if width <= TabletBreakpoint then
      var tabletRange := (TabletBreakpoint - MobileBreakpoint) as real;
      var position := w - MobileBreakpoint as real;
      0.75 + (position / tabletRange) * 0.25
    else if width <= 1920 then
      1.0
    else
      Min(1.5, 1.0 + ((w - 1920.0) / 1920.0) * 0.5)
  }

  /** A wider window never gets a smaller clock. */
  lemma ScaleFactorMonotone(a: int, b: int)
    requires a <= b
    ensures ScaleFactor(a) <= ScaleFactor(b)
  {
    var x, y := a as real, b as real;
    if b < MobileBreakpoint {
      assert x / 1280.0 <= y / 1280.0;
    } else if a >= MobileBreakpoint && b <= TabletBreakpoint {
      assert (x - 768.0) / 256.0 <= (y - 768.0) / 256.0;
    } else if a > 1920 {
      assert (x - 1920.0) / 1920.0 <= (y - 1920.0) / 1920.0;
    }
  }

  /** The breakpoints and the ends of the ramps. */
  lemma ScaleFactorAnchors()
    ensures ScaleFactor(0) == 0.4 && ScaleFactor(512) == 0.4 && ScaleFactor(767) == 767.0 / 1280.0
    ensures ScaleFactor(768) == 0.75 && ScaleFactor(896) == 0.875 && ScaleFactor(1024) == 1.0
    ensures ScaleFactor(1920) == 1.0 && ScaleFactor(2880) == 1.25
    ensures ScaleFactor(3840) == 1.5 && ScaleFactor(7680) == 1.5
  {
  }

  /** The viewport class can be read off the scale: below 0.75 exactly on phones. */
  lemma ViewportAgreesWithScale(width: int)
    ensures ViewportFor(width) == Mobile <==> ScaleFactor(width) < 0.75
    ensures ViewportFor(width) == Tablet ==> 0.75 <= ScaleFactor(width) <= 1.0
    ensures ViewportFor(width) == Desktop ==> 1.0 <= ScaleFactor(width)
  {
  }

  /** The layout for a width: viewport and scale from that same width. */
  function LayoutFor(width: int): (l: Layout)
    ensures l.viewport == ViewportFor(width) && l.scaleFactor == ScaleFactor(width)
  {
    Layout(ViewportFor(width), ScaleFactor(width))
  }

  /**
   * The hook's state: the layout it returns (with the width it was computed
   * from), whether a debounce timer is pending, and whether the resize
   * listener is still attached.
   */
  class ResponsiveLayoutHook {
    var layout: Layout
    ghost var width: int
    var timerPending: bool
    var listening: bool

    ghost predicate Valid()
      reads this
    {
      layout == LayoutFor(width)
    }

    /** Mounting: the layout of the current width, or of 1920 without a window; then the listener is attached. */
    constructor (windowWidth: Option<int>)
      ensures Valid()
      ensures width == windowWidth.Or(FallbackWidth)
      ensures listening && !timerPending
    {
      width := windowWidth.Or(FallbackWidth);
      layout := Layout(ViewportFor(windowWidth.Or(FallbackWidth)), ScaleFactor(windowWidth.Or(FallbackWidth)));
      timerPending := false;
      listening := true;
    }

    /** A resize event: any pending timer is cleared and a new one started; the layout is untouched. */
    method Resized()
      requires Valid()
      modifies this
      ensures Valid()
      ensures layout == old(layout) && width == old(width) && listening == old(listening)
      ensures timerPending == (old(timerPending) || listening)
    {
      if listening {
        timerPending := true;
      }
    }

    /** The debounce timer fires and reads the window width at that moment. */
    method TimerFired(innerWidth: int)
      requires Valid() && timerPending
      modifies this
      ensures Valid()
      ensures width == innerWidth && !timerPending && listening == old(listening)
    {
      layout := Layout(ViewportFor(innerWidth), ScaleFactor(innerWidth));
      width := innerWidth;
      timerPending := false;
    }

    /** Unmounting clears the timer and detaches the listener; the layout stays. */
    method Unmount()
      requires Valid()
      modifies this
      ensures Valid()
      ensures layout == old(layout) && !timerPending && !listening
    {
      timerPending := false;
      listening := false;
    }

    /** What the hook returns: the stored layout, whose viewport and scale agree. */
    method Current() returns (l: Layout)
      requires Valid()
      ensures l == layout
      ensures l.viewport == Mobile <==> l.scaleFactor < 0.75
    {
      l := layout;
      ViewportAgreesWithScale(width);
    }
  }
}
