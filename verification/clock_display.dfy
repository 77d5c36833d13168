/**
 * The per-digit change detector of the clock face (src/components/ClockDisplay.tsx).
 * Once per second `updateTime` pads the stored and the fresh hours and minutes
 * to two characters, compares the four display positions one character at a
 * time, raises a one-shot animate flag for every position that differs (and
 * schedules that flag's reset 100 ms later), and stores the fresh time.
 */
module ClockDisplay {
  import opened TimeSync

  /** The `time` state: the fields `updateTime` stores (seconds are not tracked). */
  datatype ClockTime = ClockTime(hours: nat, minutes: nat, date: string)

  /** The four display positions, in the order `updateTime` examines them. */
  datatype Slot = HourTens | HourOnes | MinuteTens | MinuteOnes

  /** The initial `time` state: 00:00 with an empty date. */
  const Midnight := ClockTime(0, 0, "")

  /**
   * The four characters the positions are judged by: the first two characters
   * of the padded hours, then of the padded minutes.
   */
  function Face(t: ClockTime): (f: string)
    ensures |f| == 4
  {
    FormatTimeValue(t.hours)[..2] + FormatTimeValue(t.minutes)[..2]
  }

  lemma FaceChars(t: ClockTime)
    ensures Face(t)[0] == FormatTimeValue(t.hours)[0] && Face(t)[1] == FormatTimeValue(t.hours)[1]
    ensures Face(t)[2] == FormatTimeValue(t.minutes)[0] && Face(t)[3] == FormatTimeValue(t.minutes)[1]
  {
  }

  /** Whether the characters at position `s` of two faces differ. */
  predicate DiffersAt(a: string, b: string, s: Slot)
    requires |a| == 4 && |b| == 4
  {
    a[Rank(s)] != b[Rank(s)]
  }

  /** Whether a tick from `prev` to `next` animates position `s`. */
  predicate Changed(prev: ClockTime, next: ClockTime, s: Slot) {
    DiffersAt(Face(prev), Face(next), s)
  }

  /** The position of a slot in the examination order. */
  function Rank(s: Slot): nat {
    match s
    case HourTens => 0
    case HourOnes => 1
    case MinuteTens => 2
    case MinuteOnes => 3
  }

  /** The reset one comparison schedules: `[s]` when that position differs, nothing otherwise. */
  function Pulse(differ: bool, s: Slot): seq<Slot> {
    if differ then [s] else []
  }

  /** The resets of the four comparisons, in the order `updateTime` makes them. */
  function Pulses(c0: bool, c1: bool, c2: bool, c3: bool): seq<Slot> {
    Pulse(c0, HourTens) + (Pulse(c1, HourOnes) + (Pulse(c2, MinuteTens) + Pulse(c3, MinuteOnes)))
  }

  /** Each differing position is scheduled exactly once, in display order. */
  lemma PulsesExact(c0: bool, c1: bool, c2: bool, c3: bool)
    ensures forall s :: s in Pulses(c0, c1, c2, c3) <==>
              match s
              case HourTens => c0
              case HourOnes => c1
              case MinuteTens => c2
              case MinuteOnes => c3
    ensures forall i, j :: 0 <= i < j < |Pulses(c0, c1, c2, c3)| ==>
              Rank(Pulses(c0, c1, c2, c3)[i]) < Rank(Pulses(c0, c1, c2, c3)[j])
  {
  }

  /** The positions a tick raises, in the order `updateTime` raises them. */
  function Raised(prev: ClockTime, next: ClockTime): seq<Slot> {
    Pulses(Changed(prev, next, HourTens), Changed(prev, next, HourOnes),
           Changed(prev, next, MinuteTens), Changed(prev, next, MinuteOnes))
  }

  lemma Regroup<T>(a: seq<T>, r0: seq<T>, r1: seq<T>, r2: seq<T>, r3: seq<T>)
    ensures a + r0 + r1 + r2 + r3 == a + (r0 + (r1 + (r2 + r3)))
  {
  }

  /** A tick raises exactly the changed positions, each once, in display order. */
  lemma RaisedExactlyChanged(prev: ClockTime, next: ClockTime)
    ensures forall s :: s in Raised(prev, next) <==> Changed(prev, next, s)
    ensures forall i, j :: 0 <= i < j < |Raised(prev, next)| ==>
              Rank(Raised(prev, next)[i]) < Rank(Raised(prev, next)[j])
  {
    var c0, c1 := Changed(prev, next, HourTens), Changed(prev, next, HourOnes);
    var c2, c3 := Changed(prev, next, MinuteTens), Changed(prev, next, MinuteOnes);
    PulsesExact(c0, c1, c2, c3);
    assert Raised(prev, next) == Pulses(c0, c1, c2, c3);
    forall s ensures s in Raised(prev, next) <==> Changed(prev, next, s) {
      match s
      case HourTens =>
      case HourOnes =>
      case MinuteTens =>
      case MinuteOnes =>
    }
  }

  /** `updateTime`'s four comparisons are the four face positions. */
  lemma ComparisonsAreFace(prev: ClockTime, next: ClockTime)
    ensures Changed(prev, next, HourTens) == (FormatTimeValue(prev.hours)[0] != FormatTimeValue(next.hours)[0])
    ensures Changed(prev, next, HourOnes) == (FormatTimeValue(prev.hours)[1] != FormatTimeValue(next.hours)[1])
    ensures Changed(prev, next, MinuteTens) == (FormatTimeValue(prev.minutes)[0] != FormatTimeValue(next.minutes)[0])
    ensures Changed(prev, next, MinuteOnes) == (FormatTimeValue(prev.minutes)[1] != FormatTimeValue(next.minutes)[1])
  {
    FaceChars(prev);
    FaceChars(next);
  }

  /** The decimal digit a position shows, for fields of at most two digits. */
  function Digit(t: ClockTime, s: Slot): nat {
    match s
    case HourTens => t.hours / 10
    case HourOnes => t.hours % 10
    case MinuteTens => t.minutes / 10
    case MinuteOnes => t.minutes % 10
  }

  /** For clock values, a position animates exactly when its decimal digit differs. */
  lemma ChangedIffDigitDiffers(prev: ClockTime, next: ClockTime, s: Slot)
    requires prev.hours <= 99 && prev.minutes <= 99
    requires next.hours <= 99 && next.minutes <= 99
    ensures Changed(prev, next, s) <==> Digit(prev, s) != Digit(next, s)
  {
    FormatTwoDigitValue(prev.hours);
    FormatTwoDigitValue(next.hours);
    FormatTwoDigitValue(prev.minutes);
    FormatTwoDigitValue(next.minutes);
    var a, b := FormatTimeValue(prev.hours), FormatTimeValue(next.hours);
    var c, d := FormatTimeValue(prev.minutes), FormatTimeValue(next.minutes);
    assert DigitValue(a[0]) == prev.hours / 10 && DigitValue(a[1]) == prev.hours % 10;
    assert DigitValue(b[0]) == next.hours / 10 && DigitValue(b[1]) == next.hours % 10;
    assert DigitValue(c[0]) == prev.minutes / 10 && DigitValue(c[1]) == prev.minutes % 10;
    assert DigitValue(d[0]) == next.minutes / 10 && DigitValue(d[1]) == next.minutes % 10;
  }

  /**
   * For clock values, a tick raises some flag exactly when the hours or the
   * minutes differ; the date never matters.
   */
  lemma SomeRaisedIffTimeChanged(prev: ClockTime, next: ClockTime)
    requires prev.hours <= 99 && prev.minutes <= 99
    requires next.hours <= 99 && next.minutes <= 99
    ensures Raised(prev, next) != [] <==> prev.hours != next.hours || prev.minutes != next.minutes
  {
    ChangedIffDigitDiffers(prev, next, HourTens);
    ChangedIffDigitDiffers(prev, next, HourOnes);
    ChangedIffDigitDiffers(prev, next, MinuteTens);
    ChangedIffDigitDiffers(prev, next, MinuteOnes);
    if prev.hours != next.hours {
      assert Changed(prev, next, HourTens) || Changed(prev, next, HourOnes);
    }
    if prev.minutes != next.minutes {
      assert Changed(prev, next, MinuteTens) || Changed(prev, next, MinuteOnes);
    }
  }

  /** A tick to the time already stored raises nothing, whatever the value. */
  lemma SameTimeRaisesNothing(prev: ClockTime, next: ClockTime)
    requires prev.hours == next.hours && prev.minutes == next.minutes
    ensures Raised(prev, next) == []
  {
  }

  /** Digits are judged one by one: 09 to 10 animates both hour positions. */
  lemma HourTensAndOnesIndependent(m: nat, d: string, d': string)
    ensures Raised(ClockTime(9, m, d), ClockTime(10, m, d')) == [HourTens, HourOnes]
  {
  }

  /** 09:59 to 10:00 animates all four positions. */
  lemma AllFourRollOver(d: string, d': string)
    ensures Raised(ClockTime(9, 59, d), ClockTime(10, 0, d')) == [HourTens, HourOnes, MinuteTens, MinuteOnes]
  {
  }

  /** 10:59 to 11:00 keeps the hour tens: only three positions animate. */
  lemma SharedTensNotRaised(d: string, d': string)
    ensures Raised(ClockTime(10, 59, d), ClockTime(11, 0, d')) == [HourOnes, MinuteTens, MinuteOnes]
  {
  }

  /**
   * The stored time starts at 00:00, so the first `updateTime` after mounting
   * animates every position whose digit is not zero.
   */
  lemma FirstTickFromMidnight(t: ClockTime)
    requires t.hours <= 99 && t.minutes <= 99
    ensures forall s :: Changed(Midnight, t, s) <==> Digit(t, s) != 0
  {
    forall s ensures Changed(Midnight, t, s) <==> Digit(t, s) != 0 {
      ChangedIffDigitDiffers(Midnight, t, s);
    }
  }

  /**
   * The component state: the stored time, the four animate flags and the
   * 100 ms reset timers that are still pending, oldest first.
   */
  class Clock {
    var time: ClockTime
    var animateHourTens: bool
    var animateHourOnes: bool
    var animateMinuteTens: bool
    var animateMinuteOnes: bool
    var pendingResets: seq<Slot>

    /** The animate flag of a position. */
    function Flag(s: Slot): bool
      reads this
    {
      match s
      case HourTens => animateHourTens
      case HourOnes => animateHourOnes
      case MinuteTens => animateMinuteTens
      case MinuteOnes => animateMinuteOnes
    }

    /** Flags are pulses: every raised flag has a reset still to come. */
    ghost predicate Valid()
      reads this
    {
      forall s :: Flag(s) ==> s in pendingResets
    }

    constructor ()
      ensures Valid()
      ensures time == Midnight && pendingResets == []
      ensures forall s :: !Flag(s)
    {
      time := Midnight;
      animateHourTens, animateHourOnes := false, false;
      animateMinuteTens, animateMinuteOnes := false, false;
      pendingResets := [];
    }

    /**
     * The flag-raising part of `updateTime`, given the outcome of its four
     * comparisons: each differing position raises its flag and schedules
     * its reset, in display order.
     */
    method RaiseFlags(c0: bool, c1: bool, c2: bool, c3: bool)
      requires Valid()
      modifies this
      ensures Valid()
      ensures time == old(time)
      ensures animateHourTens == (old(animateHourTens) || c0)
      ensures animateHourOnes == (old(animateHourOnes) || c1)
      ensures animateMinuteTens == (old(animateMinuteTens) || c2)
      ensures animateMinuteOnes == (old(animateMinuteOnes) || c3)
      ensures pendingResets == old(pendingResets) + Pulses(c0, c1, c2, c3)
    {
      ghost var resets0 := pendingResets;
      if c0 {
        animateHourTens := true;
        pendingResets := pendingResets + [HourTens];
      }
      assert pendingResets == resets0 + Pulse(c0, HourTens);
      if c1 {
        animateHourOnes := true;
        pendingResets := pendingResets + [HourOnes];
      }
      assert pendingResets == resets0 + Pulse(c0, HourTens) + Pulse(c1, HourOnes);
      if c2 {
        animateMinuteTens := true;
        pendingResets := pendingResets + [MinuteTens];
      }
      assert pendingResets == resets0 + Pulse(c0, HourTens) + Pulse(c1, HourOnes) + Pulse(c2, MinuteTens);
      if c3 {
        animateMinuteOnes := true;
        pendingResets := pendingResets + [MinuteOnes];
      }
      Regroup(resets0, Pulse(c0, HourTens), Pulse(c1, HourOnes), Pulse(c2, MinuteTens), Pulse(c3, MinuteOnes));
    }

    /** `updateTime` with the freshly read time `next`. */
    method Tick(next: ClockTime)
      requires Valid()
      modifies this
      ensures Valid()
      ensures time == next
      ensures animateHourTens == (old(animateHourTens) || Changed(old(time), next, HourTens))
      ensures animateHourOnes == (old(animateHourOnes) || Changed(old(time), next, HourOnes))
      ensures animateMinuteTens == (old(animateMinuteTens) || Changed(old(time), next, MinuteTens))
      ensures animateMinuteOnes == (old(animateMinuteOnes) || Changed(old(time), next, MinuteOnes))
      ensures pendingResets == old(pendingResets) + Raised(old(time), next)
    {
      var oldHourString := FormatTimeValue(time.hours);
      var newHourString := FormatTimeValue(next.hours);
      var oldMinuteString := FormatTimeValue(time.minutes);
      var newMinuteString := FormatTimeValue(next.minutes);
      ComparisonsAreFace(time, next);
      RaiseFlags(oldHourString[0] != newHourString[0], oldHourString[1] != newHourString[1],
                 oldMinuteString[0] != newMinuteString[0], oldMinuteString[1] != newMinuteString[1]);
      time := next;
    }

    /** The oldest pending 100 ms timer fires and lowers its flag. */
    method FireReset() returns (s: Slot)
      requires Valid() && pendingResets != []
      modifies this
      ensures Valid()
      ensures s == old(pendingResets[0]) && pendingResets == old(pendingResets[1..])
      ensures !Flag(s) && time == old(time)
      ensures forall o :: o != s ==> Flag(o) == old(Flag(o))
    {
      s := pendingResets[0];
      ghost var rest := pendingResets[1..];
      assert forall o :: o in pendingResets && o != s ==> o in rest;
      match s {
        case HourTens => animateHourTens := false;
        case HourOnes => animateHourOnes := false;
        case MinuteTens => animateMinuteTens := false;
        case MinuteOnes => animateMinuteOnes := false;
      }
      pendingResets := pendingResets[1..];
    }

    /** Once no reset is pending, no flag is raised. */
    method IsSettled() returns (settled: bool)
      requires Valid()
      ensures settled <==> pendingResets == []
      ensures settled ==> forall s :: !Flag(s)
    {
      settled := pendingResets == [];
    }
  }
}
