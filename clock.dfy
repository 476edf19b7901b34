/**
 * The header clock (features/time.js): the current time as "YYYY/MM/DD HH:mm:ss" and a status
 * line that tells how long the current period or break still runs, or how long until the next
 * one starts. Clicking the status line switches between the normal timetable and the one with
 * consecutive 2nd and 3rd periods.
 */
module Clock {
  import opened Text
  import opened Constants

  /** The fields of a `Date` that the clock reads; `month0` is `getMonth()` (0 = January). */
  datatype Instant = Instant(year: nat, month0: nat, day: nat, hours: nat, minutes: nat, seconds: nat)

  /** The ranges `Date` guarantees for its fields. */
  predicate ValidInstant(t: Instant) {
    t.month0 < 12 && 1 <= t.day <= 31 && t.hours < 24 && t.minutes < 60 && t.seconds < 60
  }

  /** Positions `lo` and `lo + 1` of `r` are the two decimal digits of `v`. */
  predicate TwoDigitField(r: string, lo: nat, v: nat) {
    lo + 2 <= |r| && IsDigit(r[lo]) && IsDigit(r[lo + 1]) && 10 * DigitValue(r[lo]) + DigitValue(r[lo + 1]) == v
  }

  /** The two decimal digits of a value below 100. */
  function TwoDigits(v: nat): (r: string)
    requires v < 100
    ensures |r| == 2 && TwoDigitField(r, 0, v)
  {
    [DigitChar(v / 10), DigitChar(v % 10)]
  }

  /** `pad(v)` for a value below 100 is its two digits. */
  lemma Pad2Digits(v: nat)
    requires v < 100
    ensures Pad2(v) == TwoDigits(v)
  {
    var p := Pad2(v);
    assert p[..1] == [p[0]];
    assert DigitsValue(p) == 10 * DigitValue(p[0]) + DigitValue(p[1]);
    DigitCharOf(p[0]);
    DigitCharOf(p[1]);
  }

  /** A digit is the character of its value. */
  lemma DigitCharOf(c: char)
    requires IsDigit(c)
    ensures DigitChar(DigitValue(c)) == c
  {
  }

  /** The part of the timestamp after the year: "/MM/DD HH:mm:ss", each field padded with `pad`. */
  function TimestampTail(t: Instant): (r: string)
    requires ValidInstant(t)
    ensures |r| == 15
    ensures r[0] == '/' && r[3] == '/' && r[6] == ' ' && r[9] == ':' && r[12] == ':'
    ensures TwoDigitField(r, 1, t.month0 + 1) && TwoDigitField(r, 4, t.day) && TwoDigitField(r, 7, t.hours)
    ensures TwoDigitField(r, 10, t.minutes) && TwoDigitField(r, 13, t.seconds)
  {
    var mo, d, h, mi, s := TwoDigits(t.month0 + 1), TwoDigits(t.day), TwoDigits(t.hours), TwoDigits(t.minutes), TwoDigits(t.seconds);
    var r := "/" + mo + "/" + d + " " + h + ":" + mi + ":" + s;
    assert r[1..3] == mo && r[4..6] == d && r[7..9] == h && r[10..12] == mi && r[13..] == s;
    r
  }

  /**
   * `r` reads as the timestamp of `t`: the year's digits (`k` of them), then "/MM/DD HH:mm:ss"
   * with every field two digits long.
   */
  predicate IsTimestampOf(r: string, t: Instant, k: nat) {
    && |r| == k + 15
    && r[k] == '/' && r[k + 3] == '/' && r[k + 6] == ' ' && r[k + 9] == ':' && r[k + 12] == ':'
    && AllDigits(r[..k]) && DigitsValue(r[..k]) == t.year
    && TwoDigitField(r, k + 1, t.month0 + 1) && TwoDigitField(r, k + 4, t.day)
    && TwoDigitField(r, k + 7, t.hours) && TwoDigitField(r, k + 10, t.minutes)
    && TwoDigitField(r, k + 13, t.seconds)
  }

  /** `getFormattedTime(now)`: "YYYY/MM/DD HH:mm:ss" with two-digit, zero-padded fields. */
  function FormattedTime(t: Instant): (r: string)
    requires ValidInstant(t)
    ensures IsTimestampOf(r, t, |NatToString(t.year)|)
  {
    var y, tail := NatToString(t.year), TimestampTail(t);
    var r := y + tail;
    var k := |y|;
    assert r[..k] == y;
    r
  }

  /** What the status line says. `remaining` is in minutes. */
  datatype Status =
    | InPeriod(period: string, remaining: nat)
    | UntilNext(next: string, remaining: nat)
    | OutsideHours

  /** The text shown for a status. */
  function Message(st: Status): (r: string)
    ensures st.OutsideHours? <==> r == "授業時間外"
  {
    match st
    case InPeriod(p, n) =>
      var r := p + "終了まで残り" + NatToString(n) + "分";
      assert r[|r| - 1] == '分';
      r
    case UntilNext(p, n) =>
      var r := p + "開始まで残り" + NatToString(n) + "分";
      assert r[|r| - 1] == '分';
      r
    case OutsideHours => "授業時間外"
  }

  /** Every start and end of the timetable is an "HH:MM" string. */
  predicate Clocks(sched: seq<Period>) {
    forall i :: 0 <= i < |sched| ==> IsClock(sched[i].start) && IsClock(sched[i].end)
  }

  function StartOf(sched: seq<Period>, i: nat): nat
    requires Clocks(sched) && i < |sched|
  {
    ClockMinutes(sched[i].start)
  }

  function EndOf(sched: seq<Period>, i: nat): nat
    requires Clocks(sched) && i < |sched|
  {
    ClockMinutes(sched[i].end)
  }

  /** A timetable entry as the status loop reads it: its name, and its start and end in minutes since midnight. */
  datatype Slot = Slot(name: string, start: int, end: int)

  /** The entries of the timetable in minutes. */
  function Slots(sched: seq<Period>): (r: seq<Slot>)
    requires Clocks(sched)
    ensures |r| == |sched|
    ensures forall i :: 0 <= i < |sched| ==> r[i] == Slot(sched[i].name, StartOf(sched, i), EndOf(sched, i))
  {
    seq(|sched|, i requires 0 <= i < |sched| => Slot(sched[i].name, StartOf(sched, i), EndOf(sched, i)))
  }

  /** Every slot starts before it ends and ends no later than the next one starts. */
  predicate Increasing(sl: seq<Slot>) {
    && (forall i :: 0 <= i < |sl| ==> sl[i].start < sl[i].end)
    && (forall i :: 0 <= i < |sl| - 1 ==> sl[i].end <= sl[i + 1].start)
  }

  /**
   * The status the loop of `calculateStatusMessage` reaches from slot `i` on: the first slot
   * whose period contains `now`, or whose following gap contains it, decides.
   */
  function ScanFrom(sl: seq<Slot>, i: nat, now: int): (r: Status)
    requires i <= |sl|
    ensures r.InPeriod? || r.UntilNext? ==> r.remaining >= 1
    decreases |sl| - i
  {
    if i == |sl| then OutsideHours
    else if sl[i].start <= now < sl[i].end then InPeriod(sl[i].name, sl[i].end - now)
    else if i < |sl| - 1 && sl[i].end <= now < sl[i + 1].start then UntilNext(sl[i + 1].name, sl[i + 1].start - now)
    else ScanFrom(sl, i + 1, now)
  }

  /** The status the loop reaches from entry `i` of the timetable on. */
  function StatusFrom(sched: seq<Period>, i: nat, now: int): (r: Status)
    requires Clocks(sched) && i <= |sched|
    ensures r.InPeriod? || r.UntilNext? ==> r.remaining >= 1
  {
    ScanFrom(Slots(sched), i, now)
  }

  /** One pass of the loop: entry `i`'s period, then the gap after it, else the next entry. */
  lemma StatusFromStep(sched: seq<Period>, i: nat, now: int)
    requires Clocks(sched) && i < |sched|
    ensures StatusFrom(sched, i, now) ==
      if StartOf(sched, i) <= now < EndOf(sched, i) then InPeriod(sched[i].name, EndOf(sched, i) - now)
      else if i < |sched| - 1 && EndOf(sched, i) <= now < StartOf(sched, i + 1) then
        UntilNext(sched[i + 1].name, StartOf(sched, i + 1) - now)
      else StatusFrom(sched, i + 1, now)
  {
  }

  /** The status for `now` minutes after midnight. */
  function StatusAt(sched: seq<Period>, now: int): Status
    requires Clocks(sched)
  {
    StatusFrom(sched, 0, now)
  }

  lemma WellFormedClocks(sched: seq<Period>)
    requires WellFormed(sched)
    ensures Clocks(sched)
  {
    forall i | 0 <= i < |sched| ensures IsClock(sched[i].start) && IsClock(sched[i].end) {
      assert Ordered(sched[i]);
    }
  }

  /** A well-formed timetable reads as increasing slots. */
  lemma WellFormedSlots(sched: seq<Period>)
    requires WellFormed(sched)
    ensures Clocks(sched) && Increasing(Slots(sched))
  {
    WellFormedClocks(sched);
    var sl := Slots(sched);
    forall i | 0 <= i < |sl| ensures sl[i].start < sl[i].end {
      assert Ordered(sched[i]);
    }
    forall i | 0 <= i < |sl| - 1 ensures sl[i].end <= sl[i + 1].start {
      assert Precedes(sched[i], sched[i + 1]);
    }
  }

  /** A later slot starts no earlier than an earlier one ends. */
  lemma {:induction false} EndBeforeLaterStart(sl: seq<Slot>, i: nat, j: nat)
    requires Increasing(sl) && i < j < |sl|
    ensures sl[i].end <= sl[j].start
    decreases j - i
  {
    if i + 1 < j {
      EndBeforeLaterStart(sl, i + 1, j);
    }
  }

  lemma {:induction false} InPeriodFrom(sl: seq<Slot>, j: nat, i: nat, now: int)
    requires Increasing(sl) && j <= i < |sl|
    requires sl[i].start <= now < sl[i].end
    ensures ScanFrom(sl, j, now) == InPeriod(sl[i].name, sl[i].end - now)
    decreases i - j
  {
    if j < i {
      EndBeforeLaterStart(sl, j, i);
      if j + 1 < i {
        EndBeforeLaterStart(sl, j + 1, i);
      }
      InPeriodFrom(sl, j + 1, i, now);
    }
  }

  lemma {:induction false} InGapFrom(sl: seq<Slot>, j: nat, i: nat, now: int)
    requires Increasing(sl) && j <= i && i + 1 < |sl|
    requires sl[i].end <= now < sl[i + 1].start
    ensures ScanFrom(sl, j, now) == UntilNext(sl[i + 1].name, sl[i + 1].start - now)
    decreases i - j
  {
    if j < i {
      EndBeforeLaterStart(sl, j, i);
      if j + 1 < i {
        EndBeforeLaterStart(sl, j + 1, i);
      }
      InGapFrom(sl, j + 1, i, now);
    }
  }

  /** While a period (class or lunch) is running, the status names it and the minutes until it ends. */
  lemma StatusDuringPeriod(sched: seq<Period>, i: nat, now: int)
    requires WellFormed(sched) && i < |sched|
    requires Clocks(sched) && StartOf(sched, i) <= now < EndOf(sched, i)
    ensures StatusAt(sched, now) == InPeriod(sched[i].name, EndOf(sched, i) - now)
  {
    WellFormedSlots(sched);
    InPeriodFrom(Slots(sched), 0, i, now);
  }

  /** Between two periods, the status names the next one and the minutes until it starts. */
  lemma StatusBetweenPeriods(sched: seq<Period>, i: nat, now: int)
    requires WellFormed(sched) && i + 1 < |sched|
    requires Clocks(sched) && EndOf(sched, i) <= now < StartOf(sched, i + 1)
    ensures StatusAt(sched, now) == UntilNext(sched[i + 1].name, StartOf(sched, i + 1) - now)
  {
    WellFormedSlots(sched);
    InGapFrom(Slots(sched), 0, i, now);
  }

  /** From slot `j` on, no period and no gap contains `now`, so the status is "outside hours". */
  lemma {:induction false} NoneFrom(sl: seq<Slot>, j: nat, now: int)
    requires j <= |sl|
    requires forall i :: j <= i < |sl| ==> !(sl[i].start <= now < sl[i].end)
    requires forall i :: j <= i < |sl| - 1 ==> !(sl[i].end <= now < sl[i + 1].start)
    ensures ScanFrom(sl, j, now) == OutsideHours
    decreases |sl| - j
  {
    if j < |sl| {
      NoneFrom(sl, j + 1, now);
    }
  }

  /** Some period or gap from slot `j` on contains `now` when it lies between that slot's start and the last end. */
  lemma {:induction false} CoveredFrom(sl: seq<Slot>, j: nat, now: int)
    requires Increasing(sl) && j < |sl|
    requires sl[j].start <= now < sl[|sl| - 1].end
    ensures ScanFrom(sl, j, now) != OutsideHours
    decreases |sl| - j
  {
    if !(now < sl[j].end) && j < |sl| - 1 && !(now < sl[j + 1].start) {
      CoveredFrom(sl, j + 1, now);
    }
  }

  /** Over increasing slots the scan ends outside hours exactly when `now` is before the first start or at or after the last end. */
  lemma OutsideSlots(sl: seq<Slot>, now: int)
    requires Increasing(sl)
    ensures ScanFrom(sl, 0, now) == OutsideHours <==> (|sl| == 0 || now < sl[0].start || now >= sl[|sl| - 1].end)
  {
    if |sl| > 0 {
      var last := |sl| - 1;
      if now < sl[0].start {
        forall i | 0 < i < |sl| ensures sl[0].end <= sl[i].start {
          EndBeforeLaterStart(sl, 0, i);
        }
        NoneFrom(sl, 0, now);
      } else if now >= sl[last].end {
        forall i | 0 <= i < last ensures sl[i].end <= sl[last].start {
          EndBeforeLaterStart(sl, i, last);
        }
        NoneFrom(sl, 0, now);
      } else {
        CoveredFrom(sl, 0, now);
      }
    }
  }

  /**
   * The status is "outside hours" exactly when the timetable is empty, or `now` is before the
   * first period starts or at or after the last one ends.
   */
  lemma StatusOutsideHours(sched: seq<Period>, now: int)
    requires WellFormed(sched) && Clocks(sched)
    ensures StatusAt(sched, now) == OutsideHours <==>
      (|sched| == 0 || now < StartOf(sched, 0) || now >= EndOf(sched, |sched| - 1))
  {
    WellFormedSlots(sched);
    OutsideSlots(Slots(sched), now);
  }

  /** `calculateStatusMessage(now)` for the timetable `sched`: the status its loop finds, as text. */
  method CalculateStatusMessage(sched: seq<Period>, now: Instant) returns (msg: string)
    requires Clocks(sched)
    ensures msg == Message(StatusAt(sched, now.hours * 60 + now.minutes))
  {
    var status := FindStatus(sched, now.hours * 60 + now.minutes);
    msg := Message(status);
  }

  /** The loop of `calculateStatusMessage`: the first entry whose period or following gap holds `nowMinutes` decides. */
  method FindStatus(sched: seq<Period>, nowMinutes: int) returns (status: Status)
    requires Clocks(sched)
    ensures status == StatusAt(sched, nowMinutes)
  {
    var i := 0;
    while i < |sched|
      invariant 0 <= i <= |sched|
      invariant StatusFrom(sched, i, nowMinutes) == StatusAt(sched, nowMinutes)
    {
      StatusFromStep(sched, i, nowMinutes);
      var startMinutes := ClockMinutes(sched[i].start);
      var endMinutes := ClockMinutes(sched[i].end);
      if nowMinutes >= startMinutes && nowMinutes < endMinutes {
        var remaining := endMinutes - nowMinutes;
        return InPeriod(sched[i].name, remaining);
      }
      if i < |sched| - 1 {
        var nextStartMinutes := ClockMinutes(sched[i + 1].start);
        if nowMinutes >= endMinutes && nowMinutes < nextStartMinutes {
          var remainingToNext := nextStartMinutes - nowMinutes;
          return UntilNext(sched[i + 1].name, remainingToNext);
        }
      }
      i := i + 1;
    }
    return OutsideHours;
  }

  /** Which of the two timetables the status line uses (the source keeps a reference to one of the two arrays). */
  datatype Timetable = Normal | Continuous23

  function Periods(tt: Timetable): (r: seq<Period>)
    ensures Clocks(r)
  {
    ShownTimetableClocks(tt);
    match tt
    case Normal => TIME_SCHEDULE_NORMAL
    case Continuous23 => TIME_SCHEDULE_23_CONTINUOUS
  }

  /** Both timetables have readable times. */
  lemma ShownTimetableClocks(tt: Timetable)
    ensures tt.Normal? ==> Clocks(TIME_SCHEDULE_NORMAL)
    ensures tt.Continuous23? ==> Clocks(TIME_SCHEDULE_23_CONTINUOUS)
  {
    if tt.Normal? {
      NormalWellFormed();
      WellFormedClocks(TIME_SCHEDULE_NORMAL);
    } else {
      ContinuousWellFormed();
      WellFormedClocks(TIME_SCHEDULE_23_CONTINUOUS);
    }
  }

  /** The timetable a click switches to: the other one. */
  function Toggled(tt: Timetable): (r: Timetable)
    ensures r != tt && Periods(r) != Periods(tt)
  {
    TimetablesDifferOnlyAroundLunch();
    if tt == Normal then Continuous23 else Normal
  }

  /** Two clicks bring the status line back to the timetable it started on. */
  lemma ToggleTwiceRestores(tt: Timetable)
    ensures Toggled(Toggled(tt)) == tt
    ensures Periods(Toggled(Toggled(tt))) == Periods(tt)
  {
  }

  /** The two `<li>` elements of the header clock and the timetable the status line uses. */
  class ClockWidget {
    var currentSchedule: Timetable
    var timeText: string
    var remainingText: string

    /** The widget starts on the normal timetable with empty texts. */
    constructor ()
      ensures currentSchedule == Normal
      ensures timeText == "" && remainingText == ""
    {
      currentSchedule := Normal;
      timeText := "";
      remainingText := "";
    }

    /** `updateTime()`: both texts are recomputed for `now`; the timetable is unchanged. */
    method UpdateTime(now: Instant)
      requires ValidInstant(now)
      modifies this
      ensures currentSchedule == old(currentSchedule)
      ensures timeText == FormattedTime(now)
      ensures remainingText == Message(StatusAt(Periods(currentSchedule), now.hours * 60 + now.minutes))
    {
      var status := CalculateStatusMessage(Periods(currentSchedule), now);
      timeText, remainingText := FormattedTime(now), status;
    }

    /** The click handler: switch timetables, then update both texts at once. */
    method Click(now: Instant)
      requires ValidInstant(now)
      modifies this
      ensures currentSchedule == Toggled(old(currentSchedule))
      ensures timeText == FormattedTime(now)
      ensures remainingText == Message(StatusAt(Periods(currentSchedule), now.hours * 60 + now.minutes))
    {
      currentSchedule := Toggled(currentSchedule);
      UpdateTime(now);
    }
  }
}
