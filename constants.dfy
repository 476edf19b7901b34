/**
 * The shared constant tables of the content scripts (features/modules/constants.js):
 * LMS and single-sign-on URLs, the session-ID pattern, the attendance schedule, the weekday
 * labels and the two timetables of the header clock.
 */
module Constants {
  import opened Text

  /** One timetable entry; `start` and `end` are "HH:MM" strings, `name` is the source's `label`. */
  datatype Period = Period(start: string, end: string, name: string)

  const LMS_URL: string := "https://study.ns.kogakuin.ac.jp/"
  const LMS_HOME_URL: string := LMS_URL + "lms/homeHoml/"
  const LMS_ERROR_URL: string := LMS_URL + "lms/error/"
  const LMS_LOGIN_URL: string := LMS_URL + "lms/lginLgir/"
  const KU_SSO: string := "https://slink.secioss.com/"
  const SSO_PRELOGIN_URL: string := KU_SSO + "pub/prelogin.cgi"
  const SSO_LOGIN_URL: string := KU_SSO + "pub/login.cgi"
  const SSO_TIMEOUT_URL: string := KU_SSO + "sso/timeout.cgi"

  /** The literal part of `SID_REGEX`, /SID=([a-zA-Z0-9]+)/. */
  const SID_PREFIX: string := "SID="

  const SCHEDULE: seq<Period> := [
    Period("10:10", "11:40", "2限"),
    Period("12:30", "14:00", "3限"),
    Period("14:10", "15:40", "4限"),
    Period("15:50", "17:20", "5限")
  ]

  /** Indexed like `Date.prototype.getDay()`: 0 is Sunday. */
  const DAY_LABELS: seq<string> := ["日曜日", "月曜日", "火曜日", "水曜日", "木曜日", "金曜日", "土曜日"]

  /** localStorage keys of the automatic-attendance steps. */
  const ATTEND_RELOAD_FLAG: string := "klpf-attend-reload"
  const ATTEND_LESSON_CLICK_FLAG: string := "klpf-attend-lesson-click"
  const ATTEND_SUBMIT_BUTTON_FLAG: string := "klpf-attend-submit-button"
  const ATTEND_OK_BUTTON_FLAG: string := "klpf-attend-ok-button"
  const ATTEND_MEET_JOIN_FLAG: string := "klpf-attend-meet-join"

  const ATTEND_CHECK_INTERVAL_MS: nat := 3000
  /** How many minutes before a period starts the attendance sequence runs. */
  const ATTEND_EXECUTION_MARGIN_MIN: nat := 3
  const SESSION_KEEP_ALIVE_INTERVAL_MS: nat := 90 * 60 * 1000
  const PAGE_RELOAD_INTERVAL_MS: nat := 30 * 60 * 1000

  const TIME_SCHEDULE_NORMAL: seq<Period> := [
    Period("08:30", "10:00", "1限"),
    Period("10:10", "11:40", "2限"),
    Period("11:41", "12:29", "昼休み"),
    Period("12:30", "14:00", "3限"),
    Period("14:10", "15:40", "4限"),
    Period("15:50", "17:20", "5限"),
    Period("17:30", "19:00", "6限")
  ]

  const TIME_SCHEDULE_23_CONTINUOUS: seq<Period> := [
    Period("08:30", "10:00", "1限"),
    Period("10:10", "11:40", "2限"),
    Period("11:50", "13:20", "3限"),
    Period("13:21", "14:09", "昼休み"),
    Period("14:10", "15:40", "4限"),
    Period("15:50", "17:20", "5限"),
    Period("17:30", "19:00", "6限")
  ]

  /** A well-formed "HH:MM" string. */
  predicate IsClock(s: string) {
    |s| == 5 && IsDigit(s[0]) && IsDigit(s[1]) && s[2] == ':' && IsDigit(s[3]) && IsDigit(s[4])
  }

  /** Minutes since midnight: `const [h, m] = s.split(':').map(Number); h * 60 + m`. */
  function ClockMinutes(s: string): nat
    requires IsClock(s)
  {
    (10 * DigitValue(s[0]) + DigitValue(s[1])) * 60 + 10 * DigitValue(s[3]) + DigitValue(s[4])
  }

  /** A period with readable times that starts before it ends. */
  predicate Ordered(p: Period) {
    IsClock(p.start) && IsClock(p.end) && ClockMinutes(p.start) < ClockMinutes(p.end)
  }

  /** `p` ends no later than `q` starts. */
  predicate Precedes(p: Period, q: Period) {
    IsClock(p.end) && IsClock(q.start) && ClockMinutes(p.end) <= ClockMinutes(q.start)
  }

  /** A timetable of non-empty periods in increasing, non-overlapping order. */
  predicate WellFormed(sched: seq<Period>) {
    && (forall i :: 0 <= i < |sched| ==> Ordered(sched[i]))
    && (forall i :: 0 <= i < |sched| - 1 ==> Precedes(sched[i], sched[i + 1]))
  }

  lemma NormalWellFormed()
    ensures WellFormed(TIME_SCHEDULE_NORMAL)
  {
    NormalOrdered();
    NormalInOrder();
  }

  lemma NormalOrdered()
    ensures forall i :: 0 <= i < |TIME_SCHEDULE_NORMAL| ==> Ordered(TIME_SCHEDULE_NORMAL[i])
  {
    var s := TIME_SCHEDULE_NORMAL;
    forall i | 0 <= i < |s| ensures Ordered(s[i]) {
      if i == 0 {} else if i == 1 {} else if i == 2 {} else if i == 3 {} else if i == 4 {} else if i == 5 {} else {}
    }
  }

  lemma NormalInOrder()
    ensures forall i :: 0 <= i < |TIME_SCHEDULE_NORMAL| - 1 ==> Precedes(TIME_SCHEDULE_NORMAL[i], TIME_SCHEDULE_NORMAL[i + 1])
  {
    var s := TIME_SCHEDULE_NORMAL;
    forall i | 0 <= i < |s| - 1 ensures Precedes(s[i], s[i + 1]) {
      if i == 0 {} else if i == 1 {} else if i == 2 {} else if i == 3 {} else if i == 4 {} else {}
    }
  }

  lemma ContinuousWellFormed()
    ensures WellFormed(TIME_SCHEDULE_23_CONTINUOUS)
  {
    ContinuousOrdered();
    ContinuousInOrder();
  }

  lemma ContinuousOrdered()
    ensures forall i :: 0 <= i < |TIME_SCHEDULE_23_CONTINUOUS| ==> Ordered(TIME_SCHEDULE_23_CONTINUOUS[i])
  {
    var s := TIME_SCHEDULE_23_CONTINUOUS;
    forall i | 0 <= i < |s| ensures Ordered(s[i]) {
      if i == 0 {} else if i == 1 {} else if i == 2 {} else if i == 3 {} else if i == 4 {} else if i == 5 {} else {}
    }
  }

  lemma ContinuousInOrder()
    ensures forall i :: 0 <= i < |TIME_SCHEDULE_23_CONTINUOUS| - 1 ==> Precedes(TIME_SCHEDULE_23_CONTINUOUS[i], TIME_SCHEDULE_23_CONTINUOUS[i + 1])
  {
    var s := TIME_SCHEDULE_23_CONTINUOUS;
    forall i | 0 <= i < |s| - 1 ensures Precedes(s[i], s[i + 1]) {
      if i == 0 {} else if i == 1 {} else if i == 2 {} else if i == 3 {} else if i == 4 {} else {}
    }
  }

  /** Both timetables have seven entries; they differ only in the 3限 / lunch entries (indices 2 and 3), which trade places. */
  lemma TimetablesDifferOnlyAroundLunch()
    ensures |TIME_SCHEDULE_NORMAL| == |TIME_SCHEDULE_23_CONTINUOUS| == 7
    ensures forall i :: 0 <= i < 7 && i != 2 && i != 3 ==> TIME_SCHEDULE_NORMAL[i] == TIME_SCHEDULE_23_CONTINUOUS[i]
    ensures TIME_SCHEDULE_NORMAL[2].name == TIME_SCHEDULE_23_CONTINUOUS[3].name == "昼休み"
    ensures TIME_SCHEDULE_NORMAL[3].name == TIME_SCHEDULE_23_CONTINUOUS[2].name == "3限"
    ensures TIME_SCHEDULE_NORMAL != TIME_SCHEDULE_23_CONTINUOUS
  {
    assert TIME_SCHEDULE_NORMAL[2] != TIME_SCHEDULE_23_CONTINUOUS[2];
  }

  /** Every attendance-schedule entry starts before it ends, and the entries are in order. */
  lemma AttendanceScheduleWellFormed()
    ensures WellFormed(SCHEDULE)
  {
    AttendanceOrdered();
    AttendanceInOrder();
  }

  lemma AttendanceOrdered()
    ensures forall i :: 0 <= i < |SCHEDULE| ==> Ordered(SCHEDULE[i])
  {
    var s := SCHEDULE;
    forall i | 0 <= i < |s| ensures Ordered(s[i]) {
      if i == 0 {} else if i == 1 {} else if i == 2 {} else {}
    }
  }

  lemma AttendanceInOrder()
    ensures forall i :: 0 <= i < |SCHEDULE| - 1 ==> Precedes(SCHEDULE[i], SCHEDULE[i + 1])
  {
    var s := SCHEDULE;
    forall i | 0 <= i < |s| - 1 ensures Precedes(s[i], s[i + 1]) {
      if i == 0 {} else if i == 1 {} else {}
    }
  }

  /** The weekday labels follow `getDay()`: Sunday first, Saturday last, all distinct. */
  lemma DayLabelsFollowGetDay()
    ensures |DAY_LABELS| == 7
    ensures DAY_LABELS[0] == "日曜日" && DAY_LABELS[1] == "月曜日" && DAY_LABELS[6] == "土曜日"
    ensures forall i, j :: 0 <= i < j < 7 ==> DAY_LABELS[i] != DAY_LABELS[j]
  {
  }

  /** The five attendance flags are stored under five different keys. */
  lemma AttendFlagKeysDistinct()
    ensures |{ATTEND_RELOAD_FLAG, ATTEND_LESSON_CLICK_FLAG, ATTEND_SUBMIT_BUTTON_FLAG, ATTEND_OK_BUTTON_FLAG, ATTEND_MEET_JOIN_FLAG}| == 5
  {
    assert ATTEND_RELOAD_FLAG[12] == 'r' && ATTEND_LESSON_CLICK_FLAG[12] == 'l' && ATTEND_SUBMIT_BUTTON_FLAG[12] == 's';
    assert ATTEND_OK_BUTTON_FLAG[12] == 'o' && ATTEND_MEET_JOIN_FLAG[12] == 'm';
  }

  /** The LMS pages live under `LMS_URL` and the single-sign-on pages under `KU_SSO`; neither host contains the other. */
  lemma UrlsExtendTheirHosts()
    ensures StartsWith(LMS_HOME_URL, LMS_URL) && StartsWith(LMS_LOGIN_URL, LMS_URL) && StartsWith(LMS_ERROR_URL, LMS_URL)
    ensures StartsWith(SSO_PRELOGIN_URL, KU_SSO) && StartsWith(SSO_LOGIN_URL, KU_SSO) && StartsWith(SSO_TIMEOUT_URL, KU_SSO)
    ensures !StartsWith(KU_SSO, LMS_URL) && !StartsWith(LMS_URL, KU_SSO)
  {
    assert LMS_URL[8] == 's' && KU_SSO[9] == 'l' && LMS_URL[9] == 't';
  }
}
