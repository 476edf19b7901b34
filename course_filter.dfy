/**
 * The course list filter (features/subject.js). Each course card's info line is read into a
 * day code, a period code and a semester code; the filter form (or, in automatic mode, the
 * current quarter) decides which cards stay visible; a day box stays visible iff one of its
 * cards does; and the card of the class running now, if visible, is highlighted.
 */
module CourseFilter {
  import opened Wrappers
  import opened Text
  import opened Scan
  import opened Constants
  import opened Seqs

  // ---------------------------------------------------------------------------------------
  // Reading a card

  /**
   * What a card shows: the text of its `.courseCardInfo`, `.lms-cardname` and `.lms-carduser`
   * elements and of the `h3` title of the day box around it (`None` where the element is missing).
   */
  datatype CardRaw = CardRaw(info: Option<string>, name: Option<string>, user: Option<string>, dayTitle: Option<string>)

  datatype CardInfo = CardInfo(courseName: string, instructor: string, dayCode: string,
                               periodCode: string, semesterCode: string, semesterText: string)

  /** `s.replace(/\s+/g, ' ')`: every run of white space becomes one space. */
  function CollapseSpaces(s: string): (r: string)
    ensures forall i :: 0 <= i < |r| ==> r[i] == ' ' || !IsSpace(r[i])
    ensures s == [] <==> r == []
    ensures s != [] && !IsSpace(s[0]) ==> r[0] == s[0]
    decreases |s|
  {
    if s == [] then []
    else if IsSpace(s[0]) then
      var e := SpanEnd(s, 0, Space);
      var rest := CollapseSpaces(s[e..]);
      assert forall i :: 1 <= i < |" " + rest| ==> (" " + rest)[i] == rest[i - 1];
      " " + rest
    else
      var rest := CollapseSpaces(s[1..]);
      assert forall i :: 1 <= i < |[s[0]] + rest| ==> ([s[0]] + rest)[i] == rest[i - 1];
      [s[0]] + rest
  }

  /** /(\d+)限(.*)/ at position `i`: the digits and the rest of the line after 限. */
  function PeriodAt(s: string, i: nat): Option<(string, string)> {
    if i < |s| && IsDigit(s[i]) then
      var e := SpanEnd(s, i, Digit);
      if LitAt(s, e, "限") then Some((s[i..e], s[e + 1..SpanEnd(s, e + 1, NotLineTerminator)])) else None
    else None
  }

  /** `('0' + d).slice(-2)`: the last two characters (all of them when there are fewer). */
  function LastTwo(d: string): (r: string)
    ensures d != [] ==> |r| == 2 && r == ("0" + d)[|d| - 1..]
    ensures d == [] ==> r == "0"
  {
    var z := "0" + d;
    if |z| < 2 then z else z[|z| - 2..]
  }

  /** The day-box titles and their codes. */
  const DAY_CODES: seq<(string, string)> := [
    ("月曜日", "1"), ("火曜日", "2"), ("水曜日", "3"), ("木曜日", "4"), ("金曜日", "5"),
    ("土曜日", "6"), ("日曜日", "7"), ("その他", "Z")]

  /** The semester names and their codes. */
  const SEMESTER_CODES: seq<(string, string)> := [
    ("通年", "01"), ("前期", "02"), ("後期", "03"), ("1Q", "04"), ("2Q", "05"), ("3Q", "06"),
    ("4Q", "07"), ("集中・特週", "08"), ("自己学習", "09"), ("その他", "10"), ("講義", "11")]

  /** `table[key] || ''`: the code of the first entry named `key`, or "" for a name not in the table. */
  function Lookup(table: seq<(string, string)>, key: string): (r: string)
    ensures r == "" || exists k :: 0 <= k < |table| && table[k] == (key, r)
    ensures (forall k :: 0 <= k < |table| ==> table[k].0 != key) ==> r == ""
  {
    if table == [] then ""
    else if table[0].0 == key then table[0].1
    else Lookup(table[1..], key)
  }

  /** The code of a day-box title (trimmed); a card outside a titled day box has none. */
  function DayCode(title: Option<string>): string {
    if title.None? then "" else Lookup(DAY_CODES, Trim(title.value))
  }

  function SemesterCode(word: string): string {
    Lookup(SEMESTER_CODES, word)
  }

  /** `extractCardInfo`. */
  function ExtractCardInfo(c: CardRaw): (r: CardInfo)
    ensures r.periodCode != "" <==> Search(CollapseSpaces(c.info.GetOr("")), PeriodAt).Some?
  {
    var infoText := CollapseSpaces(c.info.GetOr(""));
    var m := Search(infoText, PeriodAt);
    var semesterText := if m.Some? then Trim(m.value.1) else Trim(infoText);
    CardInfo(
      if c.name.Some? then Trim(c.name.value) else "",
      if c.user.Some? then Trim(c.user.value) else "",
      DayCode(c.dayTitle),
      if m.Some? then LastTwo(m.value.0) else "",
      SemesterCode(Split(semesterText, ' ')[0]),
      semesterText)
  }

  /** After the white space is collapsed, `.*` reaches the end: the text after 限 is all the rest. */
  lemma {:induction false} RestAfterPeriod(s: string, i: nat)
    requires SingleSpaced(s)
    requires PeriodAt(s, i).Some?
    ensures PeriodAt(s, i).value.1 == s[SpanEnd(s, i, Digit) + 1..]
  {
    var e := SpanEnd(s, i, Digit) + 1;
    forall j | e <= j < |s| ensures In(s[j], NotLineTerminator) {
      assert SingleSpacedAt(s, j);
      if IsLineTerminator(s[j]) {
        LineTerminatorIsSpace(s[j]);
      }
    }
    SpanToEnd(s, e, |s|);
  }

  lemma LineTerminatorIsSpace(c: char)
    requires IsLineTerminator(c)
    ensures IsSpace(c) && c != ' '
  {
  }

  lemma {:induction false} SpanToEnd(s: string, p: nat, e: nat)
    requires p <= e == |s|
    requires forall j :: p <= j < e ==> In(s[j], NotLineTerminator)
    ensures SpanEnd(s, p, NotLineTerminator) == |s|
    decreases |s| - p
  {
    if p < |s| {
      SpanToEnd(s, p + 1, e);
    }
  }

  /** A card reading "N限 …" (one digit) gets the period code "0N", and its semester text is what follows. */
  lemma CardPeriodCode(n: nat, rest: string, name: Option<string>, user: Option<string>, title: Option<string>)
    requires 1 <= n <= 9 && SingleSpaced(rest)
    ensures var info := ExtractCardInfo(CardRaw(Some([DigitChar(n)] + "限" + rest), name, user, title));
      info.periodCode == "0" + [DigitChar(n)] && info.semesterText == Trim(rest)
  {
    var d := [DigitChar(n)];
    PeriodLineMatch(n, rest);
    assert LastTwo(d) == "0" + d;
  }

  /** The leftmost period match of "N限 …" captures the digit and everything after 限. */
  lemma PeriodLineMatch(n: nat, rest: string)
    requires 1 <= n <= 9 && SingleSpaced(rest)
    ensures Search(CollapseSpaces([DigitChar(n)] + "限" + rest), PeriodAt) == Some(([DigitChar(n)], rest))
  {
    var s := [DigitChar(n)] + "限" + rest;
    NotSpace(DigitChar(n));
    assert SingleSpaced(s) by {
      forall j | 0 <= j < |s| ensures SingleSpacedAt(s, j) {
        if j >= 2 {
          assert SingleSpacedAt(rest, j - 2);
        }
      }
    }
    CollapseKeeps(s);
    assert s[1..2] == "限";
    assert SpanEnd(s, 0, Digit) == 1 by {
      assert !IsDigit(s[1]);
    }
    assert PeriodAt(s, 0).Some?;
    assert FirstAt(s, 0, PeriodAt) == Some(0);
    RestAfterPeriod(s, 0);
    assert s[2..] == rest;
    assert s[0..1] == [DigitChar(n)];
  }

  /** Every white-space character of `s` is a space, and no space follows another. */
  predicate SingleSpaced(s: string) {
    forall j :: 0 <= j < |s| ==> SingleSpacedAt(s, j)
  }

  predicate SingleSpacedAt(s: string, j: nat)
    requires j < |s|
  {
    !IsSpace(s[j]) || (s[j] == ' ' && (j + 1 == |s| || !IsSpace(s[j + 1])))
  }

  /** A single-spaced text is unchanged by the collapse. */
  lemma {:induction false} CollapseKeeps(s: string)
    requires SingleSpaced(s)
    ensures CollapseSpaces(s) == s
    decreases |s|
  {
    if s != [] {
      assert SingleSpaced(s[1..]) by {
        forall j | 0 <= j < |s| - 1 ensures SingleSpacedAt(s[1..], j) {
          assert SingleSpacedAt(s, j + 1);
        }
      }
      CollapseKeeps(s[1..]);
      assert s == [s[0]] + s[1..];
      if IsSpace(s[0]) {
        assert SingleSpacedAt(s, 0);
        assert SpanEnd(s, 0, Space) == 1 by {
          if 1 < |s| { assert !In(s[1], Space); }
        }
      }
    }
  }

  // ---------------------------------------------------------------------------------------
  // The filter

  /** The filter form as `applyClientSideFilter` reads it. */
  datatype FilterForm = FilterForm(isAutoActive: bool, yobi: string, jigen: string,
                                   kougiName: string, kyoinName: string, checkKiList: seq<string>)

  /** The quarter of a month 1–12: April–May, June–July, August–October, the rest. */
  function Quarter(month: int): (q: int)
    ensures 1 <= q <= 4
  {
    if 4 <= month <= 5 then 1 else if 6 <= month <= 7 then 2 else if 8 <= month <= 10 then 3 else 4
  }

  const OTHER_TERMS: seq<string> := ["その他", "集中・特週", "自己学習", "講義"]

  /** The terms shown in each quarter. */
  function QuarterTerms(q: int): (r: seq<string>)
    requires 1 <= q <= 4
    ensures |r| == 3 && r[2] == "通年"
    ensures r[1] == (if q <= 2 then "前期" else "後期")
  {
    if q == 1 then ["1Q", "前期", "通年"] else if q == 2 then ["2Q", "前期", "通年"]
    else if q == 3 then ["3Q", "後期", "通年"] else ["4Q", "後期", "通年"]
  }

  predicate ContainsAny(s: string, terms: seq<string>) {
    exists k :: 0 <= k < |terms| && Contains(s, terms[k])
  }

  /** The semester test: the current quarter's terms in automatic mode, the checked codes otherwise. */
  predicate TermShown(f: FilterForm, info: CardInfo, month: int) {
    if f.isAutoActive then ContainsAny(info.semesterText, OTHER_TERMS) || ContainsAny(info.semesterText, QuarterTerms(Quarter(month)))
    else f.checkKiList == [] || info.semesterCode in f.checkKiList
  }

  /** A name filter: empty passes everything, otherwise a case-insensitive substring test. */
  predicate NameMatches(filter: string, name: string) {
    var key := ToLower(Trim(filter));
    key == [] || Contains(ToLower(name), key)
  }

  /** Whether a card stays visible in `month` (1–12). */
  predicate Visible(f: FilterForm, info: CardInfo, month: int) {
    && TermShown(f, info, month)
    && (f.yobi == "all" || f.yobi == info.dayCode)
    && (f.jigen == "all" || f.jigen == info.periodCode)
    && NameMatches(f.kougiName, info.courseName)
    && NameMatches(f.kyoinName, info.instructor)
  }

  /** A form with nothing selected shows every card. */
  lemma EmptyFormShowsAll(f: FilterForm, info: CardInfo, month: int)
    requires !f.isAutoActive && f.checkKiList == [] && f.yobi == "all" && f.jigen == "all"
    requires Trim(f.kougiName) == "" && Trim(f.kyoinName) == ""
    ensures Visible(f, info, month)
  {
  }

  /** In automatic mode the checked semester codes play no part. */
  lemma AutoIgnoresCheckedTerms(f: FilterForm, ks: seq<string>, info: CardInfo, month: int)
    requires f.isAutoActive
    ensures Visible(f, info, month) <==> Visible(f.(checkKiList := ks), info, month)
  {
  }

  /** Each further filter can only hide cards: narrowing one field never shows a hidden card. */
  lemma DayFilterNarrows(f: FilterForm, d: string, info: CardInfo, month: int)
    requires f.yobi == "all"
    ensures Visible(f.(yobi := d), info, month) ==> Visible(f, info, month)
    ensures Visible(f, info, month) && info.dayCode == d ==> Visible(f.(yobi := d), info, month)
  {
  }

  /** Clearing the day, period and name filters never hides a card: they only narrow the term test. */
  lemma ClearingFiltersWidens(f: FilterForm, info: CardInfo, month: int)
    ensures Visible(f, info, month) ==> Visible(f.(yobi := "all", jigen := "all", kougiName := "", kyoinName := ""), info, month)
    ensures Visible(f.(yobi := "all", jigen := "all", kougiName := "", kyoinName := ""), info, month) <==> TermShown(f, info, month)
  {
    var g := f.(yobi := "all", jigen := "all", kougiName := "", kyoinName := "");
    EmptyNameMatches(info.courseName);
    EmptyNameMatches(info.instructor);
    assert TermShown(g, info, month) == TermShown(f, info, month);
  }

  /** An empty name filter matches every name. */
  lemma EmptyNameMatches(name: string)
    ensures NameMatches("", name)
  {
    assert Trim("") == [] by {
      TrimSpec("");
    }
  }

  /** A name holding the trimmed filter, in any case of its letters, passes the name test. */
  lemma ContainedNameMatches(filter: string, name: string, i: nat)
    requires var key := ToLower(Trim(filter)); i + |key| <= |name| && ToLower(name[i..i + |key|]) == key
    ensures NameMatches(filter, name)
  {
    var key := ToLower(Trim(filter));
    assert ToLower(name)[i..i + |key|] == ToLower(name[i..i + |key|]);
    ContainsAt(ToLower(name), key, i);
  }

  /** A full-width filter finds a full-width name written in the other case. */
  lemma FullWidthNameMatches()
    ensures NameMatches("ａｂｃ", "ＡＢＣ演習")
  {
    TrimOfLabel("ａｂｃ");
    assert ToLower("ａｂｃ") == "ａｂｃ";
    assert ToLower("ＡＢＣ演習"[0..3]) == "ａｂｃ";
    ContainedNameMatches("ａｂｃ", "ＡＢＣ演習", 0);
  }

  /** Automatic mode: full-year courses are always shown, first-half courses from April to July, second-half ones from August to March. */
  lemma AutoTermsByMonth(f: FilterForm, info: CardInfo, month: int)
    requires f.isAutoActive
    ensures Contains(info.semesterText, "通年") ==> TermShown(f, info, month)
    ensures Contains(info.semesterText, "前期") && 4 <= month <= 7 ==> TermShown(f, info, month)
    ensures Contains(info.semesterText, "後期") && !(4 <= month <= 7) ==> TermShown(f, info, month)
  {
    var ts := QuarterTerms(Quarter(month));
    assert ts[2] == "通年";
    assert Contains(info.semesterText, ts[2]) ==> ContainsAny(info.semesterText, ts);
    assert Contains(info.semesterText, ts[1]) ==> ContainsAny(info.semesterText, ts);
  }

  /** The quarter months: a month's quarter is 1 for April and May, then 2, 3 and 4 in turn. */
  lemma QuarterOfMonths(month: int)
    requires 1 <= month <= 12
    ensures Quarter(month) == (if month <= 3 then 4 else if month <= 5 then 1 else if month <= 7 then 2 else if month <= 10 then 3 else 4)
  {
  }

  // ---------------------------------------------------------------------------------------
  // Highlighting

  /** `{0:"7", 1:"1", …, 6:"6"}[now.getDay()]` */
  function TodayCode(day: int): (r: string)
    requires 0 <= day < 7
    ensures |r| == 1
  {
    if day == 0 then "7" else [DigitChar(day)]
  }

  /** Today's code is the code of today's day box: the two tables agree. */
  lemma TodayMatchesDayBox(day: int)
    requires 0 <= day < 7
    ensures TodayCode(day) == DayCode(Some(DAY_LABELS[day]))
  {
    var l := DAY_LABELS[day];
    TrimOfLabel(l);
    var k := if day == 0 then 6 else day - 1;
    assert DAY_CODES[k] == (l, TodayCode(day));
    LookupAt(DAY_CODES, k, l);
  }

  /** The first entry named `key` gives the code. */
  lemma {:induction false} LookupAt(table: seq<(string, string)>, k: nat, key: string)
    requires k < |table| && table[k].0 == key
    requires forall j :: 0 <= j < k ==> table[j].0 != key
    ensures Lookup(table, key) == table[k].1
  {
    if k > 0 {
      LookupAt(table[1..], k - 1, key);
    }
  }

  lemma TrimOfLabel(l: string)
    requires l != [] && !IsSpace(l[0]) && !IsSpace(l[|l| - 1])
    ensures Trim(l) == l
  {
    TrimSpec(l);
  }

  /** `('0' + h).slice(-2) + ':' + ('0' + m).slice(-2)` */
  function ClockText(hours: nat, minutes: nat): (r: string)
    requires hours < 24 && minutes < 60
    ensures RealClock(r) && ClockMinutes(r) == hours * 60 + minutes
  {
    var h := LastTwo(NatToString(hours));
    var m := LastTwo(NatToString(minutes));
    LastTwoDigits(hours);
    LastTwoDigits(minutes);
    ClockOfParts(h, m);
    h + ":" + m
  }

  /** Two two-digit strings joined by a colon read as a clock with those hours and minutes. */
  lemma ClockOfParts(h: string, m: string)
    requires |h| == 2 && IsDigit(h[0]) && IsDigit(h[1])
    requires |m| == 2 && IsDigit(m[0]) && IsDigit(m[1])
    ensures IsClock(h + ":" + m) && (h + ":" + m)[3] == m[0]
    ensures ClockMinutes(h + ":" + m) == (10 * DigitValue(h[0]) + DigitValue(h[1])) * 60 + 10 * DigitValue(m[0]) + DigitValue(m[1])
  {
    var r := h + ":" + m;
    assert r[0] == h[0] && r[1] == h[1] && r[2] == ':' && r[3] == m[0] && r[4] == m[1];
  }

  lemma LastTwoDigits(v: nat)
    requires v < 100
    ensures var r := LastTwo(NatToString(v)); IsDigit(r[0]) && IsDigit(r[1]) && 10 * DigitValue(r[0]) + DigitValue(r[1]) == v
  {
    var t := NatToString(v);
    if v >= 10 {
      assert t[..1] == [t[0]];
      assert t[..|t| - 1] == [t[0]];
      assert LastTwo(t) == t;
    } else {
      assert LastTwo(t) == "0" + t;
    }
  }

  /** The first period whose "HH:MM" bounds contain `t` under string comparison. */
  function CurrentPeriod(sched: seq<Period>, t: string): (r: Option<Period>)
    ensures r.Some? ==> r.value in sched && LexLe(r.value.start, t) && LexLe(t, r.value.end)
    ensures r.None? ==> forall p :: p in sched ==> !(LexLe(p.start, t) && LexLe(t, p.end))
  {
    if sched == [] then None
    else if LexLe(sched[0].start, t) && LexLe(t, sched[0].end) then Some(sched[0])
    else CurrentPeriod(sched[1..], t)
  }

  /** An "HH:MM" string whose minutes are below 60. */
  predicate RealClock(s: string) {
    IsClock(s) && s[3] <= '5'
  }

  predicate RealClocks(sched: seq<Period>) {
    forall i :: 0 <= i < |sched| ==> RealClock(sched[i].start) && RealClock(sched[i].end)
  }

  lemma NormalRealClocks()
    ensures RealClocks(TIME_SCHEDULE_NORMAL)
  {
    var s := TIME_SCHEDULE_NORMAL;
    forall i | 0 <= i < |s| ensures RealClock(s[i].start) && RealClock(s[i].end) {
      if i == 0 {} else if i == 1 {} else if i == 2 {} else if i == 3 {} else if i == 4 {} else if i == 5 {} else {}
    }
  }

  /** On "HH:MM" strings the string order is the order of the times. */
  lemma ClockOrder(a: string, b: string)
    requires RealClock(a) && RealClock(b)
    ensures LexLe(a, b) <==> ClockMinutes(a) <= ClockMinutes(b)
  {
    ClockLex(a, b);
    var x0, x1, x3, x4 := DigitValue(a[0]), DigitValue(a[1]), DigitValue(a[3]), DigitValue(a[4]);
    var y0, y1, y3, y4 := DigitValue(b[0]), DigitValue(b[1]), DigitValue(b[3]), DigitValue(b[4]);
    assert ClockMinutes(a) == 600 * x0 + 60 * x1 + 10 * x3 + x4;
    assert ClockMinutes(b) == 600 * y0 + 60 * y1 + 10 * y3 + y4;
    assert (a[0] < b[0] <==> x0 < y0) && (a[0] == b[0] <==> x0 == y0);
    assert (a[1] < b[1] <==> x1 < y1) && (a[1] == b[1] <==> x1 == y1);
    assert (a[3] < b[3] <==> x3 < y3) && (a[3] == b[3] <==> x3 == y3);
    assert a[4] <= b[4] <==> x4 <= y4;
    Lexicographic(x0, x1, x3, x4, y0, y1, y3, y4);
  }

  /** Two clocks compare character by character, the colon aside. */
  lemma ClockLex(a: string, b: string)
    requires RealClock(a) && RealClock(b)
    ensures LexLe(a, b) <==>
      a[0] < b[0] || (a[0] == b[0] && (a[1] < b[1] || (a[1] == b[1] && (a[3] < b[3] || (a[3] == b[3] && a[4] <= b[4])))))
  {
    assert LexLe(a[4..], b[4..]) <==> a[4] <= b[4] by {
      assert a[4..][1..] == [] && b[4..][1..] == [];
    }
    assert LexLe(a[3..], b[3..]) <==> a[3] < b[3] || (a[3] == b[3] && a[4] <= b[4]) by {
      assert a[3..][1..] == a[4..] && b[3..][1..] == b[4..];
    }
    assert LexLe(a[2..], b[2..]) <==> LexLe(a[3..], b[3..]) by {
      assert a[2..][1..] == a[3..] && b[2..][1..] == b[3..];
    }
    assert LexLe(a[1..], b[1..]) <==> a[1] < b[1] || (a[1] == b[1] && LexLe(a[2..], b[2..])) by {
      assert a[1..][1..] == a[2..] && b[1..][1..] == b[2..];
    }
    assert LexLe(a, b) <==> a[0] < b[0] || (a[0] == b[0] && LexLe(a[1..], b[1..]));
  }

  lemma Lexicographic(x0: int, x1: int, x3: int, x4: int, y0: int, y1: int, y3: int, y4: int)
    requires 0 <= x0 <= 9 && 0 <= x1 <= 9 && 0 <= x3 <= 5 && 0 <= x4 <= 9
    requires 0 <= y0 <= 9 && 0 <= y1 <= 9 && 0 <= y3 <= 5 && 0 <= y4 <= 9
    ensures 600 * x0 + 60 * x1 + 10 * x3 + x4 <= 600 * y0 + 60 * y1 + 10 * y3 + y4
      <==> x0 < y0 || (x0 == y0 && (x1 < y1 || (x1 == y1 && (x3 < y3 || (x3 == y3 && x4 <= y4)))))
  {
  }

  /** The period code a timetable name stands for: the name without 限, padded, or nothing for a break. */
  function HighlightCode(name: string): (r: Option<string>)
    ensures r.Some? <==> Contains(name, "限")
  {
    if Contains(name, "限") then Some(LastTwo(RemoveFirst(name, '限'))) else None
  }

  /** `s.replace(c, '')`: the first occurrence of `c` removed. */
  function RemoveFirst(s: string, c: char): (r: string)
    ensures c in s ==> |r| == |s| - 1
    ensures c !in s ==> r == s
  {
    if s == [] then [] else if s[0] == c then s[1..] else [s[0]] + RemoveFirst(s[1..], c)
  }

  /** Every class period of the normal timetable names the code a card of that period carries; the lunch break names none. */
  lemma HighlightCodesOfTimetable()
    ensures forall i :: 0 <= i < 7 && i != 2 ==>
      HighlightCode(TIME_SCHEDULE_NORMAL[i].name) == Some("0" + [TIME_SCHEDULE_NORMAL[i].name[0]])
    ensures HighlightCode(TIME_SCHEDULE_NORMAL[2].name).None?
  {
    forall i | 0 <= i < 7 && i != 2
      ensures HighlightCode(TIME_SCHEDULE_NORMAL[i].name) == Some("0" + [TIME_SCHEDULE_NORMAL[i].name[0]])
    {
      var l := TIME_SCHEDULE_NORMAL[i].name;
      assert l == [l[0]] + "限" && l[0] != '限' by {
        if i == 0 {} else if i == 1 {} else if i == 3 {} else if i == 4 {} else if i == 5 {} else {}
      }
      ClassNameCode(l[0]);
    }
    var lunch := TIME_SCHEDULE_NORMAL[2].name;
    assert lunch == "昼休み";
    NoKanjiInLunch(lunch);
  }

  lemma NoKanjiInLunch(lunch: string)
    requires lunch == "昼休み"
    ensures !Contains(lunch, "限")
  {
    NoOccurrence(lunch, '限');
  }

  /** A text without the character `c` does not contain the one-character string `[c]`. */
  lemma {:induction false} NoOccurrence(s: string, c: char)
    requires c !in s
    ensures !Contains(s, [c])
    decreases |s|
  {
    if s != [] {
      NoOccurrence(s[1..], c);
      assert s[0] != c;
      assert !([c] <= s);
    }
  }

  /** Whether a card is highlighted at that moment: shown, of today, and of the class period that contains now. */
  predicate HighlightedNow(c: CardRaw, shown: bool, day: int, hours: nat, minutes: nat)
    requires 0 <= day < 7 && hours < 24 && minutes < 60
  {
    var period := CurrentPeriod(TIME_SCHEDULE_NORMAL, ClockText(hours, minutes));
    var info := ExtractCardInfo(c);
    && shown && period.Some? && HighlightCode(period.value.name).Some?
    && info.dayCode == TodayCode(day) && info.periodCode == HighlightCode(period.value.name).value
  }

  predicate MatchesNow(info: CardInfo, today: string, code: string) {
    info.dayCode == today && info.periodCode == code
  }

  /** The period code highlighted at `hours:minutes`, if a class period is running. */
  function HighlightTarget(hours: nat, minutes: nat): (r: Option<string>)
    requires hours < 24 && minutes < 60
  {
    var period := CurrentPeriod(TIME_SCHEDULE_NORMAL, ClockText(hours, minutes));
    if period.Some? then HighlightCode(period.value.name) else None
  }

  /** The highlight test is a test of the card's two codes against today and the running period. */
  lemma HighlightedNowByTarget(c: CardRaw, shown: bool, day: int, hours: nat, minutes: nat)
    requires 0 <= day < 7 && hours < 24 && minutes < 60
    ensures HighlightedNow(c, shown, day, hours, minutes) <==>
      shown && HighlightTarget(hours, minutes).Some?
      && MatchesNow(ExtractCardInfo(c), TodayCode(day), HighlightTarget(hours, minutes).value)
  {
    var period := CurrentPeriod(TIME_SCHEDULE_NORMAL, ClockText(hours, minutes));
    var target := if period.Some? then HighlightCode(period.value.name) else None;
    assert HighlightTarget(hours, minutes) == target;
    var info := ExtractCardInfo(c);
    assert HighlightedNow(c, shown, day, hours, minutes) <==>
      shown && target.Some? && MatchesNow(info, TodayCode(day), target.value);
  }

  /** During a class period, the highlight test is a test of the card's two codes. */
  lemma HighlightedNowIs(c: CardRaw, shown: bool, day: int, hours: nat, minutes: nat)
    requires 0 <= day < 7 && hours < 24 && minutes < 60
    requires var period := CurrentPeriod(TIME_SCHEDULE_NORMAL, ClockText(hours, minutes));
      period.Some? && Contains(period.value.name, "限")
    ensures var name := CurrentPeriod(TIME_SCHEDULE_NORMAL, ClockText(hours, minutes)).value.name;
      (HighlightedNow(c, shown, day, hours, minutes)
       <==> shown && MatchesNow(ExtractCardInfo(c), TodayCode(day), LastTwo(RemoveFirst(name, '限'))))
  {
  }

  /** During the lunch break, and outside every period, nothing is highlighted. */
  lemma NoHighlightOutsideClasses(c: CardRaw, shown: bool, day: int, hours: nat, minutes: nat)
    requires 0 <= day < 7 && hours < 24 && minutes < 60
    requires forall i :: 0 <= i < 7 && i != 2 ==>
      !(ClockMinutes(TIME_SCHEDULE_NORMAL[i].start) <= hours * 60 + minutes <= ClockMinutes(TIME_SCHEDULE_NORMAL[i].end))
    ensures !HighlightedNow(c, shown, day, hours, minutes)
  {
    OnlyLunchOutsideClasses(hours, minutes);
    HighlightCodesOfTimetable();
  }

  /** Outside the class periods, the only period that can be running is the lunch break. */
  lemma OnlyLunchOutsideClasses(hours: nat, minutes: nat)
    requires hours < 24 && minutes < 60
    requires forall i :: 0 <= i < 7 && i != 2 ==>
      !(ClockMinutes(TIME_SCHEDULE_NORMAL[i].start) <= hours * 60 + minutes <= ClockMinutes(TIME_SCHEDULE_NORMAL[i].end))
    ensures var period := CurrentPeriod(TIME_SCHEDULE_NORMAL, ClockText(hours, minutes));
      period.Some? ==> period.value == TIME_SCHEDULE_NORMAL[2]
  {
    var t := ClockText(hours, minutes);
    var period := CurrentPeriod(TIME_SCHEDULE_NORMAL, t);
    if period.Some? {
      var k := IndexOfMember(TIME_SCHEDULE_NORMAL, period.value);
      NormalRealClocks();
      ClockOrder(period.value.start, t);
      ClockOrder(t, period.value.end);
      assert k == 2;
    }
  }

  /** A shown card reading "N限 …" in today's day box is highlighted while period N runs. */
  lemma HighlightDuringPeriod(n: nat, rest: string, day: int, hours: nat, minutes: nat)
    requires 0 <= day < 7 && hours < 24 && minutes < 60
    requires 1 <= n <= 6 && SingleSpaced(rest)
    requires var p := TIME_SCHEDULE_NORMAL[if n <= 2 then n - 1 else n];
      ClockMinutes(p.start) <= hours * 60 + minutes <= ClockMinutes(p.end)
    ensures HighlightedNow(CardRaw(Some([DigitChar(n)] + "限" + rest), None, None, Some(DAY_LABELS[day])), true, day, hours, minutes)
  {
    var k := if n <= 2 then n - 1 else n;
    var t := ClockText(hours, minutes);
    NormalWellFormed();
    NormalRealClocks();
    NormalGapped();
    CurrentIsOnly(TIME_SCHEDULE_NORMAL, k, t);
    PeriodCodeOfClass(n);
    CardPeriodCode(n, rest, None, None, Some(DAY_LABELS[day]));
    TodayMatchesDayBox(day);
  }

  /** Class period `n` of the normal timetable stands for the period code "0n". */
  lemma PeriodCodeOfClass(n: nat)
    requires 1 <= n <= 6
    ensures HighlightCode(TIME_SCHEDULE_NORMAL[if n <= 2 then n - 1 else n].name) == Some("0" + [DigitChar(n)])
  {
    var k := if n <= 2 then n - 1 else n;
    assert TIME_SCHEDULE_NORMAL[k].name == [DigitChar(n)] + "限" by {
      if n == 1 {} else if n == 2 {} else if n == 3 {} else if n == 4 {} else if n == 5 {} else {}
    }
    ClassNameCode(DigitChar(n));
  }

  /** A name "d限" stands for the period code "0d". */
  lemma ClassNameCode(d: char)
    requires d != '限'
    ensures HighlightCode([d] + "限") == Some("0" + [d])
  {
    var l := [d] + "限";
    assert l[1..] == "限";
    ContainsAt(l, "限", 1);
    assert RemoveFirst(l, '限') == [d] by {
      assert l[1..] == ['限'];
    }
  }

  /** Each period ends strictly before the next one starts. */
  predicate Gapped(sched: seq<Period>) {
    forall i :: 0 <= i < |sched| - 1 ==> Apart(sched[i], sched[i + 1])
  }

  /** `p` ends strictly before `q` starts. */
  predicate Apart(p: Period, q: Period) {
    IsClock(p.end) && IsClock(q.start) && ClockMinutes(p.end) < ClockMinutes(q.start)
  }

  lemma NormalGapped()
    ensures Gapped(TIME_SCHEDULE_NORMAL)
  {
    var s := TIME_SCHEDULE_NORMAL;
    forall i | 0 <= i < |s| - 1 ensures Apart(s[i], s[i + 1]) {
      if i == 0 {} else if i == 1 {} else if i == 2 {} else if i == 3 {} else if i == 4 {} else {}
    }
  }

  /** In a timetable with gaps, the period containing a time is the only one, so it is the one found. */
  lemma CurrentIsOnly(sched: seq<Period>, k: nat, t: string)
    requires WellFormed(sched) && Gapped(sched) && RealClocks(sched) && k < |sched| && RealClock(t)
    requires ClockMinutes(sched[k].start) <= ClockMinutes(t) <= ClockMinutes(sched[k].end)
    ensures CurrentPeriod(sched, t) == Some(sched[k])
  {
    CurrentFrom(sched, 0, k, t);
  }

  lemma {:induction false} CurrentFrom(sched: seq<Period>, j: nat, k: nat, t: string)
    requires WellFormed(sched) && Gapped(sched) && RealClocks(sched) && j <= k < |sched| && RealClock(t)
    requires ClockMinutes(sched[k].start) <= ClockMinutes(t) <= ClockMinutes(sched[k].end)
    ensures CurrentPeriod(sched[j..], t) == Some(sched[k])
    decreases k - j
  {
    var s := sched[j..];
    ClockOrder(sched[j].start, t);
    ClockOrder(t, sched[j].end);
    if j < k {
      PeriodsIncrease(sched, j, k);
      assert s[1..] == sched[j + 1..];
      CurrentFrom(sched, j + 1, k, t);
    }
  }

  /** An earlier period ends before a later one starts. */
  lemma {:induction false} PeriodsIncrease(sched: seq<Period>, j: nat, k: nat)
    requires WellFormed(sched) && Gapped(sched) && j < k < |sched|
    ensures ClockMinutes(sched[j].end) < ClockMinutes(sched[k].start)
    decreases k - j
  {
    assert Ordered(sched[j]) && Ordered(sched[j + 1]) && Apart(sched[j], sched[j + 1]);
    if j + 1 < k {
      PeriodsIncrease(sched, j + 1, k);
    }
  }
}
