/**
 * Automatic attendance (features/attend.js). Every three seconds a tick checks whether the
 * current minute is the trigger minute (three minutes before the configured period starts on the
 * configured weekday). Inside that minute it walks through reload → lesson card → attend
 * button → OK dialog, remembering each finished step in a localStorage flag so that page
 * navigations do not repeat it; outside the minute all five flags are removed. Without the
 * attend-button option it only opens the Meet link, once.
 */
module Attend {
  import opened Wrappers
  import opened Text
  import opened Constants
  import opened Seqs

  // ---------------------------------------------------------------------------------------
  // Configuration

  /** The schedule table as written in features/attend.js: its 5限 entry starts at 19:36. */
  const LOCAL_SCHEDULE_AS_WRITTEN: seq<Period> := [
    Period("10:10", "11:40", "2限"),
    Period("12:30", "14:00", "3限"),
    Period("14:10", "15:40", "4限"),
    Period("19:36", "17:20", "5限")
  ]

  /**
   * The five step flags. features/attend.js keeps each under its own localStorage key
   * (`KeyName`), only ever writes the string 'true' there and tests `getItem(key) === 'true'`,
   * so each flag is a boolean: set iff the key holds 'true'.
   */
  datatype Flags = Flags(reload: bool, lesson: bool, attend: bool, ok: bool, meet: bool)

  const NO_FLAGS: Flags := Flags(false, false, false, false, false)

  datatype FlagKey = ReloadKey | LessonKey | AttendKey | OkKey | MeetKey

  /** `FLAG_reload` … `FLAG_meet` */
  function KeyName(k: FlagKey): (r: string)
    ensures |r| >= 2
  {
    match k
    case ReloadKey => "reload"
    case LessonKey => "lesson"
    case AttendKey => "attend"
    case OkKey => "ok"
    case MeetKey => "meet"
  }

  function IsSet(f: Flags, k: FlagKey): bool {
    match k
    case ReloadKey => f.reload
    case LessonKey => f.lesson
    case AttendKey => f.attend
    case OkKey => f.ok
    case MeetKey => f.meet
  }

  /** No two flags share a localStorage key. */
  lemma KeyNamesDistinct(k1: FlagKey, k2: FlagKey)
    ensures KeyName(k1) == KeyName(k2) <==> k1 == k2
  {
  }

  /** The page the reload step navigates to. */
  const RELOAD_URL: string := "https://study.ns.kogakuin.ac.jp/"

  /** Why a tick shows an `alert`. */
  datatype AlertReason = NoAttendButton | NoOkButton | NoMeetLink

  /** The text of each alert. */
  function AlertText(r: AlertReason): string {
    match r
    case NoAttendButton => "回線不良か、出席ボタンが見つからなかったためMeetへの接続を開始します。"
    case NoOkButton => "回線不良か、OKが見つからなかったためMeetへの接続を開始します。"
    case NoMeetLink => "Meetへの自動出席を試みましたが、Meetのリンクが設定されていないため失敗しました。"
  }

  /** What `chrome.storage.sync.get` delivers for the five attendance settings (absent = `None`). */
  datatype StoredSettings = StoredSettings(
    attendA: Option<bool>, attendC: Option<string>, attendM: Option<string>,
    attendD: Option<string>, attendT: Option<string>)

  /** The module-level settings after the storage callback has run. */
  datatype Config = Config(
    attendButton: bool, term: string, time: string, meetID: string,
    day: Option<int>, start: Option<(int, int)>)

  /** The settings before the storage callback has run: every trigger field undefined. */
  const INITIAL_CONFIG: Config := Config(false, "", "", "", None, None)

  /** `h` and `m` of an "HH:MM" start, as `split(':').map(Number)` gives them. */
  function ClockParts(s: string): (r: (int, int))
    requires IsClock(s)
    ensures 0 <= r.0 < 100 && 0 <= r.1 < 100 && r.0 * 60 + r.1 == ClockMinutes(s)
  {
    (10 * DigitValue(s[0]) + DigitValue(s[1]), 10 * DigitValue(s[3]) + DigitValue(s[4]))
  }

  predicate StartsAreClocks(sched: seq<Period>) {
    forall i :: 0 <= i < |sched| ==> IsClock(sched[i].start)
  }

  /** `schedule.find(item => item.label === dayLabel)`, then the hour and minute of its start. */
  function StartOfLabel(sched: seq<Period>, wanted: Option<string>): (r: Option<(int, int)>)
    requires StartsAreClocks(sched)
    ensures r.Some? <==> wanted.Some? && exists i :: 0 <= i < |sched| && sched[i].name == wanted.value
    ensures r.Some? ==> exists i :: (0 <= i < |sched| && sched[i].name == wanted.value
      && (forall j :: 0 <= j < i ==> sched[j].name != wanted.value) && r.value == ClockParts(sched[i].start))
    decreases |sched|
  {
    if wanted.None? || sched == [] then None
    else if sched[0].name == wanted.value then Some(ClockParts(sched[0].start))
    else
      var r := StartOfLabel(sched[1..], wanted);
      assert forall i :: 1 <= i < |sched| ==> sched[1..][i - 1] == sched[i];
      r
  }

  /** `parseInt(v, 10) || day`: a missing, unparsable or zero weekday leaves `day` undefined. */
  function ConfiguredDay(attendD: Option<string>): (r: Option<int>)
    ensures r.Some? ==> r.value != 0
    ensures r.Some? <==> attendD.Some? && ParseInt(attendD.value).Some? && ParseInt(attendD.value).value != 0
  {
    if attendD.None? then None
    else
      match ParseInt(attendD.value)
      case Some(v) => if v != 0 then Some(v) else None
      case None => None
  }

  /** The storage callback of features/attend.js, looking the period up in `sched`. */
  function LoadConfig(stored: StoredSettings, sched: seq<Period>): (c: Config)
    requires StartsAreClocks(sched)
    ensures c.attendButton <==> stored.attendA == Some(true)
    ensures c.start == StartOfLabel(sched, stored.attendT)
    ensures c.day == ConfiguredDay(stored.attendD)
  {
    Config(
      stored.attendA.GetOr(false),
      stored.attendC.GetOr(""),
      stored.attendT.GetOr(""),
      stored.attendM.GetOr(""),
      ConfiguredDay(stored.attendD),
      StartOfLabel(sched, stored.attendT))
  }

  /** The time of a tick: `getDay()` (0 = Sunday), `getHours()`, `getMinutes()`. */
  datatype Now = Now(day: int, hours: int, minutes: int)

  predicate ValidNow(now: Now) {
    0 <= now.day < 7 && 0 <= now.hours < 24 && 0 <= now.minutes < 60
  }

  /** The trigger minute: configured weekday, start hour, start minute minus the margin. */
  predicate InWindow(cfg: Config, now: Now) {
    && cfg.day == Some(now.day)
    && cfg.start.Some?
    && now.hours == cfg.start.value.0
    && now.minutes == cfg.start.value.1 - ATTEND_EXECUTION_MARGIN_MIN
  }

  /** Without a period matching the configured label the sequence never runs. */
  lemma NoPeriodNeverTriggers(stored: StoredSettings, sched: seq<Period>, now: Now)
    requires StartsAreClocks(sched)
    requires stored.attendT.None? || forall i :: 0 <= i < |sched| ==> sched[i].name != stored.attendT.value
    ensures !InWindow(LoadConfig(stored, sched), now)
  {
  }

  /** A configured weekday of 0 (Sunday) is falsy, so `day` stays undefined and nothing triggers. */
  lemma SundayNeverTriggers(stored: StoredSettings, sched: seq<Period>, now: Now)
    requires StartsAreClocks(sched)
    requires stored.attendD == Some("0")
    ensures !InWindow(LoadConfig(stored, sched), now)
  {
    assert ParseInt("0") == Some(0) by {
      NotSpace('0');
      assert TrimStart("0") == "0";
      assert DigitPrefix("0") == "0";
    }
  }

  // ---------------------------------------------------------------------------------------
  // The page a tick sees

  /** A course card: the trimmed text of `.term`, the text of `.courseCardInfo`, and whether `.lms-cardname a` exists. */
  datatype Card = Card(term: string, info: string, hasLink: bool)

  /** A `.lms-daybox`: the text of its `.lms-category-title` and its `.lms-card`s. */
  datatype DayBox = DayBox(title: string, cards: seq<Card>)

  /** The `dispCosa` iframe: absent, present without an OK button, or present with one. */
  datatype OkDialog = NoIframe | IframeWithoutOk | IframeWithOk

  datatype Page = Page(dayBoxes: seq<DayBox>, attendButton: bool, okDialog: OkDialog)

  /** What a tick does to the outside world, in order. */
  datatype Effect =
    | Navigate(url: string)
    | ClickLesson(box: nat, card: nat)
    | ClickAttend
    | ClickOk
    | OpenTab(url: string)
    | Alert(reason: AlertReason)

  /** A card of the configured term whose info mentions the configured period. */
  predicate CardMatches(c: Card, term: string, time: string) {
    Trim(c.term) == term && Contains(c.info, time)
  }

  /** Whether each card is a linked card of the configured term and period. */
  function Hits(cards: seq<Card>, term: string, time: string): (r: seq<bool>)
    ensures |r| == |cards|
    ensures forall k :: 0 <= k < |cards| ==> (r[k] <==> CardMatches(cards[k], term, time) && cards[k].hasLink)
  {
    seq(|cards|, k requires 0 <= k < |cards| => CardMatches(cards[k], term, time) && cards[k].hasLink)
  }

  /** A lesson-link click for each of the first `n` cards of day box `b` that `hits` marks. */
  function ClicksOf(hits: seq<bool>, n: nat, b: nat): seq<Effect>
    requires n <= |hits|
  {
    if n == 0 then [] else ClicksOf(hits, n - 1, b) + (if hits[n - 1] then [ClickLesson(b, n - 1)] else [])
  }

  /** The lesson-link clicks for the first `n` cards of day box `b`. */
  function CardClicks(cards: seq<Card>, n: nat, b: nat, term: string, time: string): seq<Effect>
    requires n <= |cards|
  {
    ClicksOf(Hits(cards, term, time), n, b)
  }

  /** One more card adds its click, if it is a linked card of the configured term and period. */
  lemma CardClicksNext(cards: seq<Card>, n: nat, b: nat, term: string, time: string)
    requires n < |cards|
    ensures CardClicks(cards, n + 1, b, term, time) == CardClicks(cards, n, b, term, time)
      + (if CardMatches(cards[n], term, time) && cards[n].hasLink then [ClickLesson(b, n)] else [])
  {
  }

  /** The lesson-link clicks of day box `b`: none unless its trimmed title is the weekday label. */
  function BoxClicks(box: DayBox, b: nat, dayLabel: string, term: string, time: string): seq<Effect> {
    if Trim(box.title) == dayLabel then CardClicks(box.cards, |box.cards|, b, term, time) else []
  }

  /** Whether each day box's trimmed title is the weekday label. */
  function Selected(boxes: seq<DayBox>, dayLabel: string): (r: seq<bool>)
    ensures |r| == |boxes|
    ensures forall b :: 0 <= b < |boxes| ==> (r[b] <==> Trim(boxes[b].title) == dayLabel)
  {
    seq(|boxes|, b requires 0 <= b < |boxes| => Trim(boxes[b].title) == dayLabel)
  }

  /** The hits of each day box's cards. */
  function HitTable(boxes: seq<DayBox>, term: string, time: string): (r: seq<seq<bool>>)
    ensures |r| == |boxes|
    ensures forall b :: 0 <= b < |boxes| ==> r[b] == Hits(boxes[b].cards, term, time)
  {
    seq(|boxes|, b requires 0 <= b < |boxes| => Hits(boxes[b].cards, term, time))
  }

  /** The clicks of the first `n` day boxes, given which boxes are selected and which of their cards hit. */
  function ClicksOfBoxes(sel: seq<bool>, table: seq<seq<bool>>, n: nat): seq<Effect>
    requires n <= |sel| == |table|
  {
    if n == 0 then []
    else ClicksOfBoxes(sel, table, n - 1) + (if sel[n - 1] then ClicksOf(table[n - 1], |table[n - 1]|, n - 1) else [])
  }

  /** The lesson-link clicks for the first `n` day boxes, in document order. */
  function LessonClicks(boxes: seq<DayBox>, n: nat, dayLabel: string, term: string, time: string): seq<Effect>
    requires n <= |boxes|
  {
    ClicksOfBoxes(Selected(boxes, dayLabel), HitTable(boxes, term, time), n)
  }

  /** One more day box adds its own clicks after the others. */
  lemma LessonClicksNext(boxes: seq<DayBox>, n: nat, dayLabel: string, term: string, time: string)
    requires n < |boxes|
    ensures LessonClicks(boxes, n + 1, dayLabel, term, time)
      == LessonClicks(boxes, n, dayLabel, term, time) + BoxClicks(boxes[n], n, dayLabel, term, time)
  {
  }

  /** Card `c` of day box `b` is one the lesson step clicks. */
  predicate ClickTarget(boxes: seq<DayBox>, b: int, c: int, dayLabel: string, term: string, time: string) {
    && 0 <= b < |boxes| && 0 <= c < |boxes[b].cards|
    && Trim(boxes[b].title) == dayLabel
    && CardMatches(boxes[b].cards[c], term, time) && boxes[b].cards[c].hasLink
  }

  lemma CardClicksExactly(cards: seq<Card>, n: nat, b: nat, term: string, time: string, e: Effect)
    requires n <= |cards|
    ensures e in CardClicks(cards, n, b, term, time) <==>
      e.ClickLesson? && e.box == b && e.card < n && CardMatches(cards[e.card], term, time) && cards[e.card].hasLink
  {
    ClicksOfExactly(Hits(cards, term, time), n, b, e);
  }

  /** The clicks are exactly the marked cards among the first `n`. */
  lemma {:induction false} ClicksOfExactly(hits: seq<bool>, n: nat, b: nat, e: Effect)
    requires n <= |hits|
    ensures e in ClicksOf(hits, n, b) <==> e.ClickLesson? && e.box == b && e.card < n && hits[e.card]
  {
    if n > 0 {
      ClicksOfExactly(hits, n - 1, b, e);
    }
  }

  /** The clicks of the first `n` boxes are exactly the hit cards of the selected boxes among them. */
  lemma {:induction false} ClicksOfBoxesExactly(sel: seq<bool>, table: seq<seq<bool>>, n: nat, e: Effect)
    requires n <= |sel| == |table|
    ensures e in ClicksOfBoxes(sel, table, n) <==>
      e.ClickLesson? && e.box < n && sel[e.box] && e.card < |table[e.box]| && table[e.box][e.card]
  {
    if n > 0 {
      ClicksOfBoxesExactly(sel, table, n - 1, e);
      ClicksOfExactly(table[n - 1], |table[n - 1]|, n - 1, e);
    }
  }

  /** The lesson step clicks exactly the linked cards of the right term and period in the day box of the right weekday. */
  lemma LessonClicksExactly(boxes: seq<DayBox>, n: nat, dayLabel: string, term: string, time: string, e: Effect)
    requires n <= |boxes|
    ensures e in LessonClicks(boxes, n, dayLabel, term, time) <==>
      e.ClickLesson? && e.box < n && ClickTarget(boxes, e.box, e.card, dayLabel, term, time)
  {
    ClicksOfBoxesExactly(Selected(boxes, dayLabel), HitTable(boxes, term, time), n, e);
  }

  // ---------------------------------------------------------------------------------------
  // The tick

  /** The state a tick leaves behind: the flags, the retry counter and what it did. */
  datatype Outcome = Outcome(flags: Flags, counter: int, effects: seq<Effect>)

  /** The reload step (features/attend.js:62-65): navigation does not end the tick, the later steps still run. */
  function ReloadStep(f: Flags, counter: int): Outcome {
    if f.reload then Outcome(f, counter, [])
    else Outcome(f.(reload := true), counter, [Navigate(RELOAD_URL)])
  }

  /** The lesson step (features/attend.js:68-95), given the clicks the card scan produces. */
  function LessonStep(f: Flags, counter: int, clicks: seq<Effect>): Outcome {
    if f.lesson then Outcome(f, counter, [])
    else Outcome(f.(lesson := clicks != []), counter, clicks)
  }

  /** The attend-button step (features/attend.js:98-115). */
  function AttendStep(cfg: Config, f: Flags, counter: int, page: Page): Outcome {
    if f.attend then Outcome(f, counter, [])
    else if page.attendButton then Outcome(f.(attend := true), 0, [ClickAttend])
    else if counter + 1 > 4 then
      Outcome(f.(attend := true, ok := true), counter + 1,
        if cfg.meetID != "" then [OpenTab(cfg.meetID), Alert(NoAttendButton)] else [])
    else Outcome(f, counter + 1, [])
  }

  /** The OK-dialog step (features/attend.js:118-137). */
  function OkStep(cfg: Config, f: Flags, counter: int, page: Page): Outcome {
    if f.ok then Outcome(f, counter, [])
    else
      match page.okDialog
      case IframeWithOk =>
        Outcome(f.(ok := true), counter + 1, [ClickOk] + (if cfg.meetID != "" then [OpenTab(cfg.meetID)] else []))
      case IframeWithoutOk => Outcome(f, counter + 1, [])
      case NoIframe =>
        if counter + 1 > 4 then
          Outcome(f.(ok := true), counter + 1,
            if cfg.meetID != "" then [OpenTab(cfg.meetID), Alert(NoOkButton)] else [])
        else Outcome(f, counter + 1, [])
  }

  /** The weekday label the lesson step looks for; `undefined` outside 0..6. */
  function DayLabel(day: Option<int>): string {
    if day.Some? && 0 <= day.value < 7 then DAY_LABELS[day.value] else ""
  }

  /** The clicks the lesson step would make for configuration `cfg` on `page`. */
  function LessonClicksFor(cfg: Config, page: Page): seq<Effect> {
    LessonClicks(page.dayBoxes, |page.dayBoxes|, DayLabel(cfg.day), cfg.term, cfg.time)
  }

  /** The sequence with the attend-button option, inside the trigger minute: the four steps in order. */
  function AttendSequence(cfg: Config, f: Flags, counter: int, page: Page): Outcome {
    var o1 := ReloadStep(f, counter);
    var o2 := LessonStep(o1.flags, o1.counter, LessonClicksFor(cfg, page));
    var o3 := AttendStep(cfg, o2.flags, o2.counter, page);
    var o4 := OkStep(cfg, o3.flags, o3.counter, page);
    Outcome(o4.flags, o4.counter, o1.effects + o2.effects + o3.effects + o4.effects)
  }

  /** One `autoAttend` tick with step flags `flags` and retry counter `counter`. */
  function AutoAttend(cfg: Config, flags: Flags, counter: int, now: Now, page: Page): Outcome {
    if !InWindow(cfg, now) then Outcome(NO_FLAGS, counter, [])
    else if cfg.attendButton then AttendSequence(cfg, flags, counter, page)
    else if !flags.meet then
      Outcome(flags.(meet := true), counter,
        if cfg.meetID != "" then [OpenTab(cfg.meetID)] else [Alert(NoMeetLink)])
    else Outcome(flags, counter, [])
  }

  /** The state features/attend.js keeps across ticks: its settings, the step flags and the retry counter. */
  class AttendSequencer {
    var config: Config
    var flags: Flags
    var counter: int

    /** Script start: settings not loaded yet, counter 0, flags as localStorage kept them. */
    constructor (persisted: Flags)
      ensures config == INITIAL_CONFIG && flags == persisted && counter == 0
    {
      config := INITIAL_CONFIG;
      flags := persisted;
      counter := 0;
    }

    /** The `chrome.storage.sync.get` callback, looking periods up in `sched`. */
    method LoadSettings(stored: StoredSettings, sched: seq<Period>)
      requires StartsAreClocks(sched)
      modifies this
      ensures config == LoadConfig(stored, sched)
      ensures flags == old(flags) && counter == old(counter)
    {
      var schedulePeriod := StartOfLabel(sched, stored.attendT);
      config := Config(
        stored.attendA.GetOr(false), stored.attendC.GetOr(""), stored.attendT.GetOr(""),
        stored.attendM.GetOr(""), ConfiguredDay(stored.attendD), schedulePeriod);
    }

    /** One day box of the lesson step: its cards are scanned only when its trimmed title is the weekday label. */
    static method ScanDayBox(box: DayBox, b: nat, dayLabel: string, term: string, time: string) returns (clicks: seq<Effect>)
      ensures clicks == BoxClicks(box, b, dayLabel, term, time)
    {
      clicks := [];
      if Trim(box.title) == dayLabel {
        clicks := ScanCards(box.cards, b, term, time);
      }
    }

    /** The inner `forEach` of the lesson step: the cards of day box `b`. */
    static method ScanCards(cards: seq<Card>, b: nat, term: string, time: string) returns (clicks: seq<Effect>)
      ensures clicks == CardClicks(cards, |cards|, b, term, time)
    {
      clicks := [];
      var k := 0;
      while k < |cards|
        invariant 0 <= k <= |cards|
        invariant clicks == CardClicks(cards, k, b, term, time)
      {
        CardClicksNext(cards, k, b, term, time);
        if CardMatches(cards[k], term, time) && cards[k].hasLink {
          clicks := clicks + [ClickLesson(b, k)];
        }
        k := k + 1;
      }
    }

    /** The card scan of the lesson step: `forEach` over the day boxes, then over their cards. */
    static method ScanLessonCards(boxes: seq<DayBox>, dayLabel: string, term: string, time: string)
      returns (clicks: seq<Effect>)
      ensures clicks == LessonClicks(boxes, |boxes|, dayLabel, term, time)
    {
      clicks := [];
      var b := 0;
      while b < |boxes|
        invariant 0 <= b <= |boxes|
        invariant clicks == LessonClicks(boxes, b, dayLabel, term, time)
      {
        var boxClicks := ScanDayBox(boxes[b], b, dayLabel, term, time);
        LessonClicksNext(boxes, b, dayLabel, term, time);
        clicks := clicks + boxClicks;
        b := b + 1;
      }
    }

    /** The reload step on the current state. */
    method Reload() returns (effects: seq<Effect>)
      modifies this
      ensures Outcome(flags, counter, effects) == ReloadStep(old(flags), old(counter))
      ensures config == old(config)
    {
      effects := [];
      if !flags.reload {
        flags := flags.(reload := true);
        effects := [Navigate(RELOAD_URL)];
      }
    }

    /** The lesson step on the current state. */
    method ClickLessonCard(page: Page) returns (effects: seq<Effect>)
      modifies this
      ensures Outcome(flags, counter, effects) == LessonStep(old(flags), old(counter), LessonClicksFor(config, page))
      ensures config == old(config)
    {
      effects := [];
      if !flags.lesson {
        var clicks := ScanLessonCards(page.dayBoxes, DayLabel(config.day), config.term, config.time);
        if clicks != [] {
          flags := flags.(lesson := true);
        }
        effects := clicks;
      }
    }

    /** The attend-button step on the current state. */
    method ClickAttendButton(page: Page) returns (effects: seq<Effect>)
      modifies this
      ensures Outcome(flags, counter, effects) == AttendStep(config, old(flags), old(counter), page)
      ensures config == old(config)
    {
      effects := [];
      if !flags.attend {
        counter := counter + 1;
        if page.attendButton {
          flags := flags.(attend := true);
          counter := 0;
          effects := [ClickAttend];
        } else if counter > 4 {
          flags := flags.(attend := true, ok := true);
          if config.meetID != "" {
            effects := [OpenTab(config.meetID), Alert(NoAttendButton)];
          }
        }
      }
    }

    /** The OK-dialog step on the current state. */
    method ClickOkButton(page: Page) returns (effects: seq<Effect>)
      modifies this
      ensures Outcome(flags, counter, effects) == OkStep(config, old(flags), old(counter), page)
      ensures config == old(config)
    {
      effects := [];
      if !flags.ok {
        counter := counter + 1;
        if page.okDialog != NoIframe {
          if page.okDialog == IframeWithOk {
            flags := flags.(ok := true);
            effects := [ClickOk];
            if config.meetID != "" {
              effects := effects + [OpenTab(config.meetID)];
            }
          }
        } else if counter > 4 {
          flags := flags.(ok := true);
          if config.meetID != "" {
            effects := [OpenTab(config.meetID), Alert(NoOkButton)];
          }
        }
      }
    }

    /** One `autoAttend` tick. */
    method Tick(now: Now, page: Page) returns (effects: seq<Effect>)
      modifies this
      ensures Outcome(flags, counter, effects) == AutoAttend(config, old(flags), old(counter), now, page)
      ensures config == old(config)
    {
      effects := [];
      if !InWindow(config, now) {
        flags := NO_FLAGS;
        return;
      }
      if config.attendButton {
        var e1 := Reload();
        var e2 := ClickLessonCard(page);
        var e3 := ClickAttendButton(page);
        var e4 := ClickOkButton(page);
        effects := e1 + e2 + e3 + e4;
      } else if !flags.meet {
        flags := flags.(meet := true);
        if config.meetID != "" {
          effects := [OpenTab(config.meetID)];
        } else {
          effects := [Alert(NoMeetLink)];
        }
      }
    }
  }

  // ---------------------------------------------------------------------------------------
  // Properties of a tick

  /** Outside the trigger minute all five flags are cleared, the counter is kept and nothing happens. */
  lemma OutsideWindowResets(cfg: Config, flags: Flags, counter: int, now: Now, page: Page)
    requires !InWindow(cfg, now)
    ensures var o := AutoAttend(cfg, flags, counter, now, page);
      (forall k :: !IsSet(o.flags, k)) && o.counter == counter && o.effects == []
  {
  }

  /** Every flag set in `f` is set in `g`. */
  predicate Within(f: Flags, g: Flags) {
    (f.reload ==> g.reload) && (f.lesson ==> g.lesson) && (f.attend ==> g.attend) && (f.ok ==> g.ok) && (f.meet ==> g.meet)
  }

  /** The reload step only adds flags, sets the reload flag and leaves the lesson flag alone. */
  lemma ReloadStepFacts(f: Flags, counter: int)
    ensures Within(f, ReloadStep(f, counter).flags) && ReloadStep(f, counter).flags.lesson == f.lesson
    ensures ReloadStep(f, counter).flags.reload
  {
  }

  /** The lesson step only adds flags and leaves the reload flag alone. */
  lemma LessonStepFacts(f: Flags, counter: int, clicks: seq<Effect>)
    ensures Within(f, LessonStep(f, counter, clicks).flags) && LessonStep(f, counter, clicks).flags.reload == f.reload
  {
  }

  /** The attend-button step only adds flags, leaves the reload and lesson flags alone and never navigates. */
  lemma AttendStepFacts(cfg: Config, f: Flags, counter: int, page: Page)
    ensures Within(f, AttendStep(cfg, f, counter, page).flags) && AttendStep(cfg, f, counter, page).flags.reload == f.reload
    ensures AttendStep(cfg, f, counter, page).flags.lesson == f.lesson
    ensures forall e :: e in AttendStep(cfg, f, counter, page).effects ==> !e.Navigate?
  {
  }

  /** The OK-dialog step only adds flags, leaves the reload and lesson flags alone and never navigates. */
  lemma OkStepFacts(cfg: Config, f: Flags, counter: int, page: Page)
    ensures Within(f, OkStep(cfg, f, counter, page).flags) && OkStep(cfg, f, counter, page).flags.reload == f.reload
    ensures OkStep(cfg, f, counter, page).flags.lesson == f.lesson
    ensures forall e :: e in OkStep(cfg, f, counter, page).effects ==> !e.Navigate?
  {
  }

  /** The sequence is the four steps in order, their effects concatenated. */
  lemma SequenceSteps(cfg: Config, f: Flags, counter: int, page: Page, o1: Outcome, o2: Outcome, o3: Outcome, o4: Outcome)
    requires o1 == ReloadStep(f, counter)
    requires o2 == LessonStep(o1.flags, o1.counter, LessonClicksFor(cfg, page))
    requires o3 == AttendStep(cfg, o2.flags, o2.counter, page)
    requires o4 == OkStep(cfg, o3.flags, o3.counter, page)
    ensures AttendSequence(cfg, f, counter, page) == Outcome(o4.flags, o4.counter, o1.effects + (o2.effects + o3.effects + o4.effects))
  {
    AppendAssoc(o1.effects, o2.effects, o3.effects);
    AppendAssoc(o1.effects, o2.effects + o3.effects, o4.effects);
  }

  /** Across the four steps the flags only grow, the reload flag ends up set and only the lesson step touches the lesson flag. */
  lemma SequenceFlags(cfg: Config, f: Flags, counter: int, page: Page, o1: Outcome, o2: Outcome, o3: Outcome, o4: Outcome)
    requires o1 == ReloadStep(f, counter)
    requires o2 == LessonStep(o1.flags, o1.counter, LessonClicksFor(cfg, page))
    requires o3 == AttendStep(cfg, o2.flags, o2.counter, page)
    requires o4 == OkStep(cfg, o3.flags, o3.counter, page)
    ensures Within(f, o4.flags) && o4.flags.reload && o4.flags.lesson == o2.flags.lesson && o1.flags.lesson == f.lesson
  {
    ReloadStepFacts(f, counter);
    LessonStepFacts(o1.flags, o1.counter, LessonClicksFor(cfg, page));
    AttendStepFacts(cfg, o2.flags, o2.counter, page);
    OkStepFacts(cfg, o3.flags, o3.counter, page);
  }

  /** Only the first step navigates. */
  lemma SequenceNavigatesFirst(cfg: Config, f: Flags, counter: int, page: Page, o1: Outcome, o2: Outcome, o3: Outcome, o4: Outcome)
    requires o1 == ReloadStep(f, counter)
    requires o2 == LessonStep(o1.flags, o1.counter, LessonClicksFor(cfg, page))
    requires o3 == AttendStep(cfg, o2.flags, o2.counter, page)
    requires o4 == OkStep(cfg, o3.flags, o3.counter, page)
    ensures forall e :: e in o2.effects + o3.effects + o4.effects ==> !e.Navigate?
  {
    LessonClicksAreClicks(page.dayBoxes, DayLabel(cfg.day), cfg.term, cfg.time);
    AttendStepFacts(cfg, o2.flags, o2.counter, page);
    OkStepFacts(cfg, o3.flags, o3.counter, page);
    assert forall e :: e in o2.effects ==> !e.Navigate?;
  }

  /** Inside the trigger minute no flag is ever cleared. */
  lemma FlagsMonotoneInWindow(cfg: Config, flags: Flags, counter: int, now: Now, page: Page, k: FlagKey)
    requires InWindow(cfg, now) && IsSet(flags, k)
    ensures IsSet(AutoAttend(cfg, flags, counter, now, page).flags, k)
  {
    if cfg.attendButton {
      var o1 := ReloadStep(flags, counter);
      var o2 := LessonStep(o1.flags, o1.counter, LessonClicksFor(cfg, page));
      var o3 := AttendStep(cfg, o2.flags, o2.counter, page);
      var o4 := OkStep(cfg, o3.flags, o3.counter, page);
      SequenceSteps(cfg, flags, counter, page, o1, o2, o3, o4);
      SequenceFlags(cfg, flags, counter, page, o1, o2, o3, o4);
    }
  }

  /** The lesson step only ever clicks lesson links. */
  lemma LessonClicksAreClicks(boxes: seq<DayBox>, dayLabel: string, term: string, time: string)
    ensures forall e :: e in LessonClicks(boxes, |boxes|, dayLabel, term, time) ==> e.ClickLesson?
  {
    forall e | e in LessonClicks(boxes, |boxes|, dayLabel, term, time) ensures e.ClickLesson? {
      LessonClicksExactly(boxes, |boxes|, dayLabel, term, time, e);
    }
  }

  /** The reload flag is set by the tick that navigates; with it set, no tick navigates again. */
  lemma NavigateAtMostOnce(cfg: Config, flags: Flags, counter: int, now: Now, page: Page)
    requires InWindow(cfg, now) && cfg.attendButton
    ensures var o := AutoAttend(cfg, flags, counter, now, page);
      && o.flags.reload
      && (Navigate(RELOAD_URL) in o.effects <==> !flags.reload)
      && (forall e :: e in o.effects && e.Navigate? ==> e == Navigate(RELOAD_URL) && !flags.reload)
  {
    var o1 := ReloadStep(flags, counter);
    var o2 := LessonStep(o1.flags, o1.counter, LessonClicksFor(cfg, page));
    var o3 := AttendStep(cfg, o2.flags, o2.counter, page);
    var o4 := OkStep(cfg, o3.flags, o3.counter, page);
    SequenceSteps(cfg, flags, counter, page, o1, o2, o3, o4);
    SequenceFlags(cfg, flags, counter, page, o1, o2, o3, o4);
    SequenceNavigatesFirst(cfg, flags, counter, page, o1, o2, o3, o4);
  }

  /** The lesson flag ends up set iff it was set or some day-box card of the right weekday, term and period has a link. */
  lemma LessonFlagIffLinkedCard(cfg: Config, flags: Flags, counter: int, now: Now, page: Page)
    requires InWindow(cfg, now) && cfg.attendButton
    ensures AutoAttend(cfg, flags, counter, now, page).flags.lesson <==>
      flags.lesson || exists b, c :: ClickTarget(page.dayBoxes, b, c, DayLabel(cfg.day), cfg.term, cfg.time)
  {
    var o1 := ReloadStep(flags, counter);
    var o2 := LessonStep(o1.flags, o1.counter, LessonClicksFor(cfg, page));
    var o3 := AttendStep(cfg, o2.flags, o2.counter, page);
    var o4 := OkStep(cfg, o3.flags, o3.counter, page);
    SequenceSteps(cfg, flags, counter, page, o1, o2, o3, o4);
    SequenceFlags(cfg, flags, counter, page, o1, o2, o3, o4);
    var boxes, dayLabel := page.dayBoxes, DayLabel(cfg.day);
    var clicks := LessonClicksFor(cfg, page);
    if exists b, c :: ClickTarget(boxes, b, c, dayLabel, cfg.term, cfg.time) {
      var b, c :| ClickTarget(boxes, b, c, dayLabel, cfg.term, cfg.time);
      LessonClicksExactly(boxes, |boxes|, dayLabel, cfg.term, cfg.time, ClickLesson(b, c));
    } else if clicks != [] {
      LessonClicksExactly(boxes, |boxes|, dayLabel, cfg.term, cfg.time, clicks[0]);
    }
  }

  /** A found attend button is clicked, its flag set and the counter restarted (the OK step may then count once). */
  lemma AttendButtonFound(cfg: Config, flags: Flags, counter: int, now: Now, page: Page)
    requires InWindow(cfg, now) && cfg.attendButton
    requires !flags.attend && page.attendButton
    ensures var o := AutoAttend(cfg, flags, counter, now, page);
      && o.flags.attend && ClickAttend in o.effects
      && o.counter == (if flags.ok then 0 else 1)
  {
    var o1 := ReloadStep(flags, counter);
    var o2 := LessonStep(o1.flags, o1.counter, LessonClicksFor(cfg, page));
    var o3 := AttendStep(cfg, o2.flags, o2.counter, page);
    var o4 := OkStep(cfg, o3.flags, o3.counter, page);
    SequenceSteps(cfg, flags, counter, page, o1, o2, o3, o4);
    assert !o2.flags.attend && o2.flags.ok == flags.ok;
    assert o3.flags.attend && o3.flags.ok == flags.ok && o3.counter == 0 && o3.effects == [ClickAttend];
    assert o4.flags.attend && o4.counter == (if flags.ok then 0 else 1);
  }

  /** After the fifth tick without an attend button both the attend and the OK steps are skipped, and the Meet tab opens if configured. */
  lemma AttendButtonMissingSkips(cfg: Config, flags: Flags, counter: int, now: Now, page: Page)
    requires InWindow(cfg, now) && cfg.attendButton
    requires !flags.attend && !page.attendButton && counter >= 4
    ensures var o := AutoAttend(cfg, flags, counter, now, page);
      && o.flags.attend && o.flags.ok
      && o.counter == counter + 1
      && (cfg.meetID != "" ==> OpenTab(cfg.meetID) in o.effects)
  {
  }

  /** With no dialog iframe, the OK step gives up once the shared counter passes 4. */
  lemma OkDialogMissingSkips(cfg: Config, flags: Flags, counter: int, now: Now, page: Page)
    requires InWindow(cfg, now) && cfg.attendButton
    requires flags.attend && !flags.ok && page.okDialog == NoIframe && counter >= 4
    ensures var o := AutoAttend(cfg, flags, counter, now, page);
      o.flags.ok && o.counter == counter + 1
  {
  }

  /** While both buttons are missing, one tick advances the shared counter twice. */
  lemma CounterSharedBetweenSteps(cfg: Config, flags: Flags, counter: int, now: Now, page: Page)
    requires InWindow(cfg, now) && cfg.attendButton
    requires !flags.attend && !flags.ok
    requires !page.attendButton && page.okDialog != IframeWithOk && counter + 2 <= 4
    ensures var o := AutoAttend(cfg, flags, counter, now, page);
      o.counter == counter + 2 && !o.flags.attend && !o.flags.ok
  {
  }

  /** Without the attend-button option, the Meet link is opened (or its absence reported) on the first tick of the window only. */
  lemma MeetOpenedOncePerWindow(cfg: Config, flags: Flags, counter: int, now: Now, page: Page, page2: Page)
    requires InWindow(cfg, now) && !cfg.attendButton
    ensures var o := AutoAttend(cfg, flags, counter, now, page);
      && o.flags.meet
      && (OpenTab(cfg.meetID) in o.effects <==> !flags.meet && cfg.meetID != "")
      && AutoAttend(cfg, o.flags, o.counter, now, page2).effects == []
  {
  }

  /** A tick in the window with every flag already set does nothing. */
  lemma FinishedSequenceIsQuiet(cfg: Config, flags: Flags, counter: int, now: Now, page: Page)
    requires InWindow(cfg, now)
    requires forall k :: IsSet(flags, k)
    ensures AutoAttend(cfg, flags, counter, now, page) == Outcome(flags, counter, [])
  {
    assert IsSet(flags, ReloadKey) && IsSet(flags, LessonKey) && IsSet(flags, AttendKey);
    assert IsSet(flags, OkKey) && IsSet(flags, MeetKey);
  }

  // ---------------------------------------------------------------------------------------
  // The schedule table of features/attend.js

  /** The as-written table's 5限 starts at 19:36 — after it ends at 17:20. */
  lemma LocalScheduleFifthPeriodAsWritten()
    ensures StartsAreClocks(LOCAL_SCHEDULE_AS_WRITTEN)
    ensures !Ordered(LOCAL_SCHEDULE_AS_WRITTEN[3])
    ensures StartOfLabel(LOCAL_SCHEDULE_AS_WRITTEN, Some("5限")) == Some((19, 36))
  {
    var s := LOCAL_SCHEDULE_AS_WRITTEN;
    assert StartsAreClocks(s) by {
      forall i | 0 <= i < |s| ensures IsClock(s[i].start) {
        if i == 0 {} else if i == 1 {} else if i == 2 {} else {}
      }
    }
    assert s[0].name != "5限" && s[1].name != "5限" && s[2].name != "5限";
    assert s[3].name == "5限";
  }

  /** With the as-written table, 5限 triggers on Tuesday at 19:33 and not at 15:47, three minutes before 5限 really starts. */
  lemma FifthPeriodTriggersLateAsWritten()
    ensures var cfg := LoadConfig(StoredSettings(Some(true), None, None, Some("2"), Some("5限")), LOCAL_SCHEDULE_AS_WRITTEN);
      InWindow(cfg, Now(2, 19, 33)) && !InWindow(cfg, Now(2, 15, 47))
  {
    LocalScheduleFifthPeriodAsWritten();
    TuesdayIsDayTwo();
    var cfg := LoadConfig(StoredSettings(Some(true), None, None, Some("2"), Some("5限")), LOCAL_SCHEDULE_AS_WRITTEN);
    assert cfg.day == Some(2) && cfg.start == Some((19, 36));
  }

  /** A stored weekday of "2" configures Tuesday. */
  lemma TuesdayIsDayTwo()
    ensures ConfiguredDay(Some("2")) == Some(2)
  {
    assert ParseInt("2") == Some(2) by {
      NotSpace('2');
      assert TrimStart("2") == "2";
      assert DigitPrefix("2") == "2";
    }
  }

  /** With the corrected table (the shared `SCHEDULE`), each period triggers three minutes before it starts. */
  lemma PeriodTriggersBeforeStart(stored: StoredSettings, now: Now)
    requires stored.attendT.Some?
    ensures StartsAreClocks(SCHEDULE)
    ensures InWindow(LoadConfig(stored, SCHEDULE), now) ==> TriggersBefore(SCHEDULE, stored.attendT.value, now)
  {
    AttendanceScheduleWellFormed();
    TriggersBeforeStartIn(stored, SCHEDULE, now);
  }

  /** `now` is three minutes before the start of a period named `name`, and before its end. */
  predicate TriggersBefore(sched: seq<Period>, name: string, now: Now) {
    exists i :: 0 <= i < |sched| && sched[i].name == name && Ordered(sched[i])
      && now.hours * 60 + now.minutes + ATTEND_EXECUTION_MARGIN_MIN == ClockMinutes(sched[i].start)
      && now.hours * 60 + now.minutes < ClockMinutes(sched[i].end)
  }

  /** In any table whose periods start before they end, the trigger minute is three minutes before the period's start. */
  lemma TriggersBeforeStartIn(stored: StoredSettings, sched: seq<Period>, now: Now)
    requires stored.attendT.Some?
    requires forall i :: 0 <= i < |sched| ==> Ordered(sched[i])
    ensures StartsAreClocks(sched)
    ensures InWindow(LoadConfig(stored, sched), now) ==> TriggersBefore(sched, stored.attendT.value, now)
  {
    assert StartsAreClocks(sched) by {
      forall i | 0 <= i < |sched| ensures IsClock(sched[i].start) {
        assert Ordered(sched[i]);
      }
    }
    var cfg := LoadConfig(stored, sched);
    if InWindow(cfg, now) {
      var start := StartOfLabel(sched, stored.attendT);
      assert start.Some?;
      var i :| 0 <= i < |sched| && sched[i].name == stored.attendT.value
        && (forall j :: 0 <= j < i ==> sched[j].name != stored.attendT.value)
        && start.value == ClockParts(sched[i].start);
      assert Ordered(sched[i]);
      var minutes := ClockMinutes(sched[i].start);
      assert now.hours * 60 + now.minutes + ATTEND_EXECUTION_MARGIN_MIN == minutes;
    }
  }
}
