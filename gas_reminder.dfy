/**
 * The deadline reminder that runs as a Google Apps Script web app (the code embedded in
 * gas/autosetup.js): merging the homework list the extension posts into the stored list,
 * the 18/6/1-hour reminder flags, and the "other homework" section of a reminder mail.
 * Dates reach the model already parsed: `parseDate` stands for `new Date(text).getTime()`,
 * `None` for an invalid date.
 */
module GasReminder {
  import opened Wrappers
  import opened Text
  import opened Scan
  import opened Seqs
  import opened Sorting

  datatype Reminders = Reminders(h18: bool, h6: bool, h1: bool)

  const NO_REMINDERS: Reminders := Reminders(false, false, false)

  /** An entry of the stored list. */
  datatype StoredHomework = StoredHomework(lessonName: string, homeworkName: string, deadline: string, reminders: Reminders)

  /** An entry the extension posts; its deadline may be missing. */
  datatype IncomingHomework = IncomingHomework(lessonName: string, homeworkName: string, deadline: Option<string>)

  /** The identity of an entry: `${lessonName}|${homeworkName}|${deadline}`. */
  function Key(lessonName: string, homeworkName: string, deadline: string): string {
    lessonName + "|" + homeworkName + "|" + deadline
  }

  function StoredKey(h: StoredHomework): string {
    Key(h.lessonName, h.homeworkName, h.deadline)
  }

  function IncomingKey(h: IncomingHomework): string {
    Key(h.lessonName, h.homeworkName, h.deadline.GetOr(""))
  }

  /** The placeholder the LMS shows for "no deadline" (U+2010 HYPHEN). */
  const NO_DEADLINE: string := "‐"

  /** An incoming entry counts when its deadline is a non-empty string that does not trim to the placeholder. */
  predicate IsValid(h: IncomingHomework) {
    h.deadline.Some? && h.deadline.value != "" && Trim(h.deadline.value) != NO_DEADLINE
  }

  /** The stored form of a new entry: its three fields and no reminder sent. */
  function Fresh(h: IncomingHomework): StoredHomework {
    StoredHomework(h.lessonName, h.homeworkName, h.deadline.GetOr(""), NO_REMINDERS)
  }

  /** Keep a stored entry when its key is in `keys`. */
  function KeyIn(keys: set<string>): StoredHomework -> bool {
    h => StoredKey(h) in keys
  }

  /** Add an incoming entry when its key is not in `keys`. */
  function KeyNotIn(keys: set<string>): IncomingHomework -> bool {
    h => IncomingKey(h) !in keys
  }

  // ---------------------------------------------------------------------------------------
  // updateHomeworkList

  function ValidIncoming(incoming: seq<IncomingHomework>): seq<IncomingHomework> {
    Filter(incoming, |incoming|, IsValid)
  }

  function IncomingKeys(incoming: seq<IncomingHomework>): set<string> {
    var valid := ValidIncoming(incoming);
    KeySet(valid, |valid|, IncomingKey)
  }

  function KeptHomeworks(current: seq<StoredHomework>, incoming: seq<IncomingHomework>): seq<StoredHomework> {
    Filter(current, |current|, KeyIn(IncomingKeys(incoming)))
  }

  function AddedHomeworks(current: seq<StoredHomework>, incoming: seq<IncomingHomework>): seq<StoredHomework> {
    var kept := KeptHomeworks(current, incoming);
    var valid := ValidIncoming(incoming);
    KeptMapped(valid, |valid|, KeyNotIn(KeySet(kept, |kept|, StoredKey)), Fresh)
  }

  datatype MergeResult = MergeResult(homeworks: seq<StoredHomework>, addedCount: nat, removedCount: nat, ignoredCount: nat)

  /** What `updateHomeworkList(current, incoming)` returns. */
  function Merge(current: seq<StoredHomework>, incoming: seq<IncomingHomework>): MergeResult {
    var kept := KeptHomeworks(current, incoming);
    var added := AddedHomeworks(current, incoming);
    MergeResult(kept + added, |added|, |current| - |kept|, |incoming| - |ValidIncoming(incoming)|)
  }

  /** `updateHomeworkList`: the filter passes, the counters and the pushes of the source, in order. */
  method UpdateHomeworkList(current: seq<StoredHomework>, incoming: seq<IncomingHomework>) returns (r: MergeResult)
    ensures r == Merge(current, incoming)
  {
    var valid, incomingKeys := SelectValid(incoming);
    var ignoredCount := |incoming| - |valid|;
    var kept, removedCount := KeepCurrent(current, incomingKeys);
    var homeworks, addedCount := AddNew(kept, valid);
    r := MergeResult(homeworks, addedCount, removedCount, ignoredCount);
  }

  /** The valid incoming entries, and the set of their keys. */
  method SelectValid(incoming: seq<IncomingHomework>) returns (valid: seq<IncomingHomework>, incomingKeys: set<string>)
    ensures valid == ValidIncoming(incoming) && incomingKeys == IncomingKeys(incoming)
  {
    valid := [];
    for i := 0 to |incoming|
      invariant valid == Filter(incoming, i, IsValid)
    {
      if IsValid(incoming[i]) {
        valid := valid + [incoming[i]];
      }
    }
    incomingKeys := {};
    for j := 0 to |valid|
      invariant incomingKeys == KeySet(valid, j, IncomingKey)
    {
      incomingKeys := incomingKeys + {IncomingKey(valid[j])};
    }
  }

  /** The stored entries whose key is still listed, counting the ones dropped. */
  method KeepCurrent(current: seq<StoredHomework>, incomingKeys: set<string>) returns (kept: seq<StoredHomework>, removedCount: nat)
    ensures kept == Filter(current, |current|, KeyIn(incomingKeys))
    ensures removedCount == |current| - |kept|
  {
    kept := [];
    removedCount := 0;
    for i := 0 to |current|
      invariant kept == Filter(current, i, KeyIn(incomingKeys))
      invariant removedCount == i - |kept|
    {
      if StoredKey(current[i]) in incomingKeys {
        kept := kept + [current[i]];
      } else {
        removedCount := removedCount + 1;
      }
    }
  }

  /** The kept entries followed by every valid entry whose key none of them has, counting the additions. */
  method AddNew(kept: seq<StoredHomework>, valid: seq<IncomingHomework>) returns (homeworks: seq<StoredHomework>, addedCount: nat)
    ensures homeworks == kept + KeptMapped(valid, |valid|, KeyNotIn(KeySet(kept, |kept|, StoredKey)), Fresh)
    ensures addedCount == |KeptMapped(valid, |valid|, KeyNotIn(KeySet(kept, |kept|, StoredKey)), Fresh)|
  {
    var keptKeys := {};
    for j := 0 to |kept|
      invariant keptKeys == KeySet(kept, j, StoredKey)
    {
      keptKeys := keptKeys + {StoredKey(kept[j])};
    }
    homeworks := kept;
    addedCount := 0;
    for j := 0 to |valid|
      invariant homeworks == kept + KeptMapped(valid, j, KeyNotIn(keptKeys), Fresh)
      invariant addedCount == |KeptMapped(valid, j, KeyNotIn(keptKeys), Fresh)|
    {
      if IncomingKey(valid[j]) !in keptKeys {
        homeworks := homeworks + [Fresh(valid[j])];
        addedCount := addedCount + 1;
      }
    }
  }

  /** An entry is valid exactly when it is in the valid list. */
  lemma ValidMembers(incoming: seq<IncomingHomework>, h: IncomingHomework)
    ensures h in ValidIncoming(incoming) <==> h in incoming && IsValid(h)
  {
    FilterMembers(incoming, |incoming|, IsValid, h);
  }

  /** A key is an incoming key exactly when some valid incoming entry has it. */
  lemma IncomingKeyMembers(incoming: seq<IncomingHomework>, k: string)
    ensures k in IncomingKeys(incoming) <==> exists h :: h in incoming && IsValid(h) && IncomingKey(h) == k
  {
    var valid := ValidIncoming(incoming);
    KeySetMembers(valid, |valid|, IncomingKey, k);
    if exists h :: h in incoming && IsValid(h) && IncomingKey(h) == k {
      var h :| h in incoming && IsValid(h) && IncomingKey(h) == k;
      ValidMembers(incoming, h);
      var i :| 0 <= i < |valid| && valid[i] == h;
    }
    forall i | 0 <= i < |valid| ensures valid[i] in incoming && IsValid(valid[i]) {
      ValidMembers(incoming, valid[i]);
    }
  }

  /**
   * A stored entry survives the merge exactly when a valid incoming entry has its key, and the
   * survivors come first, in their stored order; the ignored, removed and added counts account
   * for every entry.
   */
  lemma MergeKeeps(current: seq<StoredHomework>, incoming: seq<IncomingHomework>, c: StoredHomework)
    ensures c in KeptHomeworks(current, incoming) <==>
      c in current && exists h :: h in incoming && IsValid(h) && IncomingKey(h) == StoredKey(c)
    ensures var r := Merge(current, incoming);
      && r.homeworks == KeptHomeworks(current, incoming) + AddedHomeworks(current, incoming)
      && r.ignoredCount + |ValidIncoming(incoming)| == |incoming|
      && r.removedCount + |KeptHomeworks(current, incoming)| == |current|
      && |r.homeworks| == |current| - r.removedCount + r.addedCount
  {
    FilterMembers(current, |current|, KeyIn(IncomingKeys(incoming)), c);
    IncomingKeyMembers(incoming, StoredKey(c));
  }

  /**
   * A new entry is added, with no reminder sent, for each valid incoming entry — duplicates
   * included — whose key no surviving entry has.
   */
  lemma MergeAdds(current: seq<StoredHomework>, incoming: seq<IncomingHomework>, a: StoredHomework)
    ensures a in AddedHomeworks(current, incoming) <==>
      exists h :: h in incoming && IsValid(h) && a == Fresh(h)
        && forall c :: c in KeptHomeworks(current, incoming) ==> StoredKey(c) != IncomingKey(h)
    ensures a in AddedHomeworks(current, incoming) ==> a.reminders == NO_REMINDERS
  {
    var kept := KeptHomeworks(current, incoming);
    var valid := ValidIncoming(incoming);
    var keptKeys := KeySet(kept, |kept|, StoredKey);
    KeptMappedMembers(valid, |valid|, KeyNotIn(keptKeys), Fresh, a);
    forall h ensures IncomingKey(h) in keptKeys <==> exists c :: c in kept && StoredKey(c) == IncomingKey(h) {
      KeySetMembers(kept, |kept|, StoredKey, IncomingKey(h));
    }
    forall h ensures h in valid <==> h in incoming && IsValid(h) {
      ValidMembers(incoming, h);
    }
  }

  /** Every key in the merged list is an incoming key, and every incoming key is in the merged list. */
  lemma MergedKeys(current: seq<StoredHomework>, incoming: seq<IncomingHomework>)
    ensures var r := Merge(current, incoming).homeworks;
      && (forall i :: 0 <= i < |r| ==> StoredKey(r[i]) in IncomingKeys(incoming))
      && (forall k :: k in IncomingKeys(incoming) ==> k in KeySet(r, |r|, StoredKey))
  {
    var r := Merge(current, incoming).homeworks;
    forall i | 0 <= i < |r| ensures StoredKey(r[i]) in IncomingKeys(incoming) {
      MergedEntryListed(current, incoming, i);
    }
    forall k | k in IncomingKeys(incoming) ensures k in KeySet(r, |r|, StoredKey) {
      IncomingKeyKept(current, incoming, k);
    }
  }

  /** Entry `i` of the merged list has an incoming key. */
  lemma MergedEntryListed(current: seq<StoredHomework>, incoming: seq<IncomingHomework>, i: nat)
    requires i < |Merge(current, incoming).homeworks|
    ensures StoredKey(Merge(current, incoming).homeworks[i]) in IncomingKeys(incoming)
  {
    var r := Merge(current, incoming).homeworks;
    var kept := KeptHomeworks(current, incoming);
    var added := AddedHomeworks(current, incoming);
    if i < |kept| {
      assert r[i] == kept[i];
      FilterMembers(current, |current|, KeyIn(IncomingKeys(incoming)), r[i]);
    } else {
      assert r[i] == added[i - |kept|];
      MergeAdds(current, incoming, r[i]);
      var h :| h in incoming && IsValid(h) && r[i] == Fresh(h);
      IncomingKeyMembers(incoming, IncomingKey(h));
    }
  }

  /** Every incoming key is the key of some merged entry. */
  lemma IncomingKeyKept(current: seq<StoredHomework>, incoming: seq<IncomingHomework>, k: string)
    requires k in IncomingKeys(incoming)
    ensures var r := Merge(current, incoming).homeworks; k in KeySet(r, |r|, StoredKey)
  {
    var r := Merge(current, incoming).homeworks;
    var kept := KeptHomeworks(current, incoming);
    var added := AddedHomeworks(current, incoming);
    IncomingKeyMembers(incoming, k);
    var h :| h in incoming && IsValid(h) && IncomingKey(h) == k;
    KeySetMembers(r, |r|, StoredKey, k);
    if c :| c in kept && StoredKey(c) == k {
      var i := IndexOfMember(kept, c);
      assert r[i] == c;
    } else {
      MergeAdds(current, incoming, Fresh(h));
      var i := IndexOfMember(added, Fresh(h));
      assert r[|kept| + i] == Fresh(h) && StoredKey(Fresh(h)) == k;
    }
  }

  /** Posting the same list twice changes nothing the second time: nothing is added and nothing removed. */
  lemma MergeIdempotent(current: seq<StoredHomework>, incoming: seq<IncomingHomework>)
    ensures var r := Merge(current, incoming);
      Merge(r.homeworks, incoming) == MergeResult(r.homeworks, 0, 0, r.ignoredCount)
  {
    var r := Merge(current, incoming).homeworks;
    MergedKeys(current, incoming);
    var keys := IncomingKeys(incoming);
    FilterAll(r, |r|, KeyIn(keys));
    assert r[..|r|] == r;
    assert KeptHomeworks(r, incoming) == r;
    var valid := ValidIncoming(incoming);
    var keptKeys := KeySet(r, |r|, StoredKey);
    forall i | 0 <= i < |valid| ensures !KeyNotIn(keptKeys)(valid[i]) {
      KeySetMembers(valid, |valid|, IncomingKey, IncomingKey(valid[i]));
    }
    KeptMappedNone(valid, |valid|, KeyNotIn(keptKeys), Fresh);
  }

  // ---------------------------------------------------------------------------------------
  // Deadlines

  /** /\s\(.\)/ at `i`: a space, a parenthesis, one character that ends no line, and a closing parenthesis. */
  function WeekdayAt(s: string, i: nat): Option<nat> {
    if i + 4 <= |s| && IsSpace(s[i]) && s[i + 1] == '(' && !IsLineTerminator(s[i + 2]) && s[i + 3] == ')' then Some(i)
    else None
  }

  /** `s.replace(/\s\(.\)/, '')`: the first weekday marker removed. */
  function RemoveWeekday(s: string): (r: string)
    ensures |r| == |s| || |r| + 4 == |s|
  {
    var p := FirstAt(s, 0, WeekdayAt);
    if p.Some? then s[..p.value] + s[p.value + 4..] else s
  }

  /** `s.replace(/年|月/g, "/")` */
  function Slashes(s: string): (r: string)
    ensures |r| == |s| && '年' !in r && '月' !in r
  {
    seq(|s|, i requires 0 <= i < |s| => if s[i] == '年' || s[i] == '月' then '/' else s[i])
  }

  /** `s.replace("日", "")`: the first 日 removed. */
  function RemoveFirstDay(s: string): (r: string)
    ensures |r| == |s| || |r| + 1 == |s|
  {
    if s == [] then []
    else if s[0] == '日' then s[1..]
    else [s[0]] + RemoveFirstDay(s[1..])
  }

  /** The text given to `new Date` for a stored deadline such as "2025年10月15日 (水) 23:59". */
  function DeadlineText(deadline: string): (r: string)
    ensures '年' !in r && '月' !in r
  {
    var t := RemoveFirstDay(Slashes(RemoveWeekday(deadline)));
    assert forall c :: c in t ==> c in Slashes(RemoveWeekday(deadline)) by {
      RemoveFirstDaySub(Slashes(RemoveWeekday(deadline)));
    }
    t
  }

  lemma {:induction false} RemoveFirstDaySub(s: string)
    ensures forall c :: c in RemoveFirstDay(s) ==> c in s
  {
    if s != [] && s[0] != '日' {
      RemoveFirstDaySub(s[1..]);
    }
  }

  /** The deadline of `h` in milliseconds, or `None` when it is not a date. */
  function DeadlineMs(h: StoredHomework, parseDate: string -> Option<int>): Option<int> {
    parseDate(DeadlineText(h.deadline))
  }

  // ---------------------------------------------------------------------------------------
  // checkDeadlinesAndSendReminders

  const HOUR_MS: int := 60 * 60 * 1000

  /** `now >= deadline - hours`: false for an invalid date, as every comparison with NaN is. */
  predicate Due(deadline: Option<int>, hours: int, now: int) {
    deadline.Some? && now >= deadline.value - hours * HOUR_MS
  }

  /** The reminders that fall due for an entry now: due and not sent before. */
  function NewlyDue(h: StoredHomework, deadline: Option<int>, now: int): Reminders {
    Reminders(Due(deadline, 18, now) && !h.reminders.h18,
              Due(deadline, 6, now) && !h.reminders.h6,
              Due(deadline, 1, now) && !h.reminders.h1)
  }

  predicate Any(r: Reminders) {
    r.h18 || r.h6 || r.h1
  }

  /** The entry after the three checks: each flag newly due is set. */
  function Remind(h: StoredHomework, deadline: Option<int>, now: int): StoredHomework {
    var d := NewlyDue(h, deadline, now);
    h.(reminders := Reminders(h.reminders.h18 || d.h18, h.reminders.h6 || d.h6, h.reminders.h1 || d.h1))
  }

  /** Flags are only ever set; a flag is set and a reminder queued exactly when the check is due and the flag was unset. */
  lemma RemindSpec(h: StoredHomework, deadline: Option<int>, now: int)
    ensures var r := Remind(h, deadline, now).reminders;
      && (r.h18 <==> h.reminders.h18 || Due(deadline, 18, now))
      && (r.h6 <==> h.reminders.h6 || Due(deadline, 6, now))
      && (r.h1 <==> h.reminders.h1 || Due(deadline, 1, now))
    ensures Remind(h, deadline, now) == h <==> !Any(NewlyDue(h, deadline, now))
    ensures Remind(h, deadline, now).(reminders := h.reminders) == h
  {
  }

  /** The 1-hour check is due only when the 6-hour one is, and that only when the 18-hour one is. */
  lemma DueNested(deadline: Option<int>, now: int)
    ensures Due(deadline, 1, now) ==> Due(deadline, 6, now)
    ensures Due(deadline, 6, now) ==> Due(deadline, 18, now)
  {
  }

  /**
   * A run at a later time after a run at `now` ends where the later run alone would; in
   * particular a second run at the same time sends nothing.
   */
  lemma RemindLater(h: StoredHomework, deadline: Option<int>, now: int, later: int)
    requires now <= later
    ensures Remind(Remind(h, deadline, now), deadline, later) == Remind(h, deadline, later)
    ensures !Any(NewlyDue(Remind(h, deadline, now), deadline, now))
  {
  }

  /** Every entry after the checks, in order. */
  function RemindAll(hs: seq<StoredHomework>, n: nat, parseDate: string -> Option<int>, now: int): (r: seq<StoredHomework>)
    requires n <= |hs|
    ensures |r| == n
  {
    if n == 0 then [] else RemindAll(hs, n - 1, parseDate, now) + [Remind(hs[n - 1], DeadlineMs(hs[n - 1], parseDate), now)]
  }

  lemma {:induction false} RemindAllAt(hs: seq<StoredHomework>, n: nat, parseDate: string -> Option<int>, now: int, i: nat)
    requires i < n <= |hs|
    ensures RemindAll(hs, n, parseDate, now)[i] == Remind(hs[i], DeadlineMs(hs[i], parseDate), now)
  {
    if i < n - 1 {
      RemindAllAt(hs, n - 1, parseDate, now, i);
    }
  }

  /** Which of the three checks a reminder group belongs to. */
  datatype Window = H18 | H6 | H1

  function Pick(r: Reminders, w: Window): bool {
    match w
    case H18 => r.h18
    case H6 => r.h6
    case H1 => r.h1
  }

  /** The entries queued for window `w`, each as it is after the checks (the group holds the objects the loop updates). */
  function Queue(hs: seq<StoredHomework>, n: nat, parseDate: string -> Option<int>, now: int, w: Window): seq<StoredHomework>
    requires n <= |hs|
  {
    if n == 0 then []
    else
      var h := hs[n - 1];
      Queue(hs, n - 1, parseDate, now, w)
      + (if Pick(NewlyDue(h, DeadlineMs(h, parseDate), now), w) then [Remind(h, DeadlineMs(h, parseDate), now)] else [])
  }

  /** One more entry: it joins the queue of `w` exactly when that reminder newly fell due. */
  lemma QueueNext(hs: seq<StoredHomework>, i: nat, parseDate: string -> Option<int>, now: int, w: Window)
    requires i < |hs|
    ensures var d := NewlyDue(hs[i], DeadlineMs(hs[i], parseDate), now);
      Queue(hs, i + 1, parseDate, now, w) ==
        Queue(hs, i, parseDate, now, w) + (if Pick(d, w) then [Remind(hs[i], DeadlineMs(hs[i], parseDate), now)] else [])
  {
  }

  /** Some entry among the first `n` had a reminder fall due. */
  predicate AnyDue(hs: seq<StoredHomework>, n: nat, parseDate: string -> Option<int>, now: int)
    requires n <= |hs|
  {
    exists i :: 0 <= i < n && Any(NewlyDue(hs[i], DeadlineMs(hs[i], parseDate), now))
  }

  lemma AnyDueStep(hs: seq<StoredHomework>, i: nat, parseDate: string -> Option<int>, now: int)
    requires i < |hs|
    ensures AnyDue(hs, i + 1, parseDate, now) <==>
      AnyDue(hs, i, parseDate, now) || Any(NewlyDue(hs[i], DeadlineMs(hs[i], parseDate), now))
  {
  }

  /** One more entry: its reminded form joins the list, and the queues of the windows that fell due. */
  lemma RunStep(hs: seq<StoredHomework>, i: nat, parseDate: string -> Option<int>, now: int)
    requires i < |hs|
    ensures var d, after := NewlyDue(hs[i], DeadlineMs(hs[i], parseDate), now), Remind(hs[i], DeadlineMs(hs[i], parseDate), now);
      && RemindAll(hs, i + 1, parseDate, now) == RemindAll(hs, i, parseDate, now) + [after]
      && Queue(hs, i + 1, parseDate, now, H18) == Queue(hs, i, parseDate, now, H18) + (if d.h18 then [after] else [])
      && Queue(hs, i + 1, parseDate, now, H6) == Queue(hs, i, parseDate, now, H6) + (if d.h6 then [after] else [])
      && Queue(hs, i + 1, parseDate, now, H1) == Queue(hs, i, parseDate, now, H1) + (if d.h1 then [after] else [])
      && (AnyDue(hs, i + 1, parseDate, now) <==> AnyDue(hs, i, parseDate, now) || Any(d))
  {
    AnyDueStep(hs, i, parseDate, now);
    QueueNext(hs, i, parseDate, now, H18);
    QueueNext(hs, i, parseDate, now, H6);
    QueueNext(hs, i, parseDate, now, H1);
  }

  /** The outcome of one run of `checkDeadlinesAndSendReminders`. */
  datatype ReminderRun = ReminderRun(homeworks: seq<StoredHomework>, h18: seq<StoredHomework>, h6: seq<StoredHomework>,
                                     h1: seq<StoredHomework>, dataWasUpdated: bool)

  /** The loop over the stored entries and the three checks of each. */
  method CheckDeadlines(homeworks: seq<StoredHomework>, parseDate: string -> Option<int>, now: int) returns (run: ReminderRun)
    ensures run.homeworks == RemindAll(homeworks, |homeworks|, parseDate, now)
    ensures run.h18 == Queue(homeworks, |homeworks|, parseDate, now, H18)
    ensures run.h6 == Queue(homeworks, |homeworks|, parseDate, now, H6)
    ensures run.h1 == Queue(homeworks, |homeworks|, parseDate, now, H1)
    ensures run.dataWasUpdated <==> AnyDue(homeworks, |homeworks|, parseDate, now)
  {
    var hs := [];
    var q18, q6, q1 := [], [], [];
    var updated := false;
    for i := 0 to |homeworks|
      invariant hs == RemindAll(homeworks, i, parseDate, now)
      invariant q18 == Queue(homeworks, i, parseDate, now, H18)
      invariant q6 == Queue(homeworks, i, parseDate, now, H6)
      invariant q1 == Queue(homeworks, i, parseDate, now, H1)
      invariant updated <==> AnyDue(homeworks, i, parseDate, now)
    {
      var h := homeworks[i];
      var d := NewlyDue(h, DeadlineMs(h, parseDate), now);
      var after := Remind(h, DeadlineMs(h, parseDate), now);
      RunStep(homeworks, i, parseDate, now);
      q18 := q18 + (if d.h18 then [after] else []);
      q6 := q6 + (if d.h6 then [after] else []);
      q1 := q1 + (if d.h1 then [after] else []);
      updated := updated || Any(d);
      hs := hs + [after];
    }
    run := ReminderRun(hs, q18, q6, q1, updated);
  }

  /** The stored list is written back exactly when the run changed some entry. */
  lemma RewriteOnlyOnChange(homeworks: seq<StoredHomework>, parseDate: string -> Option<int>, now: int)
    ensures AnyDue(homeworks, |homeworks|, parseDate, now) <==> RemindAll(homeworks, |homeworks|, parseDate, now) != homeworks
  {
    var r := RemindAll(homeworks, |homeworks|, parseDate, now);
    forall i | 0 <= i < |homeworks|
      ensures r[i] == homeworks[i] <==> !Any(NewlyDue(homeworks[i], DeadlineMs(homeworks[i], parseDate), now))
    {
      RemindAllAt(homeworks, |homeworks|, parseDate, now, i);
      RemindSpec(homeworks[i], DeadlineMs(homeworks[i], parseDate), now);
    }
    if r != homeworks {
      var i :| 0 <= i < |homeworks| && r[i] != homeworks[i];
    }
  }

  // ---------------------------------------------------------------------------------------
  // createOtherHomeworksHtml

  /** Another entry goes into the "other homework" list when it is not in the mail's group and its deadline is still ahead. */
  function Upcoming(mainKeys: set<string>, parseDate: string -> Option<int>, now: int): StoredHomework -> bool {
    h => StoredKey(h) !in mainKeys && DeadlineMs(h, parseDate).Some? && DeadlineMs(h, parseDate).value > now
  }

  /** The sort key: the deadline in milliseconds (every entry in the list has one). */
  function DeadlineKey(parseDate: string -> Option<int>): StoredHomework -> int {
    h => DeadlineMs(h, parseDate).GetOr(0)
  }

  /** The other upcoming entries, ascending by deadline. */
  function OtherHomeworks(main: seq<StoredHomework>, all: seq<StoredHomework>, parseDate: string -> Option<int>, now: int): seq<StoredHomework> {
    var list := Filter(all, |all|, Upcoming(KeySet(main, |main|, StoredKey), parseDate, now));
    SortBy(list, DeadlineKey(parseDate))
  }

  const OTHER_HEADING: string := "<h3 style=\"margin-top: 24px; border-bottom: 1px solid #ccc; padding-bottom: 8px;\">その他に締切が近い課題</h3><ul style=\"padding-left: 20px; list-style-type: none;\">"

  function OtherItemHtml(h: StoredHomework): string {
    "<li style=\"margin-bottom: 12px;\"><strong>" + h.lessonName + "</strong><br>　→" + h.homeworkName
    + "<br><span style=\"font-size: 0.9em; color: #555;\">(締切: " + h.deadline + ")</span></li>"
  }

  function ItemsHtml(hs: seq<StoredHomework>): string {
    if hs == [] then "" else OtherItemHtml(hs[0]) + ItemsHtml(hs[1..])
  }

  /** `createOtherHomeworksHtml(main, all)` */
  function OtherHomeworksHtml(main: seq<StoredHomework>, all: seq<StoredHomework>, parseDate: string -> Option<int>, now: int): string {
    var list := OtherHomeworks(main, all, parseDate, now);
    if |list| == 0 then "" else OTHER_HEADING + ItemsHtml(list) + "</ul>"
  }

  /**
   * The list holds exactly the entries of `all` outside the group whose deadline is ahead,
   * and is a rearrangement of `all` filtered to those entries (the same multiset), sorted
   * ascending by deadline; the section is empty exactly when the list is.
   */
  lemma OtherHomeworksSpec(main: seq<StoredHomework>, all: seq<StoredHomework>, parseDate: string -> Option<int>, now: int, h: StoredHomework)
    ensures var list := OtherHomeworks(main, all, parseDate, now);
      && SortedBy(list, DeadlineKey(parseDate))
      && (h in list <==> h in all && (forall m :: m in main ==> StoredKey(m) != StoredKey(h))
                         && DeadlineMs(h, parseDate).Some? && DeadlineMs(h, parseDate).value > now)
      && multiset(list) == multiset(Filter(all, |all|, Upcoming(KeySet(main, |main|, StoredKey), parseDate, now)))
      && (OtherHomeworksHtml(main, all, parseDate, now) == "" <==> list == [])
  {
    var keys := KeySet(main, |main|, StoredKey);
    var filtered := Filter(all, |all|, Upcoming(keys, parseDate, now));
    SortBySorted(filtered, DeadlineKey(parseDate));
    FilterMembers(all, |all|, Upcoming(keys, parseDate, now), h);
    KeySetMembers(main, |main|, StoredKey, StoredKey(h));
    assert h in SortBy(filtered, DeadlineKey(parseDate)) <==> h in multiset(filtered);
  }
}
