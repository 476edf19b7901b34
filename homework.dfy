/**
 * The homework list (features/homework.js): rows of the LMS homework table become homework
 * items, items are rendered, a copy sorted by deadline is sent on, the loading notice cycles
 * through four phases, and `main` gives up early on pages without a place for the list.
 */
module Homework {
  import opened Wrappers
  import opened Text
  import opened Scan
  import opened Sorting
  import opened Seqs

  /** A table cell: its text, and its first `a` element, if any. */
  datatype Cell = Cell(text: string, link: Option<Anchor>)

  /** An `a` element: its text and its `onclick` attribute (`None` when absent). */
  datatype Anchor = Anchor(text: string, onclick: Option<string>)

  /** A `tbody > tr:not(.thead)` row: its cells; a missing cell is `None`. */
  datatype Row = Row(cells: seq<Option<Cell>>)

  datatype HomeworkItem = HomeworkItem(deadline: string, homeworkName: string, lessonName: string,
                                       kyozaiId: Option<string>, kyozaiSyCd: Option<string>)

  /** The lessons of this centre are never homework. */
  const SUPPORT_CENTRE: string := "学習支援センター"

  /** `tr.children[i]?.textContent.trim() || ""`. */
  function CellText(r: Row, i: nat): string {
    if i < |r.cells| && r.cells[i].Some? then Trim(r.cells[i].value.text) else ""
  }

  /** The third cell's link, if both exist. */
  function NameLink(r: Row): Option<Anchor> {
    if 2 < |r.cells| && r.cells[2].Some? then r.cells[2].value.link else None
  }

  /** The homework name: the link text when it is non-empty after trimming, else the cell text. */
  function HomeworkName(r: Row): (name: string)
    ensures NameLink(r).Some? && Trim(NameLink(r).value.text) != "" ==> name == Trim(NameLink(r).value.text)
    ensures (NameLink(r).None? || Trim(NameLink(r).value.text) == "") ==> name == CellText(r, 2)
  {
    var l := NameLink(r);
    if l.Some? && Trim(l.value.text) != "" then Trim(l.value.text) else CellText(r, 2)
  }

  /** /kyozaiTitleLink\s*\(\s*'([^']*)'\s*,\s*'([^']*)'\s*\)/ at position `i`: both arguments, possibly empty. */
  function LooseTitleLinkAt(s: string, i: nat): Option<(string, string)> {
    if !LitAt(s, i, "kyozaiTitleLink") then None
    else
      var a := SpanEnd(s, i + 15, Space);
      if !LitAt(s, a, "(") then None
      else
        var b := SpanEnd(s, a + 1, Space);
        if !LitAt(s, b, "'") then None
        else
          var e1 := SpanEnd(s, b + 1, NotQuote);
          if !LitAt(s, e1, "'") then None
          else
            var c := SpanEnd(s, e1 + 1, Space);
            if !LitAt(s, c, ",") then None
            else
              var d := SpanEnd(s, c + 1, Space);
              if !LitAt(s, d, "'") then None
              else
                var e2 := SpanEnd(s, d + 1, NotQuote);
                if !LitAt(s, e2, "'") then None
                else
                  var f := SpanEnd(s, e2 + 1, Space);
                  if !LitAt(s, f, ")") then None
                  else Some((s[b + 1..e1], s[d + 1..e2]))
  }

  /** The two IDs from the link's `onclick`, when it is non-empty and matches. */
  function RowIds(r: Row): Option<(string, string)> {
    var l := NameLink(r);
    if l.None? || l.value.onclick.None? || l.value.onclick.value == "" then None
    else Search(l.value.onclick.value, LooseTitleLinkAt)
  }

  /** A row is kept iff it has a deadline, a homework name and a lesson name, and the lesson is not the support centre. */
  predicate Kept(r: Row) {
    !Contains(CellText(r, 4), SUPPORT_CENTRE) && CellText(r, 0) != "" && HomeworkName(r) != "" && CellText(r, 4) != ""
  }

  /** The item a kept row becomes. */
  function ItemOf(r: Row): HomeworkItem {
    var ids := RowIds(r);
    HomeworkItem(CellText(r, 0), HomeworkName(r), CellText(r, 4),
      if ids.Some? then Some(ids.value.0) else None,
      if ids.Some? then Some(ids.value.1) else None)
  }

  /** The items of the first `n` rows, in row order. */
  function Items(rows: seq<Row>, n: nat): seq<HomeworkItem>
    requires n <= |rows|
  {
    KeptMapped(rows, n, Kept, ItemOf)
  }

  /** `parseHomeworkData`: one pass over the rows, pushing the kept ones. */
  method ParseHomeworkData(rows: seq<Row>) returns (items: seq<HomeworkItem>)
    ensures items == Items(rows, |rows|)
  {
    items := [];
    for i := 0 to |rows|
      invariant items == Items(rows, i)
    {
      var r := rows[i];
      var deadline := CellText(r, 0);
      var name := HomeworkName(r);
      var lesson := CellText(r, 4);
      if !Contains(lesson, SUPPORT_CENTRE) && deadline != "" && name != "" && lesson != "" {
        var ids := RowIds(r);
        var kyozaiId, kyozaiSyCd := None, None;
        if ids.Some? {
          kyozaiId, kyozaiSyCd := Some(ids.value.0), Some(ids.value.1);
        }
        items := items + [HomeworkItem(deadline, name, lesson, kyozaiId, kyozaiSyCd)];
      }
    }
  }

  /** An item comes from a kept row, in the order of the rows. */
  lemma ItemsFromKeptRows(rows: seq<Row>, n: nat, it: HomeworkItem)
    requires n <= |rows|
    ensures it in Items(rows, n) <==> exists i :: 0 <= i < n && Kept(rows[i]) && ItemOf(rows[i]) == it
  {
    KeptMappedMembers(rows, n, Kept, ItemOf, it);
  }

  /** Every item has its three texts, is not a support-centre lesson, and has both IDs or neither. */
  lemma {:induction false} ItemsWellFormed(rows: seq<Row>, n: nat)
    requires n <= |rows|
    ensures forall it :: it in Items(rows, n) ==>
      && it.deadline != "" && it.homeworkName != "" && it.lessonName != ""
      && !Contains(it.lessonName, SUPPORT_CENTRE)
      && (it.kyozaiId.Some? <==> it.kyozaiSyCd.Some?)
  {
    if n > 0 {
      ItemsWellFormed(rows, n - 1);
    }
  }

  /** There are at most as many items as rows. */
  lemma ItemsAtMostRows(rows: seq<Row>, n: nat)
    requires n <= |rows|
    ensures |Items(rows, n)| <= n
  {
    KeptMappedLength(rows, n, Kept, ItemOf);
  }

  // ---------------------------------------------------------------------------------------
  // Rendering

  /** One rendered item: its data attributes and hand cursor (both or neither), its deadline colour and texts. */
  datatype ItemView = ItemView(data: Option<(string, string)>, handCursor: bool, urgent: bool,
                               deadlineText: string, lessonText: string, nameText: string)

  datatype Rendered = NoHomeworkMessage | ItemList(views: seq<ItemView>)

  const DAY_MS: int := 1000 * 60 * 60 * 24

  /**
   * One item: `deadlineMs` stands for the parsed deadline and `nowMs` for `new Date()`; the
   * deadline is red when it is at most seven days ahead (in milliseconds, so the fractional
   * day comparison of the source is exact here).
   */
  function RenderItem(it: HomeworkItem, deadlineMs: int, nowMs: int): (v: ItemView)
    ensures v.data.Some? <==> v.handCursor
    ensures v.handCursor <==> Truthy(it.kyozaiId) && Truthy(it.kyozaiSyCd)
    ensures v.data.Some? ==> v.data.value == (it.kyozaiId.value, it.kyozaiSyCd.value)
    ensures v.urgent <==> 0 <= deadlineMs - nowMs <= 7 * DAY_MS
  {
    var clickable := Truthy(it.kyozaiId) && Truthy(it.kyozaiSyCd);
    ItemView(if clickable then Some((it.kyozaiId.value, it.kyozaiSyCd.value)) else None, clickable,
      0 <= deadlineMs - nowMs <= 7 * DAY_MS,
      "📅 " + it.deadline, it.lessonName, "📝 " + it.homeworkName)
  }

  predicate Truthy(v: Option<string>) { v.Some? && v.value != "" }

  function RenderItems(items: seq<HomeworkItem>, deadlineMs: string -> int, nowMs: int): (r: seq<ItemView>)
    ensures |r| == |items|
    ensures forall i :: 0 <= i < |items| ==> r[i] == RenderItem(items[i], deadlineMs(items[i].deadline), nowMs)
  {
    if items == [] then []
    else [RenderItem(items[0], deadlineMs(items[0].deadline), nowMs)] + RenderItems(items[1..], deadlineMs, nowMs)
  }

  /** `renderHomework`: a single message for no items, one view per item otherwise. */
  function RenderHomework(items: seq<HomeworkItem>, deadlineMs: string -> int, nowMs: int): (r: Rendered)
    ensures r.NoHomeworkMessage? <==> items == []
    ensures r.ItemList? ==> |r.views| == |items|
  {
    if items == [] then NoHomeworkMessage else ItemList(RenderItems(items, deadlineMs, nowMs))
  }

  /** The hidden form `submitKyozaiForm` posts: its action and its two inputs. */
  datatype KyozaiForm = KyozaiForm(action: string, kyozaiId: string, kyozaiSyCdHidden: string)

  /** A click on an item submits the form only when it carries both IDs, non-empty. */
  function ClickAction(v: ItemView, sid: string): (r: Option<KyozaiForm>)
    ensures r.Some? <==> v.data.Some? && v.data.value.0 != "" && v.data.value.1 != ""
    ensures r.Some? ==> r.value.action == "/lms/klmsKlil/kyozaiTitleLink;SID=" + sid
    ensures r.Some? ==> (r.value.kyozaiId, r.value.kyozaiSyCdHidden) == v.data.value
  {
    if v.data.Some? && v.data.value.0 != "" && v.data.value.1 != "" then
      Some(KyozaiForm("/lms/klmsKlil/kyozaiTitleLink;SID=" + sid, v.data.value.0, v.data.value.1))
    else None
  }

  /** Rendered items are clickable exactly when their row carried both IDs non-empty. */
  lemma ClickableIffIds(it: HomeworkItem, deadlineMs: int, nowMs: int, sid: string)
    ensures ClickAction(RenderItem(it, deadlineMs, nowMs), sid).Some? <==> Truthy(it.kyozaiId) && Truthy(it.kyozaiSyCd)
  {
  }

  // ---------------------------------------------------------------------------------------
  // Sending

  /**
   * `sendHomeworkToGAS`: nothing for an empty list; otherwise a copy sorted ascending by
   * deadline (`deadlineMs` stands for the parsed date). The webhook-URL check runs in a
   * storage callback that returns from the callback only, so it never stops the message.
   */
  function SendHomework(items: seq<HomeworkItem>, deadlineMs: string -> int): (r: Option<seq<HomeworkItem>>)
    ensures r.None? <==> items == []
  {
    if items == [] then None else Some(SortBy(items, (it: HomeworkItem) => deadlineMs(it.deadline)))
  }

  /** The message holds the same items as the list, sorted by deadline, items with equal deadlines in list order. */
  lemma SendSortsCopy(items: seq<HomeworkItem>, deadlineMs: string -> int, t: int)
    requires items != []
    ensures var key := (it: HomeworkItem) => deadlineMs(it.deadline);
      var sent := SendHomework(items, deadlineMs).value;
      && multiset(sent) == multiset(items)
      && SortedBy(sent, key)
      && WithKey(sent, t, key) == WithKey(items, t, key)
  {
    var key := (it: HomeworkItem) => deadlineMs(it.deadline);
    SortBySorted(items, key);
    SortByStable(items, t, key);
  }

  // ---------------------------------------------------------------------------------------
  // The loading notice

  const PHASES: seq<string> := ["更新中", "更新中.", "更新中..", "更新中..."]

  /** The "updating" notice; its text is `PHASES[phaseIndex]`. */
  class LoadingIndicator {
    var phaseIndex: nat

    predicate Valid()
      reads this
    {
      phaseIndex < |PHASES|
    }

    function Text(): string
      reads this
      requires Valid()
    {
      PHASES[phaseIndex]
    }

    constructor()
      ensures Valid() && phaseIndex == 0
    {
      phaseIndex := 0;
    }

    /** One 500 ms interval tick. */
    method Tick()
      modifies this
      requires Valid()
      ensures Valid() && phaseIndex == (old(phaseIndex) + 1) % 4
    {
      phaseIndex := (phaseIndex + 1) % |PHASES|;
    }
  }

  /** The phase after `k` ticks from phase `p`. */
  function PhaseAfter(p: nat, k: nat): (r: nat)
    requires p < 4
    ensures r < 4
  {
    if k == 0 then p else (PhaseAfter(p, k - 1) + 1) % 4
  }

  /** The phases run 0, 1, 2, 3 and back to 0: four ticks restore the phase. */
  lemma {:induction false} PhasesCycle(p: nat, k: nat)
    requires p < 4
    ensures PhaseAfter(p, k) == (p + k) % 4
  {
    if k > 0 {
      PhasesCycle(p, k - 1);
      NextPhaseMod(p + k - 1);
    }
  }

  /** Stepping a phase and then wrapping is wrapping the next count. */
  lemma NextPhaseMod(m: nat)
    ensures (m % 4 + 1) % 4 == (m + 1) % 4
  {
    var q := m / 4;
    assert m == 4 * q + m % 4;
    if m % 4 == 3 {
      assert m + 1 == 4 * (q + 1);
    } else {
      assert m + 1 == 4 * q + (m % 4 + 1);
    }
  }

  // ---------------------------------------------------------------------------------------
  // main

  /** Whether `main` goes on, and if so whether it shows the list (only on the page with the homework form). */
  function MainStart(hasForm: bool, hasHeader: bool, containerExists: bool, sid: Option<string>): (r: Option<bool>)
    ensures r.None? <==> (!hasForm && !hasHeader) || containerExists || sid.None?
    ensures r.Some? ==> r.value == hasForm
  {
    if (!hasForm && !hasHeader) || containerExists then None
    else if sid.None? then None
    else Some(hasForm)
  }

  /** What `main` does once the homework table has loaded. */
  datatype Update = ReplaceContainer | CacheHtml | SendItems(items: seq<HomeworkItem>)

  function AfterLoad(display: bool, gasWebhook: bool, items: seq<HomeworkItem>, deadlineMs: string -> int): (r: seq<Update>)
    ensures ReplaceContainer in r <==> display
    ensures CacheHtml in r
    ensures (exists m :: SendItems(m) in r) <==> gasWebhook && items != []
  {
    var send := SendHomework(items, deadlineMs);
    (if display then [ReplaceContainer] else []) + [CacheHtml]
      + (if gasWebhook && send.Some? then [SendItems(send.value)] else [])
  }
}
