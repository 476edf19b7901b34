/**
 * The stateful half of the bulk material opener (features/kyozaiopen.js): the `StateManager`
 * over its local- and session-storage keys, page detection, the per-material dispatch of the
 * `Downloader`, the click handlers of the `ActionHandler`, the automatic download on the
 * detail page and the main-page buttons, which are added once per material key.
 */
module KyozaiState {
  import opened Wrappers
  import opened Text
  import opened Scan
  import opened KyozaiParse
  import opened Seqs

  const TRIGGER_TIMEOUT: int := 2 * 60 * 1000
  const SESSION_TIMEOUT: int := 1 * 60 * 1000

  /** A JSON text in storage, as `JSON.parse` sees it: a value, text it rejects, or the empty (falsy) string. */
  datatype Stored<T> = Parsed(value: T) | Unparsable | EmptyText

  /** The bulk-operation record; `materials` is `None` when the stored value is not an array. */
  datatype BulkData = BulkData(materials: Option<seq<Material>>, returnUrl: string, originalText: string, buttonSelector: string)

  datatype CompletionData = CompletionData(materialCount: nat, buttonSelector: string, originalText: string)

  /** The three localStorage keys `klpf_kyozai_bulk_operation`, `…_button_triggered`, `…_trigger_timestamp` (`None` when absent). */
  datatype Local = Local(bulkOperation: Option<Stored<BulkData>>, buttonTriggered: Option<string>, triggerTimestamp: Option<string>)

  /** The four sessionStorage keys `…_button_session`, `…_session_timestamp`, `…_bulk_completed`, `…_completion_data`. */
  datatype Session = Session(
    sessionTrigger: Option<string>, sessionTimestamp: Option<string>,
    completedFlag: Option<string>, completionData: Option<Stored<CompletionData>>)

  // ---------------------------------------------------------------------------------------
  // Storage transitions

  /** `setBulkOperation(data)` at time `now`: both flags `'true'`, both timestamps `now`. */
  function SetBulk(l: Local, s: Session, d: BulkData, now: nat): (Local, Session) {
    (Local(Some(Parsed(d)), Some("true"), Some(NatToString(now))),
     s.(sessionTrigger := Some("true"), sessionTimestamp := Some(NatToString(now))))
  }

  /** `clearBulkOperation`: the five bulk keys are removed; the completion keys stay. */
  function ClearBulk(l: Local, s: Session): (Local, Session) {
    (Local(None, None, None), s.(sessionTrigger := None, sessionTimestamp := None))
  }

  /** `getBulkOperation`: unparsable data is cleared and gives nothing. */
  function GetBulk(l: Local, s: Session): (Option<BulkData>, Local, Session) {
    match l.bulkOperation
    case Some(Parsed(d)) => (Some(d), l, s)
    case Some(Unparsable) => var c := ClearBulk(l, s); (None, c.0, c.1)
    case _ => (None, l, s)
  }

  /** A present, non-empty (truthy) string. */
  predicate Truthy(v: Option<string>) { v.Some? && v.value != "" }

  /** `isButtonTriggered` at time `now`. */
  predicate TriggeredAt(l: Local, s: Session, now: int) {
    && l.buttonTriggered == Some("true") && s.sessionTrigger == Some("true")
    && Truthy(l.triggerTimestamp) && Truthy(s.sessionTimestamp)
    && var t1 := ParseInt(l.triggerTimestamp.value);
       var t2 := ParseInt(s.sessionTimestamp.value);
       // `parseInt` giving NaN makes both comparisons false
       t1.Some? && t2.Some? && now - t1.value < TRIGGER_TIMEOUT && now - t2.value < SESSION_TIMEOUT
  }

  /** `setCompletionData(data)`. */
  function WriteCompletion(s: Session, d: CompletionData): Session {
    s.(completedFlag := Some("true"), completionData := Some(Parsed(d)))
  }

  /** `getCompletionData`: nothing unless the flag is `'true'`; then both keys go, whatever the data. */
  function ReadCompletion(s: Session): (Option<CompletionData>, Session) {
    if s.completedFlag != Some("true") then (None, s)
    else
      var s1 := s.(completedFlag := None, completionData := None);
      match s.completionData
      case Some(Parsed(d)) => (Some(d), s1)
      case _ => (None, s1)
  }

  /** What `setBulkOperation` stores, `getBulkOperation` reads back, and nothing changes. */
  lemma BulkRoundTrip(l: Local, s: Session, d: BulkData, now: nat)
    ensures var w := SetBulk(l, s, d, now);
      GetBulk(w.0, w.1) == (Some(d), w.0, w.1)
  {
  }

  /** Right after `setBulkOperation` at time `t`, the trigger holds exactly while less than a minute (the shorter, session timeout) has passed. */
  lemma TriggeredAfterSet(l: Local, s: Session, d: BulkData, t: nat, now: int)
    ensures var w := SetBulk(l, s, d, t);
      TriggeredAt(w.0, w.1, now) <==> now - t < SESSION_TIMEOUT
  {
    ParseIntOfNatToString(t);
    assert NatToString(t) != "";
  }

  /** After `clearBulkOperation` the trigger never holds, and the completion keys are as they were. */
  lemma ClearedIsNotTriggered(l: Local, s: Session, now: int)
    ensures var c := ClearBulk(l, s);
      !TriggeredAt(c.0, c.1, now) && c.0.bulkOperation.None?
      && c.1.completedFlag == s.completedFlag && c.1.completionData == s.completionData
  {
  }

  /** Completion data is read back once: the first read returns what was written, the second nothing. */
  lemma CompletionReadOnce(s: Session, d: CompletionData)
    ensures var r1 := ReadCompletion(WriteCompletion(s, d));
      r1.0 == Some(d) && ReadCompletion(r1.1).0.None?
  {
  }

  /** Whenever the flag is `'true'` both completion keys are removed, whatever the data; without it nothing changes. */
  lemma CompletionKeysRemoved(s: Session)
    ensures var r := ReadCompletion(s);
      && (s.completedFlag == Some("true") ==> r.1.completedFlag.None? && r.1.completionData.None?)
      && (s.completedFlag != Some("true") ==> r == (None, s))
      && (r.0.Some? <==> s.completedFlag == Some("true") && s.completionData.Some? && s.completionData.value.Parsed?)
  {
  }

  // ---------------------------------------------------------------------------------------
  // The state manager

  class StateManager {
    var processedIds: set<string>
    var local: Local
    var session: Session

    /** A new manager (one per page load) over the storage the browser already holds. */
    constructor(l: Local, s: Session)
      ensures processedIds == {} && local == l && session == s
    {
      processedIds := {};
      local := l;
      session := s;
    }

    predicate IsProcessed(id: string)
      reads this
    {
      id in processedIds
    }

    method MarkProcessed(id: string)
      modifies this
      ensures processedIds == old(processedIds) + {id}
      ensures local == old(local) && session == old(session)
    {
      processedIds := processedIds + {id};
    }

    method SetBulkOperation(d: BulkData, now: nat)
      modifies this
      ensures (local, session) == SetBulk(old(local), old(session), d, now)
      ensures processedIds == old(processedIds)
    {
      var ts := NatToString(now);
      local := Local(Some(Parsed(d)), Some("true"), Some(ts));
      session := session.(sessionTrigger := Some("true"), sessionTimestamp := Some(ts));
    }

    method GetBulkOperation() returns (r: Option<BulkData>)
      modifies this
      ensures (r, local, session) == GetBulk(old(local), old(session))
      ensures processedIds == old(processedIds)
    {
      r := None;
      if local.bulkOperation.Some? {
        match local.bulkOperation.value
        case Parsed(d) => r := Some(d);
        case Unparsable => ClearBulkOperation();
        case EmptyText =>
      }
    }

    method IsButtonTriggered(now: int) returns (b: bool)
      ensures b == TriggeredAt(local, session, now)
    {
      b := false;
      if local.buttonTriggered == Some("true") && session.sessionTrigger == Some("true")
        && Truthy(local.triggerTimestamp) && Truthy(session.sessionTimestamp)
      {
        var t1 := ParseInt(local.triggerTimestamp.value);
        var t2 := ParseInt(session.sessionTimestamp.value);
        if t1.Some? && t2.Some? {
          b := now - t1.value < TRIGGER_TIMEOUT && now - t2.value < SESSION_TIMEOUT;
        }
      }
    }

    method ClearBulkOperation()
      modifies this
      ensures (local, session) == ClearBulk(old(local), old(session))
      ensures processedIds == old(processedIds)
    {
      local := Local(None, None, None);
      session := session.(sessionTrigger := None, sessionTimestamp := None);
    }

    method SetCompletionData(d: CompletionData)
      modifies this
      ensures session == WriteCompletion(old(session), d)
      ensures local == old(local) && processedIds == old(processedIds)
    {
      session := session.(completedFlag := Some("true"), completionData := Some(Parsed(d)));
    }

    method GetCompletionData() returns (r: Option<CompletionData>)
      modifies this
      ensures (r, session) == ReadCompletion(old(session))
      ensures local == old(local) && processedIds == old(processedIds)
    {
      r := None;
      if session.completedFlag == Some("true") {
        var data := session.completionData;
        session := session.(completedFlag := None, completionData := None);
        if data.Some? && data.value.Parsed? {
          r := Some(data.value.value);
        }
      }
    }
  }

  // ---------------------------------------------------------------------------------------
  // Page detection

  /** Which of the five selectors `detect` probes are present. */
  datatype PageProbe = PageProbe(srclForm: bool, detailTable: bool, backButton: bool, mainForm: bool, kyozaiLink: bool)

  datatype PageKind = DetailPage | MainPage | UnknownPage

  function Detect(p: PageProbe): PageKind {
    if p.srclForm && p.detailTable && p.backButton then DetailPage
    else if p.mainForm && p.kyozaiLink then MainPage
    else UnknownPage
  }

  /** The detail page needs all three of its markers; the main page needs both of its own and not all three detail markers. */
  lemma DetectCases(p: PageProbe)
    ensures Detect(p) == DetailPage <==> p.srclForm && p.detailTable && p.backButton
    ensures Detect(p) == MainPage <==> !(p.srclForm && p.detailTable && p.backButton) && p.mainForm && p.kyozaiLink
    ensures Detect(p) == UnknownPage <==> !(p.srclForm && p.detailTable && p.backButton) && !(p.mainForm && p.kyozaiLink)
  {
  }

  // ---------------------------------------------------------------------------------------
  // Opening one material

  /** One of the page's own functions: missing, present and returning, or present and throwing. */
  datatype PageFn = Absent | Returns | Throws

  /**
   * What the page offers `processMaterial`: the `#srcl_form`, the session ID `getSid()` found
   * in the URL, the page's own `downloadFile` and `openReference`, and whether it defines
   * `link` and `bacKyozai`.
   */
  datatype Env = Env(srclForm: bool, sid: Option<string>, downloadFile: PageFn, openReference: PageFn, hasLink: bool, hasBacKyozai: bool)

  /** How a material was opened; `Failed` is `processMaterial` returning false. */
  datatype Opened =
    | SrclForm(action: string, fileId: string, syosaiId: Option<string>, newTab: bool)
    | PageDownloadFile(fileId: string, syosai: string)
    | PageOpenReference(fileId: string, officeFlg: bool)
    | HiddenForm(action: string, fileId: string, syosaiId: Option<string>, newTab: bool)
    | Window(url: string)
    | Failed

  const LMS_ORIGIN: string := "https://study.ns.kogakuin.ac.jp"

  /** The form action of a download or reference, carrying the session ID. */
  function FormAction(reference: bool, officeFlg: bool, sid: string): string {
    if !reference then "/lms/srcsSrcl/downloadFile;SID=" + sid
    else if officeFlg then "/lms/srcsSrcl/downloadOffice;SID=" + sid
    else "/lms/srcsSrcl/downloadImage;SID=" + sid
  }

  function NonEmpty(s: string): Option<string> { if s == "" then None else Some(s) }

  /**
   * `Downloader.processMaterial`: the `srcl_form`, then the page function, then a hidden form
   * (also when the page function throws); external links open in a new window.
   */
  function ProcessMaterial(m: Material, env: Env): Opened {
    match m
    case Download(_, fileId, syosaiId) =>
      if env.srclForm && env.sid.Some? then SrclForm(FormAction(false, false, env.sid.value), fileId, NonEmpty(syosaiId), false)
      else if env.downloadFile == Returns then PageDownloadFile(fileId, syosaiId)
      else if env.sid.Some? then HiddenForm(FormAction(false, false, env.sid.value), fileId, NonEmpty(syosaiId), false)
      else Failed
    case Reference(_, fileId, officeFlg) =>
      if env.srclForm && env.sid.Some? then SrclForm(FormAction(true, officeFlg, env.sid.value), fileId, None, true)
      else if env.openReference == Returns then PageOpenReference(fileId, officeFlg)
      else if env.sid.Some? then HiddenForm(FormAction(true, officeFlg, env.sid.value), fileId, None, true)
      else Failed
    case External(_, url) =>
      Window(if StartsWith(url, "/") then LMS_ORIGIN + url else url)
  }

  /** Opening fails only for a file without a session ID whose page function is missing or throws; external links always open. */
  lemma ProcessMaterialFails(m: Material, env: Env)
    ensures ProcessMaterial(m, env) == Failed <==>
      && env.sid.None?
      && (m.Download? ==> env.downloadFile != Returns)
      && (m.Reference? ==> env.openReference != Returns)
      && !m.External?
  {
  }

  /** A page function that throws is caught, and the material goes on to the hidden form as if the function were missing. */
  lemma ThrowingPageFunctionFallsBack(m: Material, env: Env)
    requires env.downloadFile == Throws || env.openReference == Throws
    ensures ProcessMaterial(m, env) == ProcessMaterial(m, env.(
      downloadFile := if env.downloadFile == Throws then Absent else env.downloadFile,
      openReference := if env.openReference == Throws then Absent else env.openReference))
    ensures !env.srclForm && env.sid.Some? && ((m.Download? && env.downloadFile == Throws) || (m.Reference? && env.openReference == Throws))
      ==> ProcessMaterial(m, env).HiddenForm?
  {
  }

  /** A reference goes to `downloadOffice` exactly when `officeFlg` is set, always in a new tab; a download never opens a tab. */
  lemma ProcessMaterialTargets(m: Material, env: Env)
    ensures var o := ProcessMaterial(m, env);
      && ((o.SrclForm? || o.HiddenForm?) ==> env.sid.Some? && o.newTab == m.Reference? && o.fileId == m.fileId)
      && ((o.SrclForm? || o.HiddenForm?) && m.Reference? ==>
            o.action == (if m.officeFlg then "/lms/srcsSrcl/downloadOffice;SID=" else "/lms/srcsSrcl/downloadImage;SID=") + env.sid.value)
      && (o.Window? <==> m.External?)
  {
  }

  /** `_processMaterialsInSequence`: one material after another. */
  method ProcessInSequence(ms: seq<Material>, env: Env) returns (outcomes: seq<Opened>)
    ensures |outcomes| == |ms|
    ensures forall i :: 0 <= i < |ms| ==> outcomes[i] == ProcessMaterial(ms[i], env)
  {
    outcomes := [];
    for i := 0 to |ms|
      invariant |outcomes| == i
      invariant forall j :: 0 <= j < i ==> outcomes[j] == ProcessMaterial(ms[j], env)
    {
      outcomes := outcomes + [ProcessMaterial(ms[i], env)];
    }
  }

  // ---------------------------------------------------------------------------------------
  // The click handlers

  /** What a click handler does, in order. */
  datatype UiEffect =
    | Open(material: Material)
    | StoreBulk(data: BulkData)
    | GoToDetail(kyozaiId: string, kyozaiSyCd: string)
    | CallLink
    | AlertNoMaterials
    | AlertFetchFailed
    | AlertCompleted(count: nat)
    | Restore

  predicate IsDownloadable(m: Material) { m.Download? || m.Reference? }

  function Downloadables(ms: seq<Material>): (r: seq<Material>)
    ensures forall m :: m in r <==> m in ms && IsDownloadable(m)
  {
    if ms == [] then []
    else (if IsDownloadable(ms[0]) then [ms[0]] else []) + Downloadables(ms[1..])
  }

  function Externals(ms: seq<Material>): (r: seq<Material>)
    ensures forall m :: m in r <==> m in ms && m.External?
  {
    if ms == [] then []
    else (if ms[0].External? then [ms[0]] else []) + Externals(ms[1..])
  }

  function Opens(ms: seq<Material>): (r: seq<UiEffect>)
    ensures |r| == |ms| && forall i :: 0 <= i < |ms| ==> r[i] == Open(ms[i])
  {
    if ms == [] then [] else [Open(ms[0])] + Opens(ms[1..])
  }

  /** The split into downloadables and externals loses and invents nothing. */
  lemma {:induction false} SplitIsPartition(ms: seq<Material>)
    ensures multiset(Downloadables(ms)) + multiset(Externals(ms)) == multiset(ms)
  {
    if ms != [] {
      SplitIsPartition(ms[1..]);
      assert ms == [ms[0]] + ms[1..];
    }
  }

  /** The selector the completion step uses to find the button again. */
  function ButtonSelector(kyozaiId: string, kyozaiSyCd: string): string {
    ".klpf-bulk-open-btn[data-kyozai-key=\"" + kyozaiId + "_" + kyozaiSyCd + "\"]"
  }

  /** `_handleNavigationRequired`: after confirmation, open the external links and store the downloadables for the detail page. */
  function NavigationRequired(ms: seq<Material>, confirmed: bool, kyozaiId: string, kyozaiSyCd: string,
                              returnUrl: string, originalText: string): seq<UiEffect>
  {
    if !confirmed then [Restore]
    else
      Opens(Externals(ms))
        + [StoreBulk(BulkData(Some(Downloadables(ms)), returnUrl, originalText, ButtonSelector(kyozaiId, kyozaiSyCd))),
           GoToDetail(kyozaiId, kyozaiSyCd)]
  }

  /** `_handleDirectOpening`: after confirmation, open the given materials and report their number. */
  function DirectOpening(ms: seq<Material>, confirmed: bool): seq<UiEffect> {
    if ms == [] then [AlertNoMaterials, Restore]
    else if !confirmed then [Restore]
    else Opens(ms) + [AlertCompleted(|ms|), Restore]
  }

  /**
   * `handleMainPageClick`: `fetched` is the fetched material list (`None` when the fetch
   * failed) and `confirmed` the answer to the confirmation dialog, when one is shown.
   */
  function MainPageClick(fetched: Option<seq<Material>>, confirmed: bool, kyozaiId: string, kyozaiSyCd: string,
                         returnUrl: string, originalText: string): seq<UiEffect>
  {
    if fetched.None? then [AlertFetchFailed, Restore]
    else if fetched.value == [] then [AlertNoMaterials, Restore]
    else if Downloadables(fetched.value) != [] then
      NavigationRequired(fetched.value, confirmed, kyozaiId, kyozaiSyCd, returnUrl, originalText)
    else DirectOpening(Externals(fetched.value), confirmed)
  }

  /**
   * With a download or reference among the materials, the external links open at once and
   * only the downloadables are stored for the detail page; otherwise every material is an
   * external link and all open directly.
   */
  lemma MainPageClickSplits(ms: seq<Material>, kyozaiId: string, kyozaiSyCd: string, returnUrl: string, originalText: string)
    requires ms != []
    ensures var e := MainPageClick(Some(ms), true, kyozaiId, kyozaiSyCd, returnUrl, originalText);
      && (Downloadables(ms) != [] ==>
            && e[..|Externals(ms)|] == Opens(Externals(ms))
            && e[|Externals(ms)|] == StoreBulk(BulkData(Some(Downloadables(ms)), returnUrl, originalText, ButtonSelector(kyozaiId, kyozaiSyCd)))
            && (forall m :: Open(m) in e ==> m.External?))
      && (Downloadables(ms) == [] ==>
            Externals(ms) == ms && e == Opens(ms) + [AlertCompleted(|ms|), Restore])
  {
    SplitIsPartition(ms);
    var d, x := Downloadables(ms), Externals(ms);
    if d == [] {
      assert multiset(x) == multiset(ms);
      ExternalsOfAllExternal(ms);
    } else {
      var e := MainPageClick(Some(ms), true, kyozaiId, kyozaiSyCd, returnUrl, originalText);
      var tail := [StoreBulk(BulkData(Some(d), returnUrl, originalText, ButtonSelector(kyozaiId, kyozaiSyCd))), GoToDetail(kyozaiId, kyozaiSyCd)];
      assert e == Opens(x) + tail;
      TakeAppend(Opens(x), tail);
      forall m | Open(m) in e ensures m.External? {
        assert Open(m) in Opens(x);
        OpensOnlyOf(x, m);
      }
    }
  }

  /** Only the listed materials are opened. */
  lemma OpensOnlyOf(ms: seq<Material>, m: Material)
    requires Open(m) in Opens(ms)
    ensures m in ms
  {
    var i :| 0 <= i < |ms| && Opens(ms)[i] == Open(m);
    assert ms[i] == m;
  }

  /** A list whose downloadables are gone is all external links. */
  lemma {:induction false} ExternalsOfAllExternal(ms: seq<Material>)
    requires Downloadables(ms) == []
    ensures Externals(ms) == ms
  {
    if ms != [] {
      assert !IsDownloadable(ms[0]);
      ExternalsOfAllExternal(ms[1..]);
      assert ms == [ms[0]] + ms[1..];
    }
  }

  /** `handleDetailPageClick`: the external links first, then the downloadables in sequence, then the status update. */
  function DetailPageClick(ms: seq<Material>, confirmed: bool, env: Env): seq<UiEffect> {
    if ms == [] then [AlertNoMaterials, Restore]
    else if !confirmed then [Restore]
    else
      Opens(Externals(ms)) + Opens(Downloadables(ms))
        + (if env.hasLink then [CallLink] else []) + [AlertCompleted(|ms|), Restore]
  }

  /** Every material of the detail page is opened exactly once, and the alert counts all of them. */
  lemma DetailPageOpensEach(ms: seq<Material>, env: Env)
    requires ms != []
    ensures var e := DetailPageClick(ms, true, env);
      var k := |Externals(ms)| + |Downloadables(ms)|;
      && k == |ms| && k <= |e|
      && multiset(OpenedMaterials(e[..k])) == multiset(ms)
      && AlertCompleted(|ms|) in e
  {
    SplitIsPartition(ms);
    var x, d := Externals(ms), Downloadables(ms);
    assert |multiset(ms)| == |ms| && |multiset(x)| == |x| && |multiset(d)| == |d|;
    var head := Opens(x) + Opens(d);
    var link := if env.hasLink then [CallLink] else [];
    var tail := link + [AlertCompleted(|ms|), Restore];
    AppendAssoc(head, link, [AlertCompleted(|ms|), Restore]);
    TakeAppend(head, tail);
    assert tail[|tail| - 2] == AlertCompleted(|ms|);
    assert DetailPageClick(ms, true, env) == head + tail;
    OpenedOfOpens(x);
    OpenedOfOpens(d);
    OpenedAppend(Opens(x), Opens(d));
    assert OpenedMaterials(head) == x + d;
    assert multiset(x + d) == multiset(ms);
  }

  /** The materials an effect list opens, in order. */
  function OpenedMaterials(e: seq<UiEffect>): seq<Material> {
    if e == [] then [] else (if e[0].Open? then [e[0].material] else []) + OpenedMaterials(e[1..])
  }

  lemma {:induction false} OpenedOfOpens(ms: seq<Material>)
    ensures OpenedMaterials(Opens(ms)) == ms
  {
    if ms != [] {
      OpenedOfOpens(ms[1..]);
      assert Opens(ms)[1..] == Opens(ms[1..]);
    }
  }

  lemma {:induction false} OpenedAppend(a: seq<UiEffect>, b: seq<UiEffect>)
    ensures OpenedMaterials(a + b) == OpenedMaterials(a) + OpenedMaterials(b)
  {
    if a != [] {
      OpenedAppend(a[1..], b);
      assert (a + b)[0] == a[0];
      assert (a + b)[1..] == a[1..] + b;
    } else {
      assert a + b == b;
    }
  }

  // ---------------------------------------------------------------------------------------
  // The detail page's automatic download, and the main page's completion check

  /** Where `executeAutoDownload` finally goes: the page's `bacKyozai`, or the stored return URL. */
  datatype GoBack = PageBack | Location(url: string)

  /** What `executeAutoDownload` did: the materials opened, whether the page's `link` was called, where it went back to, and the storage after it. */
  datatype AutoResult = AutoResult(outcomes: seq<Opened>, linkCalled: bool, goBack: Option<GoBack>, local: Local, session: Session)

  function OpenAll(ms: seq<Material>, env: Env): (r: seq<Opened>)
    ensures |r| == |ms| && forall i :: 0 <= i < |ms| ==> r[i] == ProcessMaterial(ms[i], env)
  {
    if ms == [] then [] else [ProcessMaterial(ms[0], env)] + OpenAll(ms[1..], env)
  }

  /** `executeAutoDownload` at time `now`. */
  function AutoDownload(l: Local, s: Session, now: int, env: Env): AutoResult {
    if !TriggeredAt(l, s, now) then
      var c := ClearBulk(l, s); AutoResult([], false, None, c.0, c.1)
    else
      var g := GetBulk(l, s);
      var b := g.0;
      if b.None? || b.value.materials.None? || b.value.materials.value == [] then
        var c := ClearBulk(g.1, g.2); AutoResult([], false, None, c.0, c.1)
      else
        var ms := b.value.materials.value;
        AutoResult(OpenAll(ms, env), env.hasLink,
          Some(if env.hasBacKyozai then PageBack else Location(b.value.returnUrl)),
          g.1, WriteCompletion(g.2, CompletionData(|ms|, b.value.buttonSelector, b.value.originalText)))
  }

  /**
   * The round trip between the two pages: a bulk operation stored on the main page at time `t`
   * is carried out on the detail page at `now` exactly when less than a minute has passed; it
   * then opens the stored materials in order, calls the page's `link` when it has one, leaves
   * completion data counting them and goes back; otherwise it does none of these.
   */
  lemma StoredOperationRunsOnce(l: Local, s: Session, d: BulkData, t: nat, now: int, env: Env)
    requires d.materials.Some? && d.materials.value != []
    ensures var w := SetBulk(l, s, d, t);
      var r := AutoDownload(w.0, w.1, now, env);
      && (now - t < SESSION_TIMEOUT ==>
            && r.outcomes == OpenAll(d.materials.value, env)
            && r.linkCalled == env.hasLink
            && r.goBack == Some(if env.hasBacKyozai then PageBack else Location(d.returnUrl))
            && ReadCompletion(r.session).0 == Some(CompletionData(|d.materials.value|, d.buttonSelector, d.originalText)))
      && (now - t >= SESSION_TIMEOUT ==>
            r.outcomes == [] && !r.linkCalled && r.goBack.None? && r.local.bulkOperation.None?)
  {
    TriggeredAfterSet(l, s, d, t, now);
  }

  /** Nothing opens unless the trigger holds; without it the bulk keys are cleared. */
  lemma AutoDownloadNeedsTrigger(l: Local, s: Session, now: int, env: Env)
    ensures var r := AutoDownload(l, s, now, env);
      && (r.outcomes != [] || r.linkCalled || r.goBack.Some? ==> TriggeredAt(l, s, now))
      && (!TriggeredAt(l, s, now) ==> (r.local, r.session) == ClearBulk(l, s))
  {
  }

  /** `executeAutoDownload` on the state manager. */
  method ExecuteAutoDownload(st: StateManager, now: int, env: Env) returns (outcomes: seq<Opened>, linkCalled: bool, goBack: Option<GoBack>)
    modifies st
    ensures AutoResult(outcomes, linkCalled, goBack, st.local, st.session) == AutoDownload(old(st.local), old(st.session), now, env)
    ensures st.processedIds == old(st.processedIds)
  {
    outcomes, linkCalled, goBack := [], false, None;
    var triggered := st.IsButtonTriggered(now);
    if !triggered {
      st.ClearBulkOperation();
      return;
    }
    var b := st.GetBulkOperation();
    if b.None? || b.value.materials.None? || b.value.materials.value == [] {
      st.ClearBulkOperation();
      return;
    }
    var ms := b.value.materials.value;
    outcomes := ProcessInSequence(ms, env);
    linkCalled := env.hasLink;
    st.SetCompletionData(CompletionData(|ms|, b.value.buttonSelector, b.value.originalText));
    goBack := Some(if env.hasBacKyozai then PageBack else Location(b.value.returnUrl));
  }

  /** The main page's `checkForCompletion`: read the completion data once; if there was any, clear the bulk operation. */
  function CheckCompletion(l: Local, s: Session): (Option<CompletionData>, Local, Session) {
    var r := ReadCompletion(s);
    if r.0.Some? then var c := ClearBulk(l, r.1); (r.0, c.0, c.1) else (None, l, r.1)
  }

  /** `checkForCompletion` on the state manager (the delayed alert and clear are taken as immediate). */
  method CheckForCompletionOnMain(st: StateManager) returns (r: Option<CompletionData>)
    modifies st
    ensures (r, st.local, st.session) == CheckCompletion(old(st.local), old(st.session))
    ensures st.processedIds == old(st.processedIds)
  {
    r := st.GetCompletionData();
    if r.Some? {
      st.ClearBulkOperation();
    }
  }

  /** After the completion check, a second check reports nothing. */
  lemma CompletionReportedOnce(l: Local, s: Session)
    ensures var c := CheckCompletion(l, s);
      CheckCompletion(c.1, c.2).0.None?
  {
  }

  // ---------------------------------------------------------------------------------------
  // The main-page buttons

  /** A `td.kyozaititleCell`: the `onclick` of its `kyozaiTitleLink` anchor (if any), and whether it has a material icon. */
  datatype MainCell = MainCell(linkOnclick: Option<string>, hasIcon: bool)

  /** The button key of a cell, `kyozaiId + '_' + kyozaiSyCd`, or nothing for a cell without a button. */
  function CellKey(c: MainCell): Option<string> {
    if c.linkOnclick.None? || !c.hasIcon || c.linkOnclick.value == "" then None
    else
      var m := Search(c.linkOnclick.value, TitleLinkAt);
      if m.None? then None else Some(m.value.0 + "_" + m.value.1)
  }

  /** The button keys of the cells, in document order. */
  function CellKeys(cells: seq<MainCell>): (r: seq<Option<string>>)
    ensures |r| == |cells|
  {
    if cells == [] then [] else CellKeys(cells[..|cells| - 1]) + [CellKey(cells[|cells| - 1])]
  }

  lemma {:induction false} CellKeysAt(cells: seq<MainCell>, i: nat)
    requires i < |cells|
    ensures CellKeys(cells)[i] == CellKey(cells[i])
  {
    if i < |cells| - 1 {
      CellKeysAt(cells[..|cells| - 1], i);
    }
  }

  /** The keys `addBulkOpenButtons` adds buttons for among the first `n` cell keys, given the already processed keys. */
  function NewButtons(processed: set<string>, keys: seq<Option<string>>, n: nat): seq<string>
    requires n <= |keys|
  {
    if n == 0 then []
    else
      var prev := NewButtons(processed, keys, n - 1);
      var k := keys[n - 1];
      if k.Some? && k.value !in processed && k.value !in prev then prev + [k.value] else prev
  }

  /** Every cell key ends up processed: it was processed already, or a button was added for it. */
  lemma {:induction false} NewButtonsCover(processed: set<string>, keys: seq<Option<string>>, n: nat, i: nat)
    requires i < n <= |keys| && keys[i].Some?
    ensures keys[i].value in processed || keys[i].value in NewButtons(processed, keys, n)
  {
    if i < n - 1 {
      NewButtonsCover(processed, keys, n - 1, i);
    }
  }

  /** The keys of `ks` as a set. */
  function SetOf(ks: seq<string>): (r: set<string>)
    ensures forall k :: k in r <==> k in ks
  {
    if ks == [] then {} else SetOf(ks[..|ks| - 1]) + {ks[|ks| - 1]}
  }

  /** No key occurs twice in `ks`. */
  predicate NoDuplicates(ks: seq<string>) {
    forall a, b :: 0 <= a < b < |ks| ==> ks[a] != ks[b]
  }

  /** Added keys are new and distinct. */
  lemma {:induction false} NewButtonsFresh(processed: set<string>, keys: seq<Option<string>>, n: nat)
    requires n <= |keys|
    ensures var r := NewButtons(processed, keys, n);
      (forall k :: k in r ==> k !in processed) && NoDuplicates(r)
  {
    if n > 0 {
      NewButtonsFresh(processed, keys, n - 1);
    }
  }

  /** Running the button pass again over the same cells adds nothing. */
  lemma {:induction false} NewButtonsIdempotent(keys: seq<Option<string>>, n: nat, done: set<string>)
    requires n <= |keys|
    requires forall i :: 0 <= i < n && keys[i].Some? ==> keys[i].value in done
    ensures NewButtons(done, keys, n) == []
  {
    if n > 0 {
      NewButtonsIdempotent(keys, n - 1, done);
    }
  }

  /** One more cell key: a button is added exactly when the key is present and not yet processed. */
  lemma NewButtonsStep(processed: set<string>, keys: seq<Option<string>>, i: nat, prev: seq<string>)
    requires i < |keys| && prev == NewButtons(processed, keys, i)
    ensures keys[i].Some? && keys[i].value !in processed + SetOf(prev) ==>
      NewButtons(processed, keys, i + 1) == prev + [keys[i].value]
      && SetOf(prev + [keys[i].value]) == SetOf(prev) + {keys[i].value}
    ensures !(keys[i].Some? && keys[i].value !in processed + SetOf(prev)) ==> NewButtons(processed, keys, i + 1) == prev
  {
    if keys[i].Some? {
      assert SetOf(prev + [keys[i].value]) == SetOf(prev) + {keys[i].value};
    }
  }

  /** `addBulkOpenButtons`: one button per new key; each key is marked processed once its button is added. */
  method AddBulkOpenButtons(st: StateManager, cells: seq<MainCell>) returns (added: seq<string>)
    modifies st
    ensures added == NewButtons(old(st.processedIds), CellKeys(cells), |cells|)
    ensures st.processedIds == old(st.processedIds) + SetOf(added)
    ensures st.local == old(st.local) && st.session == old(st.session)
  {
    added := [];
    ghost var p0 := st.processedIds;
    var keys := CellKeys(cells);
    var i := 0;
    while i < |keys|
      invariant i <= |keys|
      invariant added == NewButtons(p0, keys, i)
      invariant st.processedIds == p0 + SetOf(added)
      invariant st.local == old(st.local) && st.session == old(st.session)
    {
      var k := keys[i];
      NewButtonsStep(p0, keys, i, added);
      if k.Some? && !st.IsProcessed(k.value) {
        added := added + [k.value];
        st.MarkProcessed(k.value);
      }
      i := i + 1;
    }
  }

  /** The second pass adds no button. */
  lemma ButtonsAddedOnce(processed: set<string>, cells: seq<MainCell>)
    ensures var added := NewButtons(processed, CellKeys(cells), |cells|);
      NewButtons(processed + SetOf(added), CellKeys(cells), |cells|) == []
  {
    var keys := CellKeys(cells);
    var added := NewButtons(processed, keys, |cells|);
    var done := processed + SetOf(added);
    forall i | 0 <= i < |keys| && keys[i].Some? ensures keys[i].value in done {
      NewButtonsCover(processed, keys, |keys|, i);
    }
    NewButtonsIdempotent(keys, |keys|, done);
  }

  /** `addDetailPageButton`: a button is added only if none exists, there are materials and the header is there. */
  function AddsDetailButton(buttonExists: bool, materials: seq<Material>, hasHeader: bool): bool {
    !buttonExists && materials != [] && hasHeader
  }

  /** `initializeUI`: what each kind of page sets up. */
  datatype Setup = AddButtons | ObserveCells | CheckForCompletion | AddDetailButton | ScheduleAutoDownload

  function InitializeUI(kind: PageKind): (r: seq<Setup>)
    ensures ScheduleAutoDownload in r <==> kind == DetailPage
    ensures CheckForCompletion in r <==> kind == MainPage
    ensures kind == UnknownPage <==> r == []
  {
    match kind
    case MainPage => [AddButtons, ObserveCells, CheckForCompletion]
    case DetailPage => [AddDetailButton, ScheduleAutoDownload]
    case UnknownPage => []
  }
}
