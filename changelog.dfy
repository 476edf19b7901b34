/**
 * The release-notes formatter of the documentation site (docs/script.js): the body of a
 * GitHub release is escaped, split into lines, and each line either opens a list item,
 * continues the open item with an indented sub-item, or closes it and becomes a heading or
 * a paragraph. The pieces are kept as tagged values (`Part`) and `PartHtml` gives the markup
 * the page pushes for each. Also the deferred download counter of the same page.
 */
module Changelog {
  import opened Wrappers
  import opened Text
  import opened Scan

  /** Paragraph shown when a release has no body. */
  const NO_DESCRIPTION := "<p>このリリースには説明がありません。</p>"

  /** Replacement for a leading arrow in a sub-item. */
  const ARROW_SPAN := "<span class=\"changelog-arrow\">→</span> "

  const SUB_ITEM_OPEN := "<span class=\"changelog-sub-item\">"
  const SUB_ITEM_CLOSE := "</span>"

  // ---------------------------------------------------------------------------
  // Escaping
  // ---------------------------------------------------------------------------

  /** `s.replace(/c/g, rep)` for a one-character pattern. */
  function ReplaceChar(s: string, c: char, rep: string): string {
    if s == [] then [] else (if s[0] == c then rep else [s[0]]) + ReplaceChar(s[1..], c, rep)
  }

  /** What `ReplaceChar` can contain: the replacement's characters and the other characters of `s`. */
  lemma {:induction false} ReplaceCharMembers(s: string, c: char, rep: string, x: char)
    ensures x in ReplaceChar(s, c, rep) ==> x in rep || (x in s && x != c)
    ensures c !in s ==> ReplaceChar(s, c, rep) == s
  {
    if s != [] {
      ReplaceCharMembers(s[1..], c, rep, x);
      assert s == [s[0]] + s[1..];
    }
  }

  /** The body with `<` and `>` escaped, as the page does before looking at any line. */
  function Escape(body: string): string {
    ReplaceChar(ReplaceChar(body, '<', "&lt;"), '>', "&gt;")
  }

  predicate NoAngle(s: string) { '<' !in s && '>' !in s }

  /** No raw angle bracket survives escaping, and a body without them is left as it is. */
  lemma EscapeSpec(body: string)
    ensures NoAngle(Escape(body))
    ensures NoAngle(body) ==> Escape(body) == body
  {
    var once := ReplaceChar(body, '<', "&lt;");
    ReplaceCharMembers(body, '<', "&lt;", '<');
    ReplaceCharMembers(once, '>', "&gt;", '<');
    ReplaceCharMembers(once, '>', "&gt;", '>');
    ReplaceCharMembers(body, '<', "&lt;", '>');
  }

  // ---------------------------------------------------------------------------
  // Line classification
  // ---------------------------------------------------------------------------

  /** The character class `[\s*・-]` of the list-item pattern. */
  predicate IsMarker(c: char) {
    IsSpace(c) || c == '*' || c == '・' || c == '-'
  }

  /** End of the run of marker characters starting at `p`. */
  function MarkerEnd(s: string, p: nat): (r: nat)
    requires p <= |s|
    ensures p <= r <= |s|
    ensures forall j :: p <= j < r ==> IsMarker(s[j])
    ensures r == |s| || !IsMarker(s[r])
    decreases |s| - p
  {
    if p < |s| && IsMarker(s[p]) then MarkerEnd(s, p + 1) else p
  }

  // `trimmed` matches `/^[\s*・-]+\s*/` (at least one marker character in front).
  predicate IsListItem(trimmed: string) {
    trimmed != [] && IsMarker(trimmed[0])
  }

  // `trimmed.replace(/^[\s*・-]+\s*/, '')`: the whole leading run of markers goes (white space
  // is in the class, so the trailing `\s*` takes nothing more).
  function StripMarkers(trimmed: string): (r: string)
    ensures |r| <= |trimmed| && r == trimmed[|trimmed| - |r|..]
    ensures r == [] || !IsMarker(r[0])
  {
    trimmed[MarkerEnd(trimmed, 0)..]
  }

  // `/^\s{2,}|^\u3000/.test(line) && trimmed !== ''`
  predicate IsIndented(line: string) {
    && ((|line| >= 2 && IsSpace(line[0]) && IsSpace(line[1])) || (|line| >= 1 && line[0] == '　'))
    && Trim(line) != []
  }

  /** End of the run of `c` starting at `p`. */
  function RunEnd(s: string, p: nat, c: char): (r: nat)
    requires p <= |s|
    ensures p <= r <= |s|
    ensures forall j :: p <= j < r ==> s[j] == c
    ensures r == |s| || s[r] != c
    decreases |s| - p
  {
    if p < |s| && s[p] == c then RunEnd(s, p + 1, c) else p
  }

  // `trimmed.replace(/^#+\s*/, '')`: the leading hashes and the white space after them removed.
  function HeadingText(trimmed: string): (r: string)
    ensures |r| <= |trimmed| && r == trimmed[|trimmed| - |r|..]
  {
    var hashes := RunEnd(trimmed, 0, '#');
    if hashes == 0 then trimmed else trimmed[SpanEnd(trimmed, hashes, Space)..]
  }

  // `trimmed.replace(/^(→|-&gt;)\s*/, ARROW_SPAN)`
  function SubItemText(trimmed: string): string {
    if StartsWith(trimmed, "→") then ARROW_SPAN + trimmed[SpanEnd(trimmed, 1, Space)..]
    else if StartsWith(trimmed, "-&gt;") then ARROW_SPAN + trimmed[SpanEnd(trimmed, 5, Space)..]
    else trimmed
  }

  /** The sub-item appended to the open list item. */
  function SubItem(trimmed: string): string {
    SUB_ITEM_OPEN + SubItemText(trimmed) + SUB_ITEM_CLOSE
  }

  // ---------------------------------------------------------------------------
  // The line parser
  // ---------------------------------------------------------------------------

  /** One entry of `htmlParts`. */
  datatype Part = Li(content: string) | H4(text: string) | P(text: string)

  function PartHtml(p: Part): string {
    match p
    case Li(c) => "<li>" + c + "</li>"
    case H4(t) => "<h4>" + t + "</h4>"
    case P(t) => "<p>" + t + "</p>"
  }

  /** `htmlParts` and `currentLiContent` between two lines. */
  datatype ParseState = ParseState(parts: seq<Part>, current: string)

  const START := ParseState([], "")

  /** `finalizeLi()`: an open item is pushed and closed. */
  function Close(st: ParseState): (r: ParseState)
    ensures r.current == []
  {
    if st.current != [] then ParseState(st.parts + [Li(st.current)], []) else st
  }

  /**
   * What the parser sees in a line before it looks at the state: a list-item line with the
   * text after its markers; a heading or text line with whether it is indented, the sub-item
   * it appends to an open item when indented, and its heading or paragraph text; a blank line.
   */
  datatype LineKind =
    | ListLine(text: string)
    | HeadingLine(indented: bool, sub: string, text: string)
    | TextLine(indented: bool, sub: string, text: string)
    | BlankLine

  function Classify(line: string): LineKind {
    var trimmed := Trim(line);
    if IsListItem(trimmed) then ListLine(StripMarkers(trimmed))
    else if StartsWith(trimmed, "#") then HeadingLine(IsIndented(line), SubItem(trimmed), HeadingText(trimmed))
    else if trimmed != [] then TextLine(IsIndented(line), SubItem(trimmed), trimmed)
    else BlankLine
  }

  /** The open item is closed and `p` pushed. */
  function Push(st: ParseState, p: Part): ParseState {
    var closed := Close(st);
    closed.(parts := closed.parts + [p])
  }

  /** What a classified line does to the state. */
  function StepKind(st: ParseState, k: LineKind): ParseState {
    match k
    case ListLine(text) => ParseState(Close(st).parts, text)
    case HeadingLine(indented, sub, text) =>
      if indented && st.current != [] then st.(current := st.current + sub) else Push(st, H4(text))
    case TextLine(indented, sub, text) =>
      if indented && st.current != [] then st.(current := st.current + sub) else Push(st, P(text))
    case BlankLine => Close(st)
  }

  /** What one line does to the state. */
  function Step(st: ParseState, line: string): ParseState {
    StepKind(st, Classify(line))
  }

  /** The state after the first `n` classified lines. */
  function RunKinds(ks: seq<LineKind>, n: nat): ParseState
    requires n <= |ks|
  {
    if n == 0 then START else StepKind(RunKinds(ks, n - 1), ks[n - 1])
  }

  function Kinds(lines: seq<string>): (ks: seq<LineKind>)
    ensures |ks| == |lines|
    ensures forall i :: 0 <= i < |lines| ==> ks[i] == Classify(lines[i])
  {
    seq(|lines|, i requires 0 <= i < |lines| => Classify(lines[i]))
  }

  /** The state after the first `n` lines. */
  function Run(lines: seq<string>, n: nat): ParseState
    requires n <= |lines|
  {
    RunKinds(Kinds(lines), n)
  }

  /** Each line takes the state one step further. */
  lemma RunUnfold(lines: seq<string>, n: nat)
    requires 0 < n <= |lines|
    ensures Run(lines, n) == Step(Run(lines, n - 1), lines[n - 1])
  {
  }

  /** The parts of a whole body: every line processed, then the open item flushed. */
  function Parse(lines: seq<string>): seq<Part> {
    Close(Run(lines, |lines|)).parts
  }

  function BodyLines(body: string): seq<string> {
    Split(Escape(body), '\n')
  }

  /** The changelog of a card: the placeholder, or the parsed parts of a non-empty body. */
  datatype ChangelogHtml = Placeholder | Parts(parts: seq<Part>)

  function ChangelogOf(body: Option<string>): (r: ChangelogHtml)
    ensures r.Placeholder? <==> body.None? || body.value == []
  {
    if body.Some? && body.value != [] then Parts(Parse(BodyLines(body.value))) else Placeholder
  }

  /** The loop of `createReleaseCard` over the lines, with `finalizeLi` written out. */
  method ParseLines(lines: seq<string>) returns (parts: seq<Part>)
    ensures parts == Parse(lines)
  {
    parts := [];
    var current := "";
    for i := 0 to |lines|
      invariant ParseState(parts, current) == Run(lines, i)
    {
      parts, current := ParseLine(lines, i, parts, current);
    }
    if current != "" {
      parts := parts + [Li(current)];
    }
  }

  /** The body of that loop for line `i`: the state after it is the state after `i + 1` lines. */
  method ParseLine(lines: seq<string>, i: nat, parts: seq<Part>, current: string) returns (newParts: seq<Part>, newCurrent: string)
    requires i < |lines| && ParseState(parts, current) == Run(lines, i)
    ensures ParseState(newParts, newCurrent) == Run(lines, i + 1)
  {
    RunUnfold(lines, i + 1);
    var line := lines[i];
    newParts, newCurrent := parts, current;
    var trimmed := Trim(line);
    if IsListItem(trimmed) {
      if newCurrent != "" {
        newParts := newParts + [Li(newCurrent)];
        newCurrent := "";
      }
      newCurrent := StripMarkers(trimmed);
    } else if IsIndented(line) && newCurrent != "" {
      newCurrent := newCurrent + SubItem(trimmed);
    } else {
      if newCurrent != "" {
        newParts := newParts + [Li(newCurrent)];
        newCurrent := "";
      }
      if StartsWith(trimmed, "#") {
        newParts := newParts + [H4(HeadingText(trimmed))];
      } else if trimmed != "" {
        newParts := newParts + [P(trimmed)];
      }
    }
  }

  /** The changelog part of `createReleaseCard`. */
  method CreateChangelog(body: Option<string>) returns (html: ChangelogHtml)
    ensures html == ChangelogOf(body)
    ensures html.Parts? ==> html.parts == Parse(BodyLines(body.value))
  {
    html := Placeholder;
    if body.Some? && body.value != "" {
      var lines := Split(Escape(body.value), '\n');
      var parts := ParseLines(lines);
      html := Parts(parts);
    }
  }

  // ---------------------------------------------------------------------------
  // What a line does
  // ---------------------------------------------------------------------------

  /** A list-item line opens a new item whatever its indentation: the list test comes first. */
  lemma ListItemOpensItem(st: ParseState, line: string)
    requires IsListItem(Trim(line))
    ensures Step(st, line).parts == Close(st).parts
    ensures Step(st, line).current == StripMarkers(Trim(line))
    ensures Step(st, line).current == [] || !IsMarker(Step(st, line).current[0])
  {
  }

  /** An indented line that is not a list item extends the open item and emits nothing. */
  lemma IndentedLineContinuesItem(st: ParseState, line: string)
    requires !IsListItem(Trim(line)) && IsIndented(line) && st.current != []
    ensures Step(st, line).parts == st.parts
    ensures st.current < Step(st, line).current
  {
    var r := Step(st, line);
    assert r.current == st.current + SubItem(Trim(line));
    assert st.current <= r.current;
    assert |r.current| > |st.current|;
  }

  /** A line that is blank after trimming only closes the open item. */
  lemma BlankLineCloses(st: ParseState, line: string)
    requires Trim(line) == []
    ensures Step(st, line) == Close(st)
  {
    assert !IsIndented(line);
  }

  // ---------------------------------------------------------------------------
  // Shape of the output
  // ---------------------------------------------------------------------------

  /** The shape of each pushed part. */
  predicate PartOk(p: Part) {
    match p
    case Li(c) => c != [] && !IsMarker(c[0])
    case H4(t) => t == [] || !IsSpace(t[0])
    case P(t) => t != [] && t[0] != '#' && !IsMarker(t[0]) && !IsSpace(t[|t| - 1])
  }

  predicate StateOk(st: ParseState) {
    && (forall i :: 0 <= i < |st.parts| ==> PartOk(st.parts[i]))
    && (st.current == [] || !IsMarker(st.current[0]))
  }

  lemma CloseOk(st: ParseState)
    requires StateOk(st)
    ensures StateOk(Close(st))
  {
  }

  lemma HeadingTextOk(trimmed: string)
    requires StartsWith(trimmed, "#")
    ensures HeadingText(trimmed) == [] || !IsSpace(HeadingText(trimmed)[0])
  {
    var hashes := RunEnd(trimmed, 0, '#');
    assert trimmed[0] == '#';
    assert hashes > 0;
  }

  /** The text a classified line carries has the shape of the part it becomes. */
  predicate KindOk(k: LineKind) {
    match k
    case ListLine(t) => t == [] || !IsMarker(t[0])
    case HeadingLine(_, _, t) => PartOk(H4(t))
    case TextLine(_, _, t) => PartOk(P(t))
    case BlankLine => true
  }

  lemma ClassifyOk(line: string)
    ensures KindOk(Classify(line))
  {
    var trimmed := Trim(line);
    TrimSpec(line);
    if !IsListItem(trimmed) && StartsWith(trimmed, "#") {
      HeadingTextOk(trimmed);
    }
  }

  lemma StepKindOk(st: ParseState, k: LineKind)
    requires StateOk(st) && KindOk(k)
    ensures StateOk(StepKind(st, k))
  {
    CloseOk(st);
    if (k.HeadingLine? || k.TextLine?) && k.indented && st.current != [] {
      assert StepKind(st, k).current[0] == st.current[0];
    }
  }

  lemma StepOk(st: ParseState, line: string)
    requires StateOk(st)
    ensures StateOk(Step(st, line))
  {
    ClassifyOk(line);
    StepKindOk(st, Classify(line));
  }

  lemma {:induction false} RunKindsOk(ks: seq<LineKind>, n: nat)
    requires n <= |ks| && forall i :: 0 <= i < |ks| ==> KindOk(ks[i])
    ensures StateOk(RunKinds(ks, n))
  {
    if n > 0 {
      RunKindsOk(ks, n - 1);
      StepKindOk(RunKinds(ks, n - 1), ks[n - 1]);
    }
  }

  lemma RunOk(lines: seq<string>, n: nat)
    requires n <= |lines|
    ensures StateOk(Run(lines, n))
  {
    var ks := Kinds(lines);
    forall i | 0 <= i < |ks| ensures KindOk(ks[i]) {
      ClassifyOk(lines[i]);
    }
    RunKindsOk(ks, n);
  }

  /**
   * Every list item that reaches the page is non-empty and starts after its markers; every
   * paragraph is a trimmed line that is neither a heading nor a list item; every heading
   * starts after its hashes and the white space behind them.
   */
  lemma ParseShape(lines: seq<string>)
    ensures forall i :: 0 <= i < |Parse(lines)| ==> PartOk(Parse(lines)[i])
  {
    RunOk(lines, |lines|);
    CloseOk(Run(lines, |lines|));
  }

  // ---------------------------------------------------------------------------
  // Every opened item is pushed exactly once
  // ---------------------------------------------------------------------------

  /** Number of list items among `ps`. */
  function LiCount(ps: seq<Part>): nat {
    if ps == [] then 0 else (if ps[0].Li? then 1 else 0) + LiCount(ps[1..])
  }

  lemma {:induction false} LiCountPush(ps: seq<Part>, p: Part)
    ensures LiCount(ps + [p]) == LiCount(ps) + (if p.Li? then 1 else 0)
  {
    if ps != [] {
      assert (ps + [p])[1..] == ps[1..] + [p];
      LiCountPush(ps[1..], p);
    }
  }

  /** The line opens an item with some content. */
  predicate OpensItem(line: string) {
    IsListItem(Trim(line)) && StripMarkers(Trim(line)) != []
  }

  /** Number of lines among the first `n` that open an item with content. */
  function Opened(lines: seq<string>, n: nat): nat
    requires n <= |lines|
  {
    OpenedKinds(Kinds(lines), n)
  }

  function Pending(st: ParseState): nat { if st.current != [] then 1 else 0 }

  /** The list items of a state: those pushed and the one still open. */
  function Items(st: ParseState): nat { LiCount(st.parts) + Pending(st) }

  lemma CloseCount(st: ParseState)
    ensures LiCount(Close(st).parts) == LiCount(st.parts) + Pending(st)
  {
    if st.current != [] {
      LiCountPush(st.parts, Li(st.current));
    }
  }

  /** A classified line adds one item exactly when it is a list item with text. */
  function BumpKind(k: LineKind): nat { if k.ListLine? && k.text != [] then 1 else 0 }

  function OpenedKinds(ks: seq<LineKind>, n: nat): nat
    requires n <= |ks|
  {
    if n == 0 then 0 else OpenedKinds(ks, n - 1) + BumpKind(ks[n - 1])
  }

  lemma StepKindCount(st: ParseState, k: LineKind)
    ensures Items(StepKind(st, k)) == Items(st) + BumpKind(k)
  {
    CloseCount(st);
    if k.HeadingLine? && !(k.indented && st.current != []) {
      LiCountPush(Close(st).parts, H4(k.text));
    } else if k.TextLine? && !(k.indented && st.current != []) {
      LiCountPush(Close(st).parts, P(k.text));
    }
  }

  /** The classification keeps exactly the lines that open an item with content as list items with text. */
  lemma OpensItemKind(line: string)
    ensures BumpKind(Classify(line)) == if OpensItem(line) then 1 else 0
  {
  }

  /** A line adds one to the items (pushed or open) exactly when it opens an item with content. */
  lemma StepCount(st: ParseState, line: string)
    ensures Items(Step(st, line)) == Items(st) + if OpensItem(line) then 1 else 0
  {
    StepKindCount(st, Classify(line));
    OpensItemKind(line);
  }

  lemma {:induction false} RunKindsCount(ks: seq<LineKind>, n: nat)
    requires n <= |ks|
    ensures Items(RunKinds(ks, n)) == OpenedKinds(ks, n)
  {
    if n > 0 {
      RunKindsCount(ks, n - 1);
      StepKindCount(RunKinds(ks, n - 1), ks[n - 1]);
    }
  }

  /** One `<li>` per line that opens an item with content: none is lost, none is pushed twice. */
  lemma ParseCountsItems(lines: seq<string>)
    ensures LiCount(Parse(lines)) == Opened(lines, |lines|)
  {
    RunKindsCount(Kinds(lines), |lines|);
    CloseCount(Run(lines, |lines|));
  }

  // ---------------------------------------------------------------------------
  // Headings and paragraphs carry no raw markup from the body
  // ---------------------------------------------------------------------------

  predicate TextSafe(p: Part) {
    (p.H4? || p.P?) ==> NoAngle(p.text)
  }

  predicate StateSafe(st: ParseState) {
    forall i :: 0 <= i < |st.parts| ==> TextSafe(st.parts[i])
  }

  lemma {:induction false} SplitMembers(s: string, sep: char, k: nat, x: char)
    requires k < |Split(s, sep)| && x in Split(s, sep)[k]
    ensures x in s
    decreases |s|
  {
    if s != [] {
      var rest := Split(s[1..], sep);
      if s[0] == sep {
        SplitMembers(s[1..], sep, k - 1, x);
      } else if k == 0 {
        if x != s[0] {
          assert x in rest[0];
          SplitMembers(s[1..], sep, 0, x);
        }
      } else {
        SplitMembers(s[1..], sep, k, x);
      }
    }
  }

  /** The heading or paragraph text a classified line carries has no angle bracket. */
  predicate KindSafe(k: LineKind) {
    (k.HeadingLine? || k.TextLine?) ==> NoAngle(k.text)
  }

  lemma ClassifySafe(line: string)
    requires NoAngle(line)
    ensures KindSafe(Classify(line))
  {
    var trimmed := Trim(line);
    if '<' in trimmed { TrimMembers(line, '<'); }
    if '>' in trimmed { TrimMembers(line, '>'); }
    assert NoAngle(trimmed);
    if StartsWith(trimmed, "#") {
      var h := HeadingText(trimmed);
      assert h == trimmed[|trimmed| - |h|..];
      assert NoAngle(h);
    }
  }

  lemma StepKindSafe(st: ParseState, k: LineKind)
    requires StateSafe(st) && KindSafe(k)
    ensures StateSafe(StepKind(st, k))
  {
  }

  lemma StepSafe(st: ParseState, line: string)
    requires StateSafe(st) && NoAngle(line)
    ensures StateSafe(Step(st, line))
  {
    ClassifySafe(line);
    StepKindSafe(st, Classify(line));
  }

  lemma {:induction false} RunKindsSafe(ks: seq<LineKind>, n: nat)
    requires n <= |ks| && forall i :: 0 <= i < |ks| ==> KindSafe(ks[i])
    ensures StateSafe(RunKinds(ks, n))
  {
    if n > 0 {
      RunKindsSafe(ks, n - 1);
      StepKindSafe(RunKinds(ks, n - 1), ks[n - 1]);
    }
  }

  lemma RunSafe(lines: seq<string>, n: nat)
    requires n <= |lines|
    requires forall k :: 0 <= k < |lines| ==> NoAngle(lines[k])
    ensures StateSafe(Run(lines, n))
  {
    var ks := Kinds(lines);
    forall i | 0 <= i < |ks| ensures KindSafe(ks[i]) {
      ClassifySafe(lines[i]);
    }
    RunKindsSafe(ks, n);
  }

  /** Headings and paragraphs of a parsed body never contain a raw `<` or `>` of the body. */
  lemma BodyTextEscaped(body: string)
    ensures forall i :: 0 <= i < |Parse(BodyLines(body))| ==> TextSafe(Parse(BodyLines(body))[i])
  {
    var escaped := Escape(body);
    var lines := BodyLines(body);
    EscapeSpec(body);
    forall k | 0 <= k < |lines| ensures NoAngle(lines[k]) {
      if '<' in lines[k] { SplitMembers(escaped, '\n', k, '<'); }
      if '>' in lines[k] { SplitMembers(escaped, '\n', k, '>'); }
    }
    RunSafe(lines, |lines|);
    CloseSafe(Run(lines, |lines|));
  }

  /** Closing the open item adds a list item, which carries no heading or paragraph text. */
  lemma CloseSafe(st: ParseState)
    requires StateSafe(st)
    ensures StateSafe(Close(st))
  {
  }

  // ---------------------------------------------------------------------------
  // A body of white space only
  // ---------------------------------------------------------------------------

  predicate AllSpace(s: string) { forall i :: 0 <= i < |s| ==> IsSpace(s[i]) }

  lemma {:induction false} RunOfBlank(lines: seq<string>, n: nat)
    requires n <= |lines|
    requires forall k :: 0 <= k < |lines| ==> Trim(lines[k]) == []
    ensures Run(lines, n) == START
  {
    if n > 0 {
      RunOfBlank(lines, n - 1);
      RunUnfold(lines, n);
      BlankLineCloses(START, lines[n - 1]);
    }
  }

  lemma SpacesHaveNoAngle(s: string)
    requires AllSpace(s)
    ensures NoAngle(s)
  {
    NotSpace('<');
    NotSpace('>');
  }

  lemma SpacesTrimToEmpty(s: string)
    requires AllSpace(s)
    ensures Trim(s) == []
  {
    TrimStartSpec(s);
  }

  /**
   * A non-empty body of white space only is not replaced by the placeholder: it yields an
   * empty changelog (the test is on the raw body, not on its trimmed text).
   */
  lemma BlankBodyIsEmpty(body: string)
    requires body != [] && AllSpace(body)
    ensures ChangelogOf(Some(body)) == Parts([])
  {
    var lines := BodyLines(body);
    SpacesHaveNoAngle(body);
    EscapeSpec(body);
    forall k | 0 <= k < |lines| ensures Trim(lines[k]) == [] {
      forall j | 0 <= j < |lines[k]| ensures IsSpace(lines[k][j]) {
        SplitMembers(body, '\n', k, lines[k][j]);
      }
      SpacesTrimToEmpty(lines[k]);
    }
    RunOfBlank(lines, |lines|);
  }

  // ---------------------------------------------------------------------------
  // The `-&gt;` arrow of a sub-item
  // ---------------------------------------------------------------------------

  /**
   * As written: a line whose trimmed text starts with the escaped arrow `-&gt;` passes the
   * list-item test first (it starts with `-`), so it always opens a new item whose text starts
   * with `&gt;`; the `-&gt;` alternative of the sub-item pattern is never reached.
   */
  lemma EscapedArrowOpensItem(st: ParseState, line: string)
    requires StartsWith(Trim(line), "-&gt;")
    ensures Step(st, line) == ParseState(Close(st).parts, Trim(line)[1..])
    ensures StartsWith(Step(st, line).current, "&gt;")
  {
    var t := Trim(line);
    assert t[0] == '-' && t[1] == '&';
    NotSpace('&');
    assert MarkerEnd(t, 1) == 1;
  }

  /** The intended handling: an indented `-&gt;` line while an item is open is an arrow sub-item. */
  function StepIntended(st: ParseState, line: string): ParseState {
    if IsIndented(line) && st.current != [] && StartsWith(Trim(line), "-&gt;") then
      st.(current := st.current + SubItem(Trim(line)))
    else
      Step(st, line)
  }

  /**
   * With the intended step an indented escaped arrow keeps the item open, emits nothing, and
   * appends a sub-item that starts with the arrow span; every other line is handled as before.
   */
  lemma IntendedArrowContinuesItem(st: ParseState, line: string)
    ensures !(IsIndented(line) && st.current != [] && StartsWith(Trim(line), "-&gt;")) ==>
      StepIntended(st, line) == Step(st, line)
    ensures IsIndented(line) && st.current != [] && StartsWith(Trim(line), "-&gt;") ==>
      && StepIntended(st, line).parts == st.parts
      && StepIntended(st, line).current == st.current + SUB_ITEM_OPEN + SubItemText(Trim(line)) + SUB_ITEM_CLOSE
      && StartsWith(SubItemText(Trim(line)), ARROW_SPAN)
  {
    var t := Trim(line);
    if IsIndented(line) && st.current != [] && StartsWith(t, "-&gt;") {
      assert t[0] == '-';
      assert !StartsWith(t, "→");
      assert SubItemText(t) == ARROW_SPAN + t[SpanEnd(t, 5, Space)..];
    }
  }

  // ---------------------------------------------------------------------------
  // Download link and the deferred counter
  // ---------------------------------------------------------------------------

  datatype Asset = Asset(browserDownloadUrl: string, size: nat)

  /** The link of a card: the first asset's download URL, else the release page. */
  function DownloadUrl(assets: seq<Asset>, htmlUrl: string): (r: string)
    ensures |assets| > 0 ==> r == assets[0].browserDownloadUrl
    ensures |assets| == 0 ==> r == htmlUrl
  {
    if |assets| > 0 then assets[0].browserDownloadUrl else htmlUrl
  }

  predicate Distinct<T(==)>(s: seq<T>) {
    forall i, j :: 0 <= i < j < |s| ==> s[i] != s[j]
  }

  /** The queue after `el` is offered to it: appended only when absent. */
  function Enqueue<T(==)>(queue: seq<T>, el: T): seq<T> {
    if el in queue then queue else queue + [el]
  }

  /** A counter is queued at most once: the queue stays duplicate-free and offering twice is offering once. */
  lemma EnqueueSpec<T>(queue: seq<T>, el: T)
    ensures el in Enqueue(queue, el)
    ensures forall x :: x in Enqueue(queue, el) <==> x in queue || x == el
    ensures Distinct(queue) ==> Distinct(Enqueue(queue, el))
    ensures Enqueue(Enqueue(queue, el), el) == Enqueue(queue, el)
    ensures queue <= Enqueue(queue, el)
  {
  }

  /** The element the download total is shown in. */
  const TOTAL_DOWNLOAD := "totaldownload"

  /** The counter state of the documentation page. */
  class DocsPage {
    var revealDone: bool
    var deferredCounters: seq<string>
    /** `dataset.count` of the elements that have one. */
    var counts: map<string, int>
    /** Every `animateCounter` call, in order. */
    var animated: seq<string>

    /** Counters wait until the page is revealed; after that nothing waits. */
    predicate Valid()
      reads this
    {
      Distinct(deferredCounters) && (revealDone ==> deferredCounters == [])
    }

    /** `setupLoader` */
    constructor()
      ensures Valid()
      ensures !revealDone && deferredCounters == [] && counts == map[] && animated == []
    {
      revealDone := false;
      deferredCounters := [];
      counts := map[];
      animated := [];
    }

    /**
     * `updateStats(downloads)`: the total is stored on the element (`downloads || 0`); it is
     * animated now if the page is revealed, otherwise queued once.
     */
    method UpdateStats(statsPresent: bool, downloads: Option<int>)
      requires Valid()
      modifies this
      ensures Valid()
      ensures revealDone == old(revealDone)
      ensures counts == if statsPresent then old(counts)[TOTAL_DOWNLOAD := downloads.GetOr(0)] else old(counts)
      ensures animated == if statsPresent && revealDone then old(animated) + [TOTAL_DOWNLOAD] else old(animated)
      ensures deferredCounters ==
        if statsPresent && !revealDone then Enqueue(old(deferredCounters), TOTAL_DOWNLOAD) else old(deferredCounters)
    {
      if statsPresent {
        counts := counts[TOTAL_DOWNLOAD := downloads.GetOr(0)];
        if revealDone {
          animated := animated + [TOTAL_DOWNLOAD];
        } else {
          EnqueueSpec(deferredCounters, TOTAL_DOWNLOAD);
          if TOTAL_DOWNLOAD !in deferredCounters {
            deferredCounters := deferredCounters + [TOTAL_DOWNLOAD];
          }
        }
      }
    }

    /** The counter part of `revealVisibleElements`: every queued counter is animated once, then the queue empties. */
    method RevealCounters()
      requires Valid()
      modifies this
      ensures Valid()
      ensures revealDone && deferredCounters == []
      ensures animated == old(animated) + old(deferredCounters)
      ensures counts == old(counts)
    {
      revealDone := true;
      var queue := deferredCounters;
      for i := 0 to |queue|
        invariant animated == old(animated) + queue[..i]
        invariant revealDone && deferredCounters == queue && counts == old(counts)
      {
        animated := animated + [queue[i]];
        assert queue[..i + 1] == queue[..i] + [queue[i]];
      }
      assert queue[..|queue|] == queue;
      deferredCounters := [];
    }
  }
}
