/**
 * The material classifier of the bulk material opener (features/kyozaiopen.js, `MaterialParser`):
 * an `onclick` attribute and a link text become a download, reference or external material,
 * and a list of candidates is cut down to the first material per unique key, in document order.
 */
module KyozaiParse {
  import opened Wrappers
  import opened Text
  import opened Scan

  /** A material; `type` in the source is the constructor. */
  datatype Material =
    | Download(name: string, fileId: string, syosaiId: string)
    | Reference(name: string, fileId: string, officeFlg: bool)
    | External(name: string, trackingUrl: string)

  /** The identifier a key is built from: the file ID, or the URL of an external link. */
  function Ident(m: Material): string {
    match m
    case Download(_, fileId, _) => fileId
    case Reference(_, fileId, _) => fileId
    case External(_, url) => url
  }

  /** The key under which a material is deduplicated. */
  function UniqueKey(m: Material): (r: string)
    ensures m.Download? ==> r == "download_" + m.fileId
    ensures m.Reference? ==> r == "reference_" + m.fileId
    ensures m.External? ==> r == "external_" + m.trackingUrl
  {
    match m
    case Download(_, fileId, _) => "download_" + fileId
    case Reference(_, fileId, _) => "reference_" + fileId
    case External(_, url) => "external_" + url
  }

  /** The prefix of the unique key, one per kind of material. */
  function KeyPrefix(m: Material): string {
    match m
    case Download(_, _, _) => "download_"
    case Reference(_, _, _) => "reference_"
    case External(_, _) => "external_"
  }

  /** Two materials share a key exactly when they are of the same kind and have the same identifier. */
  lemma UniqueKeyInjective(a: Material, b: Material)
    ensures UniqueKey(a) == UniqueKey(b) <==> KeyPrefix(a) == KeyPrefix(b) && Ident(a) == Ident(b)
  {
    var ka, kb := UniqueKey(a), UniqueKey(b);
    var pa, pb := KeyPrefix(a), KeyPrefix(b);
    assert ka == pa + Ident(a) && kb == pb + Ident(b);
    if ka == kb {
      assert pa[0] == ka[0] == kb[0] == pb[0];
      assert pa == pb;
      assert Ident(a) == ka[|pa|..] == kb[|pb|..] == Ident(b);
    }
  }

  // ---------------------------------------------------------------------------------------
  // The three `onclick` patterns

  /** /downloadFile\('([^']+)',\s*'([^']+)'\)/ at position `i`: the file and detail IDs. */
  function DownloadAt(s: string, i: nat): Option<(string, string)> {
    if !LitAt(s, i, "downloadFile('") then None
    else
      var p := i + 14;
      var e1 := SpanEnd(s, p, NotQuote);
      if e1 == p || !LitAt(s, e1, "',") then None
      else
        var q := SpanEnd(s, e1 + 2, Space);
        if !LitAt(s, q, "'") then None
        else
          var e2 := SpanEnd(s, q + 1, NotQuote);
          if e2 == q + 1 || !LitAt(s, e2, "')") then None
          else Some((s[p..e1], s[q + 1..e2]))
  }

  /**
   * /openReference\('([^']+)'(?:,\s*(true|false))?\)/ at position `i`: the file ID and
   * `officeFlg`, which is true only when the optional second argument is the literal `true`.
   */
  function ReferenceAt(s: string, i: nat): (r: Option<(string, bool)>)
    ensures r.Some? ==> ReferenceTail(s, i + 15 + |r.value.0| + 1) == Some(r.value.1)
    ensures r.Some? ==> (r.value.1 <==> LitAt(s, i + 15 + |r.value.0| + 1, ",") && SpacesThen(s, i + 15 + |r.value.0| + 2, "true)"))
  {
    if !LitAt(s, i, "openReference('") then None
    else
      var p := i + 15;
      var e1 := SpanEnd(s, p, NotQuote);
      if e1 == p || !LitAt(s, e1, "'") then None
      else
        var id := s[p..e1];
        var flag := ReferenceTail(s, p + |id| + 1);
        if flag.None? then None else TailFlag(s, p + |id| + 1); Some((id, flag.value))
  }

  /** What may follow the file ID's closing quote at `j`: `)`, or a comma, white space and `true)` or `false)`. */
  function ReferenceTail(s: string, j: nat): Option<bool> {
    if LitAt(s, j, ")") then Some(false)
    else if !LitAt(s, j, ",") then None
    else
      var q := SpanEnd(s, j + 1, Space);
      if LitAt(s, q, "true)") then Some(true)
      else if LitAt(s, q, "false)") then Some(false)
      else None
  }

  /** /openWindow\('([^']+)'/ at position `i`: the URL. */
  function WindowAt(s: string, i: nat): Option<string> {
    if !LitAt(s, i, "openWindow('") then None
    else
      var p := i + 12;
      var e1 := SpanEnd(s, p, NotQuote);
      if e1 == p || !LitAt(s, e1, "'") then None
      else Some(s[p..e1])
  }

  // ---------------------------------------------------------------------------------------
  // External URLs

  /** `s.replace(/&amp;/g, '&')`: every `&amp;`, scanning left to right without overlap, becomes `&`. */
  function ReplaceAmp(s: string): (r: string)
    ensures |r| <= |s|
    decreases |s|
  {
    if s == [] then []
    else if LitAt(s, 0, "&amp;") then "&" + ReplaceAmp(s[5..])
    else [s[0]] + ReplaceAmp(s[1..])
  }

  /** HTML attribute escaping of `&`, the encoding `ReplaceAmp` undoes. */
  function EscapeAmp(t: string): (r: string)
    ensures |r| >= |t|
  {
    if t == [] then [] else (if t[0] == '&' then "&amp;" else [t[0]]) + EscapeAmp(t[1..])
  }

  /** Replacing `&amp;` undoes escaping every `&`. */
  lemma {:induction false} ReplaceAmpUndoesEscape(t: string)
    ensures ReplaceAmp(EscapeAmp(t)) == t
    decreases |t|
  {
    if t != [] {
      var e := EscapeAmp(t);
      ReplaceAmpUndoesEscape(t[1..]);
      if t[0] == '&' {
        assert e == "&amp;" + EscapeAmp(t[1..]);
        assert LitAt(e, 0, "&amp;");
        assert e[5..] == EscapeAmp(t[1..]);
      } else {
        assert e == [t[0]] + EscapeAmp(t[1..]);
        assert e[0] != '&';
        assert e[1..] == EscapeAmp(t[1..]);
      }
    }
  }

  /** A URL without `&` is left as it is. */
  lemma {:induction false} ReplaceAmpWithoutAmp(s: string)
    requires forall i :: 0 <= i < |s| ==> s[i] != '&'
    ensures ReplaceAmp(s) == s
    decreases |s|
  {
    if s != [] {
      assert !LitAt(s, 0, "&amp;") by { assert s[0] != '&'; }
      ReplaceAmpWithoutAmp(s[1..]);
    }
  }

  /** `u.endsWith("/") ? u.slice(0, -1) : u`: at most one trailing slash is removed. */
  function StripTrailingSlash(u: string): (r: string)
    ensures u == r || u == r + "/"
    ensures u == r + "/" <==> EndsWith(u, "/")
  {
    if EndsWith(u, "/") then u[..|u| - 1] else u
  }

  lemma DoubleSlashKeepsOne()
    ensures StripTrailingSlash("a//") == "a/"
  {
    assert EndsWith("a//", "/");
  }

  // ---------------------------------------------------------------------------------------
  // Classification

  /**
   * `_extractMaterialFromLink`: `onclick` is the attribute (`''` when absent), `text` the link
   * text, and `resolve` the URL post-processing of lines 343-346 (the `URL` object, the
   * `fileurl` parameter of a download redirect and its percent-decoding), taken as given.
   */
  function ExtractMaterial(onclick: string, text: string, resolve: string -> string): (r: Option<Material>)
    ensures r.Some? ==> r.value.name == Trim(text) != ""
  {
    var name := Trim(text);
    if name == "" then None
    else
      var d := Search(onclick, DownloadAt);
      if d.Some? then Some(Download(name, d.value.0, d.value.1))
      else
        var ref := Search(onclick, ReferenceAt);
        if ref.Some? then Some(Reference(name, ref.value.0, ref.value.1))
        else
          var w := Search(onclick, WindowAt);
          if w.Some? then Some(External(name, StripTrailingSlash(resolve(ReplaceAmp(w.value)))))
          else None
  }

  predicate HasDownload(s: string) { exists j :: 0 <= j <= |s| && DownloadAt(s, j).Some? }
  predicate HasReference(s: string) { exists j :: 0 <= j <= |s| && ReferenceAt(s, j).Some? }
  predicate HasWindow(s: string) { exists j :: 0 <= j <= |s| && WindowAt(s, j).Some? }

  /** Classification priority: `downloadFile`, then `openReference`, then `openWindow`, else nothing; an empty name gives nothing. */
  lemma ExtractPriority(onclick: string, text: string, resolve: string -> string)
    ensures var r := ExtractMaterial(onclick, text, resolve);
      && (r.None? <==> Trim(text) == "" || (!HasDownload(onclick) && !HasReference(onclick) && !HasWindow(onclick)))
      && (r.Some? && r.value.Download? <==> Trim(text) != "" && HasDownload(onclick))
      && (r.Some? && r.value.Reference? <==> Trim(text) != "" && !HasDownload(onclick) && HasReference(onclick))
      && (r.Some? && r.value.External? <==> Trim(text) != "" && !HasDownload(onclick) && !HasReference(onclick) && HasWindow(onclick))
  {
  }

  /** An external material's URL is the first `openWindow` argument, its `&amp;`s replaced, resolved, with at most one trailing slash removed. */
  lemma ExternalUrl(onclick: string, text: string, resolve: string -> string)
    requires ExtractMaterial(onclick, text, resolve).Some? && ExtractMaterial(onclick, text, resolve).value.External?
    ensures var t := ExtractMaterial(onclick, text, resolve).value.trackingUrl;
      exists j :: 0 <= j <= |onclick| && WindowAt(onclick, j).Some?
        && (forall i :: 0 <= i < j ==> WindowAt(onclick, i).None?)
        && (resolve(ReplaceAmp(WindowAt(onclick, j).value)) == t || resolve(ReplaceAmp(WindowAt(onclick, j).value)) == t + "/")
  {
    ExternalOfWindow(onclick, text, resolve);
    var w := Search(onclick, WindowAt).value;
    var t := ExtractMaterial(onclick, text, resolve).value.trackingUrl;
    var j := FirstAt(onclick, 0, WindowAt).value;
    assert WindowAt(onclick, j).value == w;
    assert resolve(ReplaceAmp(w)) == t || resolve(ReplaceAmp(w)) == t + "/";
    assert forall i :: 0 <= i < j ==> WindowAt(onclick, i).None?;
  }

  /** An external material comes from the leftmost `openWindow` match, its URL stripped of one trailing slash. */
  lemma ExternalOfWindow(onclick: string, text: string, resolve: string -> string)
    requires ExtractMaterial(onclick, text, resolve).Some? && ExtractMaterial(onclick, text, resolve).value.External?
    ensures Search(onclick, WindowAt).Some?
    ensures ExtractMaterial(onclick, text, resolve).value.trackingUrl
      == StripTrailingSlash(resolve(ReplaceAmp(Search(onclick, WindowAt).value)))
  {
    assert Search(onclick, DownloadAt).None? && Search(onclick, ReferenceAt).None?;
  }

  /** The file ID of a `downloadFile` match: non-empty and quote-free, written at `i` as `downloadFile('<file>',`. */
  lemma DownloadFileId(s: string, i: nat)
    requires DownloadAt(s, i).Some?
    ensures var f := DownloadAt(s, i).value.0;
      && f != [] && (forall k :: 0 <= k < |f| ==> f[k] != '\'')
      && LitAt(s, i, "downloadFile('") && LitAt(s, i + 14 + |f|, "',") && s[i + 14..i + 14 + |f|] == f
  {
    var e1 := SpanEnd(s, i + 14, NotQuote);
    assert DownloadAt(s, i).value.0 == s[i + 14..e1];
  }

  /** The file ID of an `openReference` match: non-empty and quote-free, written at `i` as `openReference('<file>'`. */
  lemma ReferenceFileId(s: string, i: nat)
    requires ReferenceAt(s, i).Some?
    ensures var f := ReferenceAt(s, i).value.0;
      && f != [] && (forall k :: 0 <= k < |f| ==> f[k] != '\'')
      && LitAt(s, i, "openReference('") && LitAt(s, i + 15 + |f|, "'") && s[i + 15..i + 15 + |f|] == f
  {
    var e1 := SpanEnd(s, i + 15, NotQuote);
    assert ReferenceAt(s, i).value.0 == s[i + 15..e1];
    QuoteFreeRun(s, i + 15);
  }

  /** The flag of a well-formed tail is true exactly for a comma, white space and `true)`. */
  lemma TailFlag(s: string, j: nat)
    requires ReferenceTail(s, j).Some?
    ensures ReferenceTail(s, j).value <==>
      LitAt(s, j, ",") && SpacesThen(s, j + 1, "true)")
  {
    if LitAt(s, j, ")") {
      assert s[j] == ')';
    } else {
      SpacesThenLiteral(s, j + 1, "true)");
    }
  }

  /** `\s*` then `lit`, matched at `p`: some run of white space from `p` is followed by `lit`. */
  predicate SpacesThen(s: string, p: nat, lit: string) {
    exists q :: p <= q <= |s| && (forall k :: p <= k < q ==> IsSpace(s[k])) && LitAt(s, q, lit)
  }

  /** The first non-space position after `p` holds `lit`, which starts with a non-space, exactly when `\s*` then `lit` matches at `p`. */
  lemma SpacesThenLiteral(s: string, p: nat, lit: string)
    requires p <= |s| && lit != [] && !IsSpace(lit[0])
    ensures LitAt(s, SpanEnd(s, p, Space), lit) <==> SpacesThen(s, p, lit)
  {
    var q0 := SpanEnd(s, p, Space);
    assert forall k :: p <= k < q0 ==> IsSpace(s[k]) by {
      forall k | p <= k < q0 ensures IsSpace(s[k]) {
        assert In(s[k], Space);
      }
    }
    forall q | p <= q <= |s| && (forall k :: p <= k < q ==> IsSpace(s[k])) && LitAt(s, q, lit)
      ensures q == q0
    {
      assert s[q] == lit[0];
      SpanEndAt(s, p, q, Space);
    }
  }

  /**
   * The captures of a classified link: a download carries the two IDs of the leftmost
   * `downloadFile` match, and a reference the file ID and flag of the leftmost `openReference`
   * match.
   */
  lemma ExtractCaptures(onclick: string, text: string, resolve: string -> string)
    requires ExtractMaterial(onclick, text, resolve).Some?
    ensures var m := ExtractMaterial(onclick, text, resolve).value;
      && (m.Download? ==>
            exists j :: 0 <= j <= |onclick| && (forall i :: 0 <= i < j ==> DownloadAt(onclick, i).None?)
              && DownloadAt(onclick, j) == Some((m.fileId, m.syosaiId)))
      && (m.Reference? ==>
            exists j :: 0 <= j <= |onclick| && (forall i :: 0 <= i < j ==> ReferenceAt(onclick, i).None?)
              && ReferenceAt(onclick, j) == Some((m.fileId, m.officeFlg)))
  {
    var m := ExtractMaterial(onclick, text, resolve).value;
    if m.Download? {
      var j := FirstAt(onclick, 0, DownloadAt).value;
      assert DownloadAt(onclick, j) == Some((m.fileId, m.syosaiId));
    } else if m.Reference? {
      assert Search(onclick, DownloadAt).None?;
      var j := FirstAt(onclick, 0, ReferenceAt).value;
      assert ReferenceAt(onclick, j) == Some((m.fileId, m.officeFlg));
    }
  }

  // ---------------------------------------------------------------------------------------
  // Links and detail-table rows

  /** An `a[onclick]`: its `onclick` attribute and its text. */
  datatype Link = Link(onclick: string, text: string)

  /** The `資料名` cell of a detail-table row: whether it has a material icon, and its `a[onclick]`. */
  datatype MaterialCell = MaterialCell(hasIcon: bool, link: Option<Link>)

  /** A detail-table row: its `資料名` cell, if any. */
  datatype Row = Row(cell: Option<MaterialCell>)

  function FromLink(l: Link, resolve: string -> string): Option<Material> {
    ExtractMaterial(l.onclick, l.text, resolve)
  }

  /** `_extractMaterialFromTableRow`: no material without the cell, the icon or the link. */
  function FromRow(row: Row, resolve: string -> string): (r: Option<Material>)
    ensures r.Some? ==> row.cell.Some? && row.cell.value.hasIcon && row.cell.value.link.Some?
  {
    if row.cell.None? || !row.cell.value.hasIcon || row.cell.value.link.None? then None
    else FromLink(row.cell.value.link.value, resolve)
  }

  // ---------------------------------------------------------------------------------------
  // First material per key

  function KeysOf<T>(ms: seq<T>, key: T -> string): (r: seq<string>)
    ensures |r| == |ms| && forall i :: 0 <= i < |ms| ==> r[i] == key(ms[i])
  {
    if ms == [] then [] else KeysOf(ms[..|ms| - 1], key) + [key(ms[|ms| - 1])]
  }

  /** What the `Map` holds, in insertion order, after the first `n` candidates: a material is added unless its key is already there. */
  function FirstPerKey<T>(c: seq<Option<T>>, n: nat, key: T -> string): seq<T>
    requires n <= |c|
  {
    if n == 0 then []
    else
      var prev := FirstPerKey(c, n - 1, key);
      if c[n - 1].Some? && key(c[n - 1].value) !in KeysOf(prev, key) then prev + [c[n - 1].value] else prev
  }

  /** Candidate `i` is the first one with its key. */
  predicate FirstOfKey<T>(c: seq<Option<T>>, i: nat, key: T -> string)
    requires i < |c|
  {
    c[i].Some? && forall j :: 0 <= j < i ==> c[j].None? || key(c[j].value) != key(c[i].value)
  }

  /** The reference definition: the candidates that are the first of their key, in document order. */
  function FirstsOnly<T>(c: seq<Option<T>>, n: nat, key: T -> string): seq<T>
    requires n <= |c|
  {
    if n == 0 then []
    else FirstsOnly(c, n - 1, key) + (if FirstOfKey(c, n - 1, key) then [c[n - 1].value] else [])
  }

  /** Some of the first `n` candidates has key `k`. */
  predicate KeyAmong<T>(c: seq<Option<T>>, n: nat, k: string, key: T -> string)
    requires n <= |c|
  {
    exists j :: 0 <= j < n && c[j].Some? && key(c[j].value) == k
  }

  lemma KeyAmongStep<T>(c: seq<Option<T>>, n: nat, k: string, key: T -> string)
    requires 0 < n <= |c|
    ensures KeyAmong(c, n, k, key) <==> KeyAmong(c, n - 1, k, key) || (c[n - 1].Some? && key(c[n - 1].value) == k)
  {
    if KeyAmong(c, n, k, key) {
      var j :| 0 <= j < n && c[j].Some? && key(c[j].value) == k;
      if j < n - 1 {
        assert KeyAmong(c, n - 1, k, key);
      }
    }
  }

  /** The keys kept after `n` candidates are exactly the keys among them. */
  lemma {:induction false} FirstPerKeyKeys<T>(c: seq<Option<T>>, n: nat, k: string, key: T -> string)
    requires n <= |c|
    ensures k in KeysOf(FirstPerKey(c, n, key), key) <==> KeyAmong(c, n, k, key)
  {
    if n > 0 {
      FirstPerKeyKeys(c, n - 1, k, key);
      KeyAmongStep(c, n, k, key);
      var prev := FirstPerKey(c, n - 1, key);
      if c[n - 1].Some? && key(c[n - 1].value) !in KeysOf(prev, key) {
        assert FirstPerKey(c, n, key) == prev + [c[n - 1].value];
        assert KeysOf(prev + [c[n - 1].value], key) == KeysOf(prev, key) + [key(c[n - 1].value)];
      } else {
        assert FirstPerKey(c, n, key) == prev;
        if c[n - 1].Some? {
          FirstPerKeyKeys(c, n - 1, key(c[n - 1].value), key);
        }
      }
    }
  }

  /** A candidate is the first of its key iff no earlier candidate has that key. */
  lemma FirstOfKeyIffNew<T>(c: seq<Option<T>>, i: nat, key: T -> string)
    requires i < |c| && c[i].Some?
    ensures FirstOfKey(c, i, key) <==> !KeyAmong(c, i, key(c[i].value), key)
  {
  }

  /** The Map-based loop agrees with the reference definition. */
  lemma {:induction false} FirstPerKeyIsFirstsOnly<T>(c: seq<Option<T>>, n: nat, key: T -> string)
    requires n <= |c|
    ensures FirstPerKey(c, n, key) == FirstsOnly(c, n, key)
  {
    if n > 0 {
      FirstPerKeyIsFirstsOnly(c, n - 1, key);
      FirstPerKeyStep(c, n, key);
    }
  }

  /** The Map gains candidate `n - 1` exactly when it is the first of its key. */
  lemma FirstPerKeyStep<T>(c: seq<Option<T>>, n: nat, key: T -> string)
    requires 0 < n <= |c|
    ensures FirstPerKey(c, n, key) == FirstPerKey(c, n - 1, key) + (if FirstOfKey(c, n - 1, key) then [c[n - 1].value] else [])
  {
    if c[n - 1].Some? {
      FirstPerKeyKeys(c, n - 1, key(c[n - 1].value), key);
      FirstOfKeyIffNew(c, n - 1, key);
    }
  }

  /** No two elements of `ms` share a key. */
  predicate DistinctKeys<T>(ms: seq<T>, key: T -> string) {
    forall a, b :: 0 <= a < b < |ms| ==> key(ms[a]) != key(ms[b])
  }

  /** No two kept materials share a key. */
  lemma {:induction false} FirstPerKeyDistinct<T>(c: seq<Option<T>>, n: nat, key: T -> string)
    requires n <= |c|
    ensures DistinctKeys(FirstPerKey(c, n, key), key)
  {
    if n > 0 {
      FirstPerKeyDistinct(c, n - 1, key);
      var prev := FirstPerKey(c, n - 1, key);
      if c[n - 1].Some? && key(c[n - 1].value) !in KeysOf(prev, key) {
        var r := prev + [c[n - 1].value];
        assert FirstPerKey(c, n, key) == r;
        assert DistinctKeys(prev, key);
        forall a, b | 0 <= a < b < |r| ensures key(r[a]) != key(r[b]) {
          if b == |prev| {
            assert r[b] == c[n - 1].value && r[a] == prev[a];
            assert KeysOf(prev, key)[a] == key(r[a]);
            assert key(r[a]) in KeysOf(prev, key);
          } else {
            assert r[a] == prev[a] && r[b] == prev[b];
          }
        }
        assert DistinctKeys(r, key);
      } else {
        assert FirstPerKey(c, n, key) == prev;
      }
    }
  }

  /** Every candidate's key is among the kept materials' keys. */
  lemma FirstPerKeyCovers<T>(c: seq<Option<T>>, i: nat, key: T -> string)
    requires i < |c| && c[i].Some?
    ensures key(c[i].value) in KeysOf(FirstPerKey(c, |c|, key), key)
  {
    FirstPerKeyKeys(c, |c|, key(c[i].value), key);
    assert KeyAmong(c, |c|, key(c[i].value), key);
  }

  /** `parseFromHtml` after the fetch: one candidate per `a[onclick]`. */
  function LinkCandidates(links: seq<Link>, resolve: string -> string): (r: seq<Option<Material>>)
    ensures |r| == |links| && forall i :: 0 <= i < |links| ==> r[i] == FromLink(links[i], resolve)
  {
    seq(|links|, i requires 0 <= i < |links| => FromLink(links[i], resolve))
  }

  /** `extractFromDetailPage`: one candidate per row of the detail table. */
  function RowCandidates(rows: seq<Row>, resolve: string -> string): (r: seq<Option<Material>>)
    ensures |r| == |rows| && forall i :: 0 <= i < |rows| ==> r[i] == FromRow(rows[i], resolve)
  {
    seq(|rows|, i requires 0 <= i < |rows| => FromRow(rows[i], resolve))
  }

  /** The `forEach` loop filling `materialsMap`, then `Array.from(materialsMap.values())`. */
  method CollectFirstPerKey(c: seq<Option<Material>>) returns (ms: seq<Material>)
    ensures ms == FirstsOnly(c, |c|, UniqueKey)
  {
    ms := KeepFirstPerKey(c, UniqueKey);
    FirstPerKeyIsFirstsOnly(c, |c|, UniqueKey);
  }

  /** The `Map` loop: a candidate is added unless its key was seen. */
  method KeepFirstPerKey<T>(c: seq<Option<T>>, key: T -> string) returns (ms: seq<T>)
    ensures ms == FirstPerKey(c, |c|, key)
  {
    ms := [];
    var seen: set<string> := {};
    var i := 0;
    while i < |c|
      invariant 0 <= i <= |c|
      invariant ms == FirstPerKey(c, i, key)
      invariant forall k :: k in seen <==> k in KeysOf(ms, key)
    {
      var m := c[i];
      if m.Some? && key(m.value) !in seen {
        assert KeysOf(ms + [m.value], key) == KeysOf(ms, key) + [key(m.value)];
        ms := ms + [m.value];
        seen := seen + {key(m.value)};
      }
      i := i + 1;
    }
  }

  method ParseFromLinks(links: seq<Link>, resolve: string -> string) returns (ms: seq<Material>)
    ensures ms == FirstsOnly(LinkCandidates(links, resolve), |links|, UniqueKey)
  {
    ms := CollectFirstPerKey(LinkCandidates(links, resolve));
  }

  method ExtractFromDetailRows(rows: seq<Row>, resolve: string -> string) returns (ms: seq<Material>)
    ensures ms == FirstsOnly(RowCandidates(rows, resolve), |rows|, UniqueKey)
  {
    ms := CollectFirstPerKey(RowCandidates(rows, resolve));
  }

  // ---------------------------------------------------------------------------------------
  // The main-page cell pattern

  /** /kyozaiTitleLink\('([^']+)',\s*'([^']+)'\)/ at position `i`: the material ID and its code. */
  function TitleLinkAt(s: string, i: nat): Option<(string, string)> {
    if !LitAt(s, i, "kyozaiTitleLink('") then None
    else
      var p := i + 17;
      var e1 := SpanEnd(s, p, NotQuote);
      if e1 == p || !LitAt(s, e1, "',") then None
      else
        var q := SpanEnd(s, e1 + 2, Space);
        if !LitAt(s, q, "'") then None
        else
          var e2 := SpanEnd(s, q + 1, NotQuote);
          if e2 == q + 1 || !LitAt(s, e2, "')") then None
          else Some((s[p..e1], s[q + 1..e2]))
  }
}
