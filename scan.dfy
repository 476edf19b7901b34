/**
 * Building blocks for the regular expressions the extension uses. Each of those patterns
 * is deterministic: every repeated character class is followed by a character outside the
 * class, so a match at a given position is found without backtracking. A pattern is
 * modelled as a matcher at one position plus a leftmost search, which is what
 * `String.prototype.match` with a non-global pattern returns.
 */
module Scan {
  import opened Wrappers
  import opened Text

  /** The character classes that occur in the patterns. */
  datatype CharClass = NotQuote | Space | Digit | AsciiAlnum | NotLineTerminator

  predicate In(c: char, k: CharClass) {
    match k
    case NotQuote => c != '\''
    case Space => IsSpace(c)
    case Digit => IsDigit(c)
    case AsciiAlnum => IsAsciiAlnum(c)
    case NotLineTerminator => !IsLineTerminator(c)
  }

  /** End of the longest run of class-`k` characters of `s` that starts at `p` (`k*` taken greedily). */
  function SpanEnd(s: string, p: nat, k: CharClass): (r: nat)
    requires p <= |s|
    ensures p <= r <= |s|
    ensures forall j :: p <= j < r ==> In(s[j], k)
    ensures r == |s| || !In(s[r], k)
    decreases |s| - p
  {
    if p < |s| && In(s[p], k) then SpanEnd(s, p + 1, k) else p
  }

  /** A run of class-`k` characters from `p` that stops at `q`, before a character outside the class, ends where `SpanEnd` says. */
  lemma SpanEndAt(s: string, p: nat, q: nat, k: CharClass)
    requires p <= q < |s| && !In(s[q], k)
    requires forall j :: p <= j < q ==> In(s[j], k)
    ensures SpanEnd(s, p, k) == q
  {
  }

  /** The run `SpanEnd` measures for `NotQuote`, taken as a string, holds no quote. */
  lemma QuoteFreeRun(s: string, p: nat)
    requires p <= |s|
    ensures var r := s[p..SpanEnd(s, p, NotQuote)]; forall j :: 0 <= j < |r| ==> r[j] != '\''
  {
    var e := SpanEnd(s, p, NotQuote);
    forall j | 0 <= j < e - p ensures s[p..e][j] != '\'' {
      assert In(s[p + j], NotQuote);
    }
  }

  /** The literal `lit` occurs in `s` at position `i`. */
  predicate LitAt(s: string, i: nat, lit: string) {
    i + |lit| <= |s| && s[i..i + |lit|] == lit
  }

  /** The first position at or after `i` where matcher `m` succeeds. */
  function FirstAt<T>(s: string, i: nat, m: (string, nat) -> Option<T>): (r: Option<nat>)
    ensures r.Some? ==> i <= r.value <= |s| && m(s, r.value).Some?
    ensures r.Some? ==> forall j :: i <= j < r.value ==> m(s, j).None?
    ensures r.None? ==> forall j :: i <= j <= |s| ==> m(s, j).None?
    decreases |s| + 1 - i
  {
    if i > |s| then None
    else if m(s, i).Some? then Some(i)
    else FirstAt(s, i + 1, m)
  }

  /** `s.match(re)`: the captures of the leftmost match, or `null`. */
  function Search<T>(s: string, m: (string, nat) -> Option<T>): (r: Option<T>)
    ensures r.Some? <==> exists j :: 0 <= j <= |s| && m(s, j).Some?
  {
    var p := FirstAt(s, 0, m);
    if p.Some? then m(s, p.value) else None
  }
}
