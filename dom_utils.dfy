/**
 * The shared DOM helpers of the content scripts (features/modules/dom-utils.js): the session
 * ID read from the page URL, the query wrappers that never throw, and waiting for an element
 * with a timeout.
 */
module DomUtils {
  import opened Wrappers
  import opened Text
  import opened Scan
  import opened Constants

  // ---------------------------------------------------------------------------------------
  // getSid

  /** /SID=([a-zA-Z0-9]+)/ at position `i`: the run of letters and digits after "SID=". */
  function SidAt(s: string, i: nat): Option<string> {
    if LitAt(s, i, SID_PREFIX) then
      var e := SpanEnd(s, i + |SID_PREFIX|, AsciiAlnum);
      if e > i + |SID_PREFIX| then Some(s[i + |SID_PREFIX|..e]) else None
    else None
  }

  /** `getSid()` on the page URL `href`. */
  function GetSid(href: string): Option<string> {
    Search(href, SidAt)
  }

  /** "SID=" occurs at `i` and is followed by `sid`, a maximal run of ASCII letters and digits. */
  predicate SidFollows(href: string, i: nat, sid: string) {
    && LitAt(href, i, SID_PREFIX)
    && sid != [] && i + 4 + |sid| <= |href| && href[i + 4..i + 4 + |sid|] == sid
    && (forall k :: 0 <= k < |sid| ==> IsAsciiAlnum(sid[k]))
    && (i + 4 + |sid| == |href| || !IsAsciiAlnum(href[i + 4 + |sid|]))
  }

  lemma SidAtSpec(href: string, i: nat)
    ensures SidAt(href, i).Some? ==> SidFollows(href, i, SidAt(href, i).value)
    ensures SidAt(href, i).None? ==> !LitAt(href, i, SID_PREFIX) || i + 4 == |href| || !IsAsciiAlnum(href[i + 4])
  {
    if LitAt(href, i, SID_PREFIX) {
      var e := SpanEnd(href, i + 4, AsciiAlnum);
      if e > i + 4 {
        var sid := href[i + 4..e];
        assert forall k :: 0 <= k < |sid| ==> sid[k] == href[i + 4 + k];
      }
    }
  }

  /**
   * The session ID is the alphanumeric run after the first "SID=" that has one; there is none
   * exactly when no "SID=" is followed by a letter or digit.
   */
  lemma GetSidSpec(href: string)
    ensures GetSid(href).Some? ==>
      (exists i :: 0 <= i <= |href| && SidFollows(href, i, GetSid(href).value) && forall j :: 0 <= j < i ==> SidAt(href, j).None?)
    ensures GetSid(href).None? <==>
      forall i :: 0 <= i <= |href| ==> !LitAt(href, i, SID_PREFIX) || i + 4 == |href| || !IsAsciiAlnum(href[i + 4])
  {
    var p := FirstAt(href, 0, SidAt);
    if p.Some? {
      SidAtSpec(href, p.value);
      var i := p.value;
      assert LitAt(href, i, SID_PREFIX) && i + 4 < |href| && IsAsciiAlnum(href[i + 4]) by {
        assert GetSid(href).value[0] == href[i + 4];
      }
    } else {
      forall i | 0 <= i <= |href| && LitAt(href, i, SID_PREFIX) && i + 4 < |href|
        ensures !IsAsciiAlnum(href[i + 4])
      {
        assert SidAt(href, i).None?;
        assert SpanEnd(href, i + 4, AsciiAlnum) == i + 4;
      }
    }
  }

  /** A URL whose only "SID=" follows a ';', with an alphanumeric session ID after it, gives that ID. */
  lemma SidOfLmsUrl(base: string, sid: string, tail: string)
    requires forall j :: !LitAt(base, j, SID_PREFIX)
    requires sid != [] && forall k :: 0 <= k < |sid| ==> IsAsciiAlnum(sid[k])
    requires tail == [] || !IsAsciiAlnum(tail[0])
    ensures GetSid(base + ";" + SID_PREFIX + sid + tail) == Some(sid)
  {
    var pre := base + ";";
    var href := pre + SID_PREFIX + sid + tail;
    var i := |pre|;
    assert href[i..i + 4] == SID_PREFIX;
    var e := i + 4 + |sid|;
    assert href[i + 4..e] == sid;
    SpanOver(href, i + 4, e);
    forall j | 0 <= j < i ensures !LitAt(href, j, SID_PREFIX) {
      if j + 4 <= |base| {
        assert href[j..j + 4] == base[j..j + 4];
        assert !LitAt(base, j, SID_PREFIX);
      } else if j + 4 <= |href| {
        // the window covers the ';' at |base|, and "SID=" has no ';'
        assert href[j..j + 4][|base| - j] == href[|base|] == ';';
        assert SID_PREFIX[|base| - j] != ';';
      }
    }
    assert FirstAt(href, 0, SidAt) == Some(i) by {
      FirstFrom(href, 0, i);
    }
  }

  lemma {:induction false} FirstFrom(href: string, k: nat, i: nat)
    requires k <= i <= |href| && SidAt(href, i).Some?
    requires forall j :: k <= j < i ==> SidAt(href, j).None?
    ensures FirstAt(href, k, SidAt) == Some(i)
    decreases i - k
  {
    if k < i {
      FirstFrom(href, k + 1, i);
    }
  }

  lemma {:induction false} SpanOver(s: string, p: nat, e: nat)
    requires p <= e <= |s|
    requires forall k :: p <= k < e ==> IsAsciiAlnum(s[k])
    requires e == |s| || !IsAsciiAlnum(s[e])
    ensures SpanEnd(s, p, AsciiAlnum) == e
    decreases e - p
  {
    if p < e {
      SpanOver(s, p + 1, e);
    }
  }

  // ---------------------------------------------------------------------------------------
  // The query wrappers

  /** What a selector query does: it returns its matches in document order, or it throws (an invalid selector). */
  datatype Query<T> = Matches(elems: seq<T>) | Throws

  /** `safeQuerySelector`: the first match, or null when there is none or the query throws. */
  function SafeQuerySelector<T>(q: Query<T>): (r: Option<T>)
    ensures r.Some? <==> q.Matches? && q.elems != []
    ensures r.Some? ==> r.value == q.elems[0]
  {
    if q.Matches? && q.elems != [] then Some(q.elems[0]) else None
  }

  /** `safeQuerySelectorAll`: the matches as an array, the empty array when the query throws. */
  function SafeQuerySelectorAll<T>(q: Query<T>): (r: seq<T>)
    ensures q.Throws? ==> r == []
    ensures q.Matches? ==> r == q.elems
  {
    if q.Matches? then q.elems else []
  }

  /** The two wrappers agree: the single query finds the first element of the list query, and nothing when the list is empty. */
  lemma SelectorsAgree<T>(q: Query<T>)
    ensures SafeQuerySelector(q).Some? <==> SafeQuerySelectorAll(q) != []
    ensures SafeQuerySelector(q).Some? ==> SafeQuerySelector(q).value == SafeQuerySelectorAll(q)[0]
  {
  }

  // ---------------------------------------------------------------------------------------
  // waitForElement

  /**
   * One call of `waitForElement`: `result` is the value the promise resolved with
   * (`Some(true)` for the element, `Some(false)` for null, `None` while pending); the observer
   * and the timer are live while the promise is pending.
   */
  class ElementWaiter {
    var result: Option<bool>
    var observing: bool
    var timerArmed: bool

    /** The observer and the timer are live together, exactly while the promise is pending. */
    predicate Valid()
      reads this
    {
      observing == timerArmed && (result.None? <==> observing)
    }

    /** The call: it resolves at once when the element is already there, and otherwise starts the observer and the timer. */
    constructor(present: bool)
      ensures Valid()
      ensures present ==> result == Some(true) && !observing && !timerArmed
      ensures !present ==> result.None? && observing && timerArmed
    {
      if present {
        result, observing, timerArmed := Some(true), false, false;
      } else {
        result, observing, timerArmed := None, true, true;
      }
    }

    /** A DOM mutation while observing: when the element is now there, the timer is cleared and the promise resolves with it. */
    method OnMutation(present: bool)
      modifies this
      requires Valid()
      ensures Valid()
      ensures old(observing) && present ==> result == Some(true) && !observing && !timerArmed
      ensures !(old(observing) && present) ==> result == old(result) && observing == old(observing) && timerArmed == old(timerArmed)
    {
      if observing && present {
        timerArmed := false;
        observing := false;
        result := Some(true);
      }
    }

    /** The timer fires: the observer stops and the promise resolves with null. */
    method OnTimeout()
      modifies this
      requires Valid()
      ensures Valid()
      ensures old(timerArmed) ==> result == Some(false) && !observing && !timerArmed
      ensures !old(timerArmed) ==> result == old(result) && observing == old(observing) && timerArmed == old(timerArmed)
    {
      if timerArmed {
        timerArmed := false;
        observing := false;
        result := Some(false);
      }
    }
  }

  /** What happens while waiting: a mutation (with whether the element is there afterwards) or the timeout. */
  datatype WaitEvent = Mutation(present: bool) | TimeoutFired

  /** The value the promise resolves with after `events`, given whether the element was there at the call. */
  function WaitOutcome(present: bool, events: seq<WaitEvent>): (r: Option<bool>)
    decreases |events|
  {
    if present then Some(true)
    else if events == [] then None
    else match events[0]
      case Mutation(p) => if p then Some(true) else WaitOutcome(false, events[1..])
      case TimeoutFired => Some(false)
  }

  /** The timer fires at event `t`, and every mutation before it leaves the element absent. */
  predicate TimeoutFirst(events: seq<WaitEvent>, t: int) {
    0 <= t < |events| && events[t] == TimeoutFired && forall k :: 0 <= k < t ==> events[k] == Mutation(false)
  }

  /** The promise resolves with null exactly when the timeout comes before any mutation that shows the element. */
  lemma {:induction false} NullIffTimeoutFirst(events: seq<WaitEvent>)
    ensures WaitOutcome(false, events) == Some(false) <==> exists t :: TimeoutFirst(events, t)
    decreases |events|
  {
    if events != [] {
      var rest := events[1..];
      NullIffTimeoutFirst(rest);
      if events[0] == Mutation(false) {
        if WaitOutcome(false, events) == Some(false) {
          var t :| TimeoutFirst(rest, t);
          assert TimeoutFirst(events, t + 1) by {
            forall k | 0 <= k < t + 1 ensures events[k] == Mutation(false) {
              if k > 0 { assert events[k] == rest[k - 1]; }
            }
          }
        }
        if exists t :: TimeoutFirst(events, t) {
          var t :| TimeoutFirst(events, t);
          assert TimeoutFirst(rest, t - 1) by {
            forall k | 0 <= k < t - 1 ensures rest[k] == Mutation(false) {
              assert rest[k] == events[k + 1];
            }
          }
        }
      } else if events[0] == TimeoutFired {
        assert TimeoutFirst(events, 0);
      } else {
        assert events[0] == Mutation(true);
        forall t ensures !TimeoutFirst(events, t) {
          if 0 < t < |events| {
            assert events[0] != Mutation(false);
          }
        }
      }
    }
  }

  /** Feeding the events to a waiter one by one ends in the outcome the function describes. */
  method RunWaiter(present: bool, events: seq<WaitEvent>) returns (w: ElementWaiter)
    ensures w.Valid() && w.result == WaitOutcome(present, events)
  {
    w := new ElementWaiter(present);
    var i := 0;
    while i < |events|
      invariant 0 <= i <= |events| && w.Valid()
      invariant w.result.None? ==> WaitOutcome(present, events) == WaitOutcome(false, events[i..])
      invariant w.result.Some? ==> w.result == WaitOutcome(present, events)
      decreases |events| - i
    {
      assert events[i..][0] == events[i] && events[i..][1..] == events[i + 1..];
      if events[i].Mutation? {
        w.OnMutation(events[i].present);
        assert events[i].present ==> WaitOutcome(false, events[i..]) == Some(true);
      } else {
        w.OnTimeout();
        assert WaitOutcome(false, events[i..]) == Some(false);
      }
      i := i + 1;
    }
  }
}
