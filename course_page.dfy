/**
 * The course list page of features/subject.js as display state: the filter and the highlight
 * walk over the cards and set each card's and each day box's visibility and highlight class.
 */
module CoursePage {
  import opened Wrappers
  import opened Text
  import opened Constants
  import opened CourseFilter

  /**
   * The cards of the course list with the display state the filter sets: whether each card
   * and each day box is shown, and which cards carry the highlight class. `boxOf[i]` is the
   * day box holding card `i`.
   */
  class CourseList {
    const cards: seq<CardRaw>
    const boxOf: seq<Option<nat>>
    const boxCount: nat
    var shown: seq<bool>
    var boxShown: seq<bool>
    var highlighted: seq<bool>

    predicate Valid()
      reads this
    {
      |boxOf| == |cards| == |shown| == |highlighted| && |boxShown| == boxCount
    }

    constructor(cards: seq<CardRaw>, boxOf: seq<Option<nat>>, boxCount: nat)
      requires |boxOf| == |cards|
      ensures Valid() && this.cards == cards && this.boxOf == boxOf && this.boxCount == boxCount
      ensures shown == seq(|cards|, i => true) && boxShown == seq(boxCount, b => true)
      ensures highlighted == seq(|cards|, i => false)
    {
      this.cards, this.boxOf, this.boxCount := cards, boxOf, boxCount;
      shown := seq(|cards|, i => true);
      boxShown := seq(boxCount, b => true);
      highlighted := seq(|cards|, i => false);
    }

    /** `applyClientSideFilter`: every card shown iff it passes the filter, every box iff one of its cards is shown. */
    method ApplyClientSideFilter(f: FilterForm, month: int)
      modifies this
      requires Valid()
      ensures Valid() && highlighted == old(highlighted)
      ensures forall i :: 0 <= i < |cards| ==> (shown[i] <==> Visible(f, ExtractCardInfo(cards[i]), month))
      ensures forall b :: 0 <= b < boxCount ==> (boxShown[b] <==> HasShownCard(boxOf, shown, b))
    {
      var display := FilterCards(cards, f, month);
      var boxes := BoxesShown(boxOf, display, boxCount);
      shown, boxShown := display, boxes;
    }

    /**
     * `highlightCurrentClass` at weekday `day` (0 = Sunday) and time `hours:minutes`: the
     * highlight is cleared, then put on every shown card of today whose period is the class
     * period running now.
     */
    method HighlightCurrentClass(day: int, hours: nat, minutes: nat)
      modifies this
      requires Valid() && 0 <= day < 7 && hours < 24 && minutes < 60
      ensures Valid() && shown == old(shown) && boxShown == old(boxShown)
      ensures forall i :: 0 <= i < |cards| ==> (highlighted[i] <==> HighlightedNow(cards[i], shown[i], day, hours, minutes))
    {
      highlighted := HighlightedCards(cards, shown, day, hours, minutes);
    }
  }

  /** The highlight of each card at weekday `day` and time `hours:minutes`. */
  method HighlightedCards(cards: seq<CardRaw>, display: seq<bool>, day: int, hours: nat, minutes: nat) returns (marked: seq<bool>)
    requires |display| == |cards| && 0 <= day < 7 && hours < 24 && minutes < 60
    ensures |marked| == |cards|
    ensures forall i :: 0 <= i < |cards| ==> (marked[i] <==> HighlightedNow(cards[i], display[i], day, hours, minutes))
  {
    var target := HighlightTarget(hours, minutes);
    marked := MarkTarget(cards, display, TodayCode(day), target);
    HighlightAgrees(cards, display, marked, day, hours, minutes);
  }

  /**
   * The highlight of each card: cleared, and when a class period runs (`target` is its period
   * code) set on the shown cards of `today` whose period code is the running one.
   */
  method MarkTarget(cards: seq<CardRaw>, display: seq<bool>, today: string, target: Option<string>) returns (marked: seq<bool>)
    requires |display| == |cards|
    ensures |marked| == |cards|
    ensures forall j :: 0 <= j < |cards| ==>
      (marked[j] <==> target.Some? && display[j] && MatchesNow(ExtractCardInfo(cards[j]), today, target.value))
  {
    if target.None? {
      marked := seq(|cards|, i => false);
      return;
    }
    marked := MarkCurrent(cards, display, today, target.value);
  }

  /** Box `b` holds a card that is shown. */
  predicate HasShownCard(boxOf: seq<Option<nat>>, display: seq<bool>, b: nat) {
    exists i :: 0 <= i < |boxOf| && i < |display| && boxOf[i] == Some(b) && display[i]
  }

  /** The display state of each day box: shown iff one of its cards is. */
  method BoxesShown(boxOf: seq<Option<nat>>, display: seq<bool>, boxCount: nat) returns (boxes: seq<bool>)
    requires |display| == |boxOf|
    ensures |boxes| == boxCount
    ensures forall b :: 0 <= b < boxCount ==> (boxes[b] <==> HasShownCard(boxOf, display, b))
  {
    boxes := seq(boxCount, b => true);
    var b := 0;
    while b < boxCount
      invariant 0 <= b <= boxCount && |boxes| == boxCount
      invariant forall c :: 0 <= c < b ==> (boxes[c] <==> HasShownCard(boxOf, display, c))
    {
      var any := AnyShownIn(boxOf, display, b);
      boxes := boxes[b := any];
      b := b + 1;
    }
  }

  /** Whether a card of box `b` is shown. */
  method AnyShownIn(boxOf: seq<Option<nat>>, display: seq<bool>, b: nat) returns (any: bool)
    requires |display| == |boxOf|
    ensures any <==> HasShownCard(boxOf, display, b)
  {
    any := false;
    var i := 0;
    while i < |boxOf|
      invariant 0 <= i <= |boxOf|
      invariant any <==> exists j :: 0 <= j < i && boxOf[j] == Some(b) && display[j]
    {
      if boxOf[i] == Some(b) && display[i] {
        any := true;
      }
      i := i + 1;
    }
  }

  /** Marking the cards against today and the running period's code is the highlight test. */
  lemma HighlightAgrees(cards: seq<CardRaw>, display: seq<bool>, marked: seq<bool>, day: int, hours: nat, minutes: nat)
    requires 0 <= day < 7 && hours < 24 && minutes < 60
    requires |display| == |cards| == |marked|
    requires var target := HighlightTarget(hours, minutes);
      forall j :: 0 <= j < |cards| ==>
        (marked[j] <==> target.Some? && display[j] && MatchesNow(ExtractCardInfo(cards[j]), TodayCode(day), target.value))
    ensures forall j :: 0 <= j < |cards| ==> (marked[j] <==> HighlightedNow(cards[j], display[j], day, hours, minutes))
  {
    forall j | 0 <= j < |cards|
      ensures marked[j] <==> HighlightedNow(cards[j], display[j], day, hours, minutes)
    {
      HighlightedNowByTarget(cards[j], display[j], day, hours, minutes);
    }
  }

  /** The cards to highlight: the shown ones whose day and period codes are today's and now's. */
  method MarkCurrent(cards: seq<CardRaw>, display: seq<bool>, today: string, code: string) returns (marked: seq<bool>)
    requires |display| == |cards|
    ensures |marked| == |cards|
    ensures forall j :: 0 <= j < |cards| ==> (marked[j] <==> display[j] && MatchesNow(ExtractCardInfo(cards[j]), today, code))
  {
    var infos := CardInfos(cards);
    marked := MarkMatching(infos, display, today, code);
  }

  /** The display state of each card after filtering, card by card. */
  method FilterCards(cards: seq<CardRaw>, f: FilterForm, month: int) returns (display: seq<bool>)
    ensures |display| == |cards|
    ensures forall i :: 0 <= i < |cards| ==> (display[i] <==> Visible(f, ExtractCardInfo(cards[i]), month))
  {
    var infos := CardInfos(cards);
    display := FilterInfos(infos, f, month);
  }

  /** `extractCardInfo` of every card, in order. */
  function CardInfos(cards: seq<CardRaw>): (r: seq<CardInfo>)
    ensures |r| == |cards| && forall i :: 0 <= i < |cards| ==> r[i] == ExtractCardInfo(cards[i])
  {
    seq(|cards|, i requires 0 <= i < |cards| => ExtractCardInfo(cards[i]))
  }

  /** The highlight loop over the extracted card information. */
  method MarkMatching(infos: seq<CardInfo>, display: seq<bool>, today: string, code: string) returns (marked: seq<bool>)
    requires |display| == |infos|
    ensures |marked| == |infos|
    ensures forall j :: 0 <= j < |infos| ==> (marked[j] <==> display[j] && MatchesNow(infos[j], today, code))
  {
    marked := seq(|infos|, i => false);
    var i := 0;
    while i < |infos|
      invariant 0 <= i <= |infos| && |marked| == |infos|
      invariant forall j :: 0 <= j < i ==> (marked[j] <==> display[j] && MatchesNow(infos[j], today, code))
    {
      marked := marked[i := display[i] && MatchesNow(infos[i], today, code)];
      i := i + 1;
    }
  }

  /** The filter loop over the extracted card information. */
  method FilterInfos(infos: seq<CardInfo>, f: FilterForm, month: int) returns (display: seq<bool>)
    ensures |display| == |infos|
    ensures forall i :: 0 <= i < |infos| ==> (display[i] <==> Visible(f, infos[i], month))
  {
    display := seq(|infos|, i => true);
    var i := 0;
    while i < |infos|
      invariant 0 <= i <= |infos| && |display| == |infos|
      invariant forall j :: 0 <= j < i ==> (display[j] <==> Visible(f, infos[j], month))
    {
      display := display[i := Visible(f, infos[i], month)];
      i := i + 1;
    }
  }
}
