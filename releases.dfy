/**
 * The release listing of the landing pages (website/script.js and script.js, which carry
 * the same code): the three latest releases become cards, and each release body is trimmed,
 * split into lines, stripped of blank lines, and every remaining line becomes a heading, a
 * list-item paragraph or a plain paragraph. Blocks are kept as tagged values; `BlockHtml`
 * gives the markup that is joined into the card.
 */
module Releases {
  import opened Wrappers
  import opened Text
  import opened Seqs

  const NO_RELEASES := "<p>利用可能なリリースはありません。</p>"
  const NO_DESCRIPTION := "<p>このリリースには説明がありません。</p>"

  /** `releases.slice(0, 3)` */
  const MAX_CARDS := 3

  /** What one body line becomes. */
  datatype Block = Heading(text: string) | ListItem(text: string) | Para(text: string)

  function BlockHtml(b: Block): string {
    match b
    case Heading(t) => "<h3>" + t + "</h3>"
    case ListItem(t) => "<p class=\"release-list-item\">" + t + "</p>"
    case Para(t) => "<p>" + t + "</p>"
  }

  /** The first characters that mark a list item. */
  predicate IsBullet(c: char) {
    c == '・' || c == '-' || c == '*'
  }

  /** The `map` callback: the `#` test comes before the bullet test. */
  function LineBlock(line: string): Block {
    var t := Trim(line);
    if StartsWith(t, "#") then Heading(Trim(RemoveChar(t, '#')))
    else if t != [] && IsBullet(t[0]) then ListItem(Trim(t[1..]))
    else Para(t)
  }

  /** The `filter` callback. */
  predicate NotBlank(line: string) {
    Trim(line) != []
  }

  /** The card body: the placeholder, or the blocks of the body's non-blank lines. */
  datatype BodyHtml = NoDescription | Blocks(blocks: seq<Block>)

  function BodyOf(body: Option<string>): (r: BodyHtml)
    ensures r.NoDescription? <==> Trim(body.GetOr("")) == []
  {
    var raw := Trim(body.GetOr(""));
    if raw == [] then NoDescription
    else
      var lines := Split(raw, '\n');
      Blocks(KeptMapped(lines, |lines|, NotBlank, LineBlock))
  }

  datatype Release = Release(tagName: string, publishedAt: string, body: Option<string>)

  datatype Card = Card(tagName: string, publishedAt: string, body: BodyHtml)

  function CardOf(r: Release): Card {
    Card(r.tagName, r.publishedAt, BodyOf(r.body))
  }

  /** What `populateDownloads` puts into the list once the releases are fetched. */
  datatype Listing = NoReleases | Cards(cards: seq<Card>)

  function Min(a: nat, b: nat): nat { if a < b then a else b }

  function Populate(releases: seq<Release>): (r: Listing)
    ensures r.NoReleases? <==> releases == []
    ensures r.Cards? ==> 1 <= |r.cards| <= MAX_CARDS
  {
    if |releases| == 0 then NoReleases
    else Cards(seq(Min(MAX_CARDS, |releases|), i requires 0 <= i < Min(MAX_CARDS, |releases|) => CardOf(releases[i])))
  }

  // ---------------------------------------------------------------------------
  // Properties of the listing
  // ---------------------------------------------------------------------------

  /**
   * Only the latest releases are shown: as many cards as releases up to three, the i-th card
   * made from the i-th release, in the order the releases come.
   */
  lemma LatestReleasesOnly(releases: seq<Release>)
    requires releases != []
    ensures |Populate(releases).cards| == if |releases| < MAX_CARDS then |releases| else MAX_CARDS
    ensures forall i :: 0 <= i < |Populate(releases).cards| ==> Populate(releases).cards[i] == CardOf(releases[i])
  {
  }

  // ---------------------------------------------------------------------------
  // Properties of one line
  // ---------------------------------------------------------------------------

  predicate IsTrimmed(t: string) {
    t == [] || (!IsSpace(t[0]) && !IsSpace(t[|t| - 1]))
  }

  /**
   * A heading carries no `#` and no surrounding white space; a list item's text is trimmed;
   * a paragraph is the trimmed line itself, which starts with neither `#` nor a bullet. A line
   * starting with `#` is a heading even when a bullet follows.
   */
  lemma LineBlockSpec(line: string)
    ensures var b := LineBlock(line);
      && (b.Heading? <==> StartsWith(Trim(line), "#"))
      && (b.Heading? ==> '#' !in b.text && IsTrimmed(b.text))
      && (b.ListItem? ==> IsBullet(Trim(line)[0]) && IsTrimmed(b.text))
      && (b.Para? ==>
            b.text == Trim(line) && IsTrimmed(b.text)
            && (b.text != [] ==> b.text[0] != '#' && !IsBullet(b.text[0])))
  {
    var t := Trim(line);
    TrimSpec(line);
    if StartsWith(t, "#") {
      var h := Trim(RemoveChar(t, '#'));
      TrimSpec(RemoveChar(t, '#'));
      if '#' in h {
        TrimMembers(RemoveChar(t, '#'), '#');
      }
    } else if t != [] && IsBullet(t[0]) {
      TrimSpec(t[1..]);
    }
  }

  /** Number of non-blank lines among the first `n`. */
  function NonBlankCount(lines: seq<string>, n: nat): nat
    requires n <= |lines|
  {
    if n == 0 then 0 else NonBlankCount(lines, n - 1) + (if NotBlank(lines[n - 1]) then 1 else 0)
  }

  lemma {:induction false} KeptBlocksLength(lines: seq<string>, n: nat)
    requires n <= |lines|
    ensures |KeptMapped(lines, n, NotBlank, LineBlock)| == NonBlankCount(lines, n)
  {
    if n > 0 {
      KeptBlocksLength(lines, n - 1);
    }
  }

  /**
   * Blank lines are dropped and every other line gives exactly one block: the blocks are the
   * blocks of the non-blank lines, one per line, and none of them is an empty paragraph.
   */
  lemma BodyBlocksSpec(body: string)
    requires Trim(body) != []
    ensures var lines := Split(Trim(body), '\n');
      && BodyOf(Some(body)).Blocks?
      && |BodyOf(Some(body)).blocks| == NonBlankCount(lines, |lines|)
      && (forall b :: b in BodyOf(Some(body)).blocks <==>
            exists i :: 0 <= i < |lines| && NotBlank(lines[i]) && LineBlock(lines[i]) == b)
      && (forall b :: b in BodyOf(Some(body)).blocks ==> b != Para([]))
  {
    var lines := Split(Trim(body), '\n');
    KeptBlocksLength(lines, |lines|);
    forall b ensures b in BodyOf(Some(body)).blocks <==>
      exists i :: 0 <= i < |lines| && NotBlank(lines[i]) && LineBlock(lines[i]) == b
    {
      KeptMappedMembers(lines, |lines|, NotBlank, LineBlock, b);
    }
    forall b | b in BodyOf(Some(body)).blocks ensures b != Para([]) {
      KeptMappedMembers(lines, |lines|, NotBlank, LineBlock, b);
      var i :| 0 <= i < |lines| && NotBlank(lines[i]) && LineBlock(lines[i]) == b;
      LineBlockSpec(lines[i]);
    }
  }

  /** A missing body and a body of white space only both give the placeholder. */
  lemma BlankBodyHasPlaceholder(body: Option<string>)
    requires body.None? || forall i :: 0 <= i < |body.value| ==> IsSpace(body.value[i])
    ensures BodyOf(body) == NoDescription
  {
    TrimStartSpec(body.GetOr(""));
  }
}
