/** The page renderer: image URLs, the fixed head with the item count, one
    card per item, and the fixed trailer, assembled into one HTML string.
    The fixed texts come from a Template; the gallery uses
    PageTemplate.GalleryTemplate, and every property below holds for any
    template. */
module Renderer {

  import opened Extractor
  import opened PageTemplate
  import Decimal

  // ---------------------------------------------------------------------
  // Image URL

  const ImageBase: string := "https://rtaicookbook.oss-cn-hongkong.aliyuncs.com/generated_images/"
  const ResizeSuffix: string := "?x-oss-process=image/resize,w_240"

  /** `x` occurs in `s` starting at position `p`. */
  predicate OccursAt(x: string, s: string, p: int) {
    0 <= p && p + |x| <= |s| && s[p..p + |x|] == x
  }

  lemma OccursAtStart(x: string, r: string)
    ensures OccursAt(x, x + r, 0)
  {
    assert (x + r)[..|x|] == x;
  }

  lemma OccursAtEnd(l: string, x: string)
    ensures OccursAt(x, l + x, |l|)
  {
    assert (l + x)[|l|..] == x;
  }

  /** An occurrence survives text appended after it. */
  lemma OccursAtExtend(x: string, s: string, p: int, r: string)
    requires OccursAt(x, s, p)
    ensures OccursAt(x, s + r, p)
  {
    assert (s + r)[p..p + |x|] == s[p..p + |x|];
  }

  lemma OccursAtExtend2(x: string, s: string, p: int, r1: string, r2: string)
    requires OccursAt(x, s, p)
    ensures OccursAt(x, s + r1 + r2, p)
  {
    OccursAtExtend(x, s, p, r1);
    OccursAtExtend(x, s + r1, p, r2);
  }

  /** An occurrence moves right by the length of text put before it. */
  lemma OccursAtShift(x: string, l: string, s: string, p: int)
    requires OccursAt(x, s, p)
    ensures OccursAt(x, l + s, |l| + p)
  {
    assert (l + s)[|l| + p..|l| + p + |x|] == s[p..p + |x|];
  }

  /** The parts of `l + x + r`: `l` first, `r` last, and `x` what lies between. */
  lemma Between(l: string, x: string, r: string)
    ensures var s := l + x + r;
            && OccursAt(l, s, 0)
            && |s| == |l| + |x| + |r|
            && OccursAt(r, s, |s| - |r|)
            && s[|l|..|s| - |r|] == x
  {
    var s := l + x + r;
    assert s == l + (x + r);
    OccursAtStart(l, x + r);
    OccursAtEnd(l + x, r);
    assert s[|l|..|s| - |r|] == x;
  }

  /** An occurrence in `s` moves right by `|l|` inside `l + s + r`. */
  lemma OccursInMiddle(x: string, l: string, s: string, r: string, p: int)
    requires OccursAt(x, s, p)
    ensures OccursAt(x, l + s + r, |l| + p)
  {
    OccursAtShift(x, l, s, p);
    OccursAtExtend(x, l + s, |l| + p, r);
  }

  /** The 240-pixel-wide variant of a stored image. */
  function ImageUrl(filename: string): string {
    ImageBase + filename + ResizeSuffix
  }

  /** The URL is the fixed base, the filename as given (not escaped), then
      the fixed resize directive, and nothing else. */
  lemma ImageUrlParts(filename: string)
    ensures |ImageUrl(filename)| == |ImageBase| + |filename| + |ResizeSuffix|
    ensures OccursAt(ImageBase, ImageUrl(filename), 0)
    ensures OccursAt(filename, ImageUrl(filename), |ImageBase|)
    ensures OccursAt(ResizeSuffix, ImageUrl(filename), |ImageBase| + |filename|)
  {
    OccursAtStart(ImageBase, filename + ResizeSuffix);
    assert ImageBase + filename + ResizeSuffix == ImageBase + (filename + ResizeSuffix);
    OccursAtEnd(ImageBase, filename);
    OccursAtExtend(filename, ImageBase + filename, |ImageBase|, ResizeSuffix);
    OccursAtEnd(ImageBase + filename, ResizeSuffix);
  }

  /** Distinct filenames give distinct URLs. */
  lemma ImageUrlInjective(f: string, g: string)
    requires ImageUrl(f) == ImageUrl(g)
    ensures f == g
  {
    ImageUrlParts(f);
    ImageUrlParts(g);
  }

  // ---------------------------------------------------------------------
  // Head

  /** The head: document start, styles, title block and the item count. */
  function Head(t: Template, count: nat): string {
    t.headBeforeCount + Decimal.NatToString(count) + t.headAfterCount
  }

  /** The head is its fixed texts around a numeral that reads back as the count. */
  lemma HeadShowsCount(t: Template, count: nat)
    ensures var h := Head(t, count);
            && OccursAt(t.headBeforeCount, h, 0)
            && |h| == |t.headBeforeCount| + |Decimal.NatToString(count)| + |t.headAfterCount|
            && OccursAt(t.headAfterCount, h, |h| - |t.headAfterCount|)
            && var shown := h[|t.headBeforeCount|..|h| - |t.headAfterCount|];
               Decimal.AllDigits(shown) && Decimal.ParseDigits(shown) == count
  {
    Decimal.ParseNatToString(count);
    Between(t.headBeforeCount, Decimal.NatToString(count), t.headAfterCount);
  }

  /** Heads of different counts differ: the count shown determines the count. */
  lemma HeadInjective(t: Template, m: nat, n: nat)
    requires Head(t, m) == Head(t, n)
    ensures m == n
  {
    HeadShowsCount(t, m);
    HeadShowsCount(t, n);
  }

  // ---------------------------------------------------------------------
  // Cards

  // Offsets of the interpolated values inside a card.
  function SrcAt(t: Template, i: nat, delay: nat -> string): nat {
    |t.cardBeforeDelay| + |delay(i)| + |t.cardBeforeSrc|
  }

  function AltAt(t: Template, i: nat, item: Record, delay: nat -> string): nat {
    SrcAt(t, i, delay) + |ImageUrl(item.filename)| + |t.cardBeforeAlt|
  }

  function NameAt(t: Template, i: nat, item: Record, delay: nat -> string): nat {
    AltAt(t, i, item, delay) + |item.name| + |t.cardBeforeName|
  }

  function CategoryAt(t: Template, i: nat, item: Record, delay: nat -> string): nat {
    NameAt(t, i, item, delay) + |item.name| + |t.cardBeforeCategory|
  }

  /** The card of the item at position `i`: the image tag with its source
      and alt text, the name label and the category label. `delay(i)` is
      the text Python gives for the float `i * 0.05`, the card's animation
      delay. */
  function Card(t: Template, i: nat, item: Record, delay: nat -> string): string {
    t.cardBeforeDelay + delay(i) + t.cardBeforeSrc + ImageUrl(item.filename) + t.cardBeforeAlt + item.name
      + t.cardBeforeName + item.name + t.cardBeforeCategory + item.category + t.cardEnd
  }

  /** `x`, put after `l` and followed by one more text, stays right after `l`. */
  lemma OccursBefore1(l: string, x: string, r1: string)
    ensures OccursAt(x, l + x + r1, |l|)
  {
    OccursAtEnd(l, x);
    OccursAtExtend(x, l + x, |l|, r1);
  }

  lemma OccursBefore3(l: string, x: string, r1: string, r2: string, r3: string)
    ensures OccursAt(x, l + x + r1 + r2 + r3, |l|)
  {
    OccursBefore1(l, x, r1);
    OccursAtExtend2(x, l + x + r1, |l|, r2, r3);
  }

  lemma OccursBefore5(l: string, x: string, r1: string, r2: string, r3: string, r4: string, r5: string)
    ensures OccursAt(x, l + x + r1 + r2 + r3 + r4 + r5, |l|)
  {
    OccursBefore3(l, x, r1, r2, r3);
    OccursAtExtend2(x, l + x + r1 + r2 + r3, |l|, r4, r5);
  }

  lemma OccursBefore7(l: string, x: string, r1: string, r2: string, r3: string, r4: string, r5: string, r6: string, r7: string)
    ensures OccursAt(x, l + x + r1 + r2 + r3 + r4 + r5 + r6 + r7, |l|)
  {
    OccursBefore5(l, x, r1, r2, r3, r4, r5);
    OccursAtExtend2(x, l + x + r1 + r2 + r3 + r4 + r5, |l|, r6, r7);
  }

  /** `x`, put after `l` and followed by 9 more texts, stays right after `l`. */
  lemma OccursBefore9(l: string, x: string, r1: string, r2: string, r3: string, r4: string, r5: string, r6: string, r7: string, r8: string, r9: string)
    ensures OccursAt(x, l + x + r1 + r2 + r3 + r4 + r5 + r6 + r7 + r8 + r9, |l|)
  {
    OccursBefore7(l, x, r1, r2, r3, r4, r5, r6, r7);
    OccursAtExtend2(x, l + x + r1 + r2 + r3 + r4 + r5 + r6 + r7, |l|, r8, r9);
  }

  /** The card's image tag holds the card's delay, then the item's image
      URL as the img src and the item's name as its alt text, unescaped. */
  lemma CardImage(t: Template, i: nat, item: Record, delay: nat -> string)
    ensures var c := Card(t, i, item, delay);
            && OccursAt(delay(i), c, |t.cardBeforeDelay|)
            && OccursAt(ImageUrl(item.filename), c, SrcAt(t, i, delay))
            && OccursAt(item.name, c, AltAt(t, i, item, delay))
  {
    var a, b, c, d, e := t.cardBeforeDelay, delay(i), t.cardBeforeSrc, ImageUrl(item.filename), t.cardBeforeAlt;
    var f, g, h, j, k := item.name, t.cardBeforeName, item.name, item.category, t.cardEnd;
    var cat := t.cardBeforeCategory;
    OccursBefore9(a, b, c, d, e, f, g, h, cat, j, k);
    OccursBefore7(a + b + c, d, e, f, g, h, cat, j, k);
    OccursBefore5(a + b + c + d + e, f, g, h, cat, j, k);
  }

  /** After the image tag the card shows the item's name and then its
      category as text, unescaped, and ends with the fixed closing text. */
  lemma CardLabels(t: Template, i: nat, item: Record, delay: nat -> string)
    ensures var c := Card(t, i, item, delay);
            && OccursAt(item.name, c, NameAt(t, i, item, delay))
            && OccursAt(item.category, c, CategoryAt(t, i, item, delay))
            && |c| == CategoryAt(t, i, item, delay) + |item.category| + |t.cardEnd|
            && OccursAt(t.cardEnd, c, |c| - |t.cardEnd|)
  {
    var a, b, c, d, e := t.cardBeforeDelay, delay(i), t.cardBeforeSrc, ImageUrl(item.filename), t.cardBeforeAlt;
    var f, g, h, j, k := item.name, t.cardBeforeName, item.name, item.category, t.cardEnd;
    var cat := t.cardBeforeCategory;
    OccursBefore3(a + b + c + d + e + f + g, h, cat, j, k);
    OccursBefore1(a + b + c + d + e + f + g + h + cat, j, k);
    OccursAtEnd(a + b + c + d + e + f + g + h + cat + j, k);
  }

  /** The cards of all items, in order, card `i` for `items[i]`. */
  function Cards(t: Template, items: seq<Record>, delay: nat -> string): string {
    if items == [] then ""
    else Cards(t, items[..|items| - 1], delay) + Card(t, |items| - 1, items[|items| - 1], delay)
  }

  /** Card `i` stands in the card block right after the cards of the items
      before it: one card per item, in input order. */
  lemma {:induction false} CardsAt(t: Template, items: seq<Record>, delay: nat -> string, i: nat)
    requires i < |items|
    ensures OccursAt(Card(t, i, items[i], delay), Cards(t, items, delay), |Cards(t, items[..i], delay)|)
  {
    var init := items[..|items| - 1];
    var last := Card(t, |items| - 1, items[|items| - 1], delay);
    if i == |items| - 1 {
      assert items[..i] == init;
      OccursAtEnd(Cards(t, init, delay), last);
    } else {
      CardsAt(t, init, delay, i);
      assert init[..i] == items[..i];
      assert init[i] == items[i];
      OccursAtExtend(Card(t, i, items[i], delay), Cards(t, init, delay), |Cards(t, items[..i], delay)|, last);
    }
  }

  // ---------------------------------------------------------------------
  // Trailer and page

  /** The trailer. */
  function Trailer(t: Template): string {
    t.trailerBeforeLogCount + LogCountPlaceholder + t.trailerAfterLogCount
  }

  /** The trailer depends on no item and on no count: where its console
      message would give the count it carries the placeholder text itself. */
  lemma TrailerLogsPlaceholder(t: Template)
    ensures OccursAt(LogCountPlaceholder, Trailer(t), |t.trailerBeforeLogCount|)
  {
    OccursAtEnd(t.trailerBeforeLogCount, LogCountPlaceholder);
    OccursAtExtend(LogCountPlaceholder, t.trailerBeforeLogCount + LogCountPlaceholder,
                   |t.trailerBeforeLogCount|, t.trailerAfterLogCount);
  }

  /** The whole document for `items`. */
  function Page(t: Template, items: seq<Record>, delay: nat -> string): string {
    Head(t, |items|) + Cards(t, items, delay) + Trailer(t)
  }

  /** The page opens with the head for the number of items, so its only
      dependence on the items there is their count, and closes with the
      trailer, which does not depend on them at all. */
  lemma PageFrame(t: Template, items: seq<Record>, delay: nat -> string)
    ensures OccursAt(Head(t, |items|), Page(t, items, delay), 0)
    ensures OccursAt(Trailer(t), Page(t, items, delay), |Page(t, items, delay)| - |Trailer(t)|)
  {
    var h := Head(t, |items|);
    var cards := Cards(t, items, delay);
    OccursAtStart(h, cards);
    OccursAtExtend(h, h + cards, 0, Trailer(t));
    OccursAtEnd(h + cards, Trailer(t));
  }

  /** In the page, card `i` follows the head and the cards before it. */
  lemma PageCardAt(t: Template, items: seq<Record>, delay: nat -> string, i: nat)
    requires i < |items|
    ensures OccursAt(Card(t, i, items[i], delay), Page(t, items, delay),
                     |Head(t, |items|)| + |Cards(t, items[..i], delay)|)
  {
    CardsAt(t, items, delay, i);
    OccursInMiddle(Card(t, i, items[i], delay), Head(t, |items|), Cards(t, items, delay), Trailer(t),
                   |Cards(t, items[..i], delay)|);
  }

  /** The rendering loop: the head, then one card appended per item, then
      the trailer. */
  method GenerateHtml(t: Template, items: seq<Record>, delay: nat -> string) returns (html: string)
    ensures html == Page(t, items, delay)
  {
    var totalCount := |items|;
    html := Head(t, totalCount);
    var i := 0;
    while i < |items|
      invariant 0 <= i <= |items|
      invariant html == Head(t, totalCount) + Cards(t, items[..i], delay)
    {
      var item := items[i];
      assert items[..i + 1][..i] == items[..i];
      html := html + Card(t, i, item, delay);
      i := i + 1;
    }
    assert items[..i] == items;
    html := html + Trailer(t);
  }
}
