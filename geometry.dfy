/**
 * The rectangle maps of a text area and the hit tests that search them.
 *
 * A map is the sequence of rectangles that one paint pass produced, in visual
 * reading order. All coordinates here are area-local.
 */
module Geometry {
  import opened Wrappers

  /** A rectangle of the text-element map or of the tree-node map. */
  datatype Rect = Rect(xStart: int, xEnd: int, yStart: int, yEnd: int, paragraphIndex: int)

  /** The range check used by the first-match hit tests: all four bounds are inclusive. */
  predicate Contains(r: Rect, x: int, y: int) {
    r.xStart <= x <= r.xEnd && r.yStart <= y <= r.yEnd
  }

  /**
   * The position of the first rectangle of `m` that contains the point, if
   * there is one (a linear first-match search).
   */
  function FirstContaining(m: seq<Rect>, x: int, y: int): (r: Option<nat>)
    ensures r.Some? ==> r.value < |m| && Contains(m[r.value], x, y)
    ensures r.Some? ==> forall j :: 0 <= j < r.value ==> !Contains(m[j], x, y)
    ensures r.None? <==> forall j :: 0 <= j < |m| ==> !Contains(m[j], x, y)
  {
    if m == [] then None
    else if Contains(m[0], x, y) then Some(0)
    else
      match FirstContaining(m[1..], x, y)
      case None => None
      case Some(k) => Some(k + 1)
  }

  // ---------------------------------------------------------------------
  // The paragraph hit test
  // ---------------------------------------------------------------------

  /**
   * The running state of the paragraph scan: the paragraph of the last
   * rectangle passed, and the band (bottom edge, left and right edges) of
   * the row that rectangle belongs to.
   */
  datatype Band = Band(paragraph: int, yBottom: int, xLeft: int, xRight: int)

  /** The state before any rectangle is passed; the left edge lies beyond the context. */
  function InitialBand(contextWidth: int): Band {
    Band(-1, -1, contextWidth + 1, -1)
  }

  /**
   * The scan passes `r` without deciding when `r` lies fully above the
   * point, or on the point's row fully to its left.
   */
  predicate Passes(r: Rect, x: int, y: int) {
    r.yEnd < y || (r.yStart <= y && r.xEnd < x)
  }

  /** How passing `r` updates the running band: a new row starts when `r`'s top is below the band's bottom. */
  function Skip(b: Band, r: Rect): Band {
    if r.yStart > b.yBottom then Band(r.paragraphIndex, r.yEnd, r.xStart, r.xEnd)
    else b.(paragraph := r.paragraphIndex, xRight := r.xEnd)
  }

  /** The band after passing every rectangle of `s` in order. */
  function BandAfter(s: seq<Rect>, b: Band): Band
    decreases |s|
  {
    if s == [] then b else BandAfter(s[1..], Skip(b, s[0]))
  }

  /**
   * The scan over the rest `m` of the map from band `b`: the five branches of
   * the hit test, in the order the area tries them.
   */
  function Scan(m: seq<Rect>, x: int, y: int, b: Band): int
    decreases |m|
  {
    if m == [] then -1
    else
      var r := m[0];
      if r.yEnd < y then Scan(m[1..], x, y, Skip(b, r))
      else if r.yStart > y then
        (if b.paragraph == r.paragraphIndex && b.xLeft <= x && x <= b.xRight then b.paragraph else -1)
      else if r.xEnd < x then Scan(m[1..], x, y, Skip(b, r))
      else if r.xStart > x then
        (if b.paragraph == r.paragraphIndex && r.yStart <= b.yBottom && b.xLeft < x then b.paragraph else -1)
      else r.paragraphIndex
  }

  /** The paragraph at area-local point (x, y) of element map `m`, or -1. */
  function ParagraphIndexAt(m: seq<Rect>, x: int, y: int, contextWidth: int): int {
    Scan(m, x, y, InitialBand(contextWidth))
  }

  /** A prefix of rectangles that the scan passes only updates the band. */
  lemma {:induction false} ScanPassesPrefix(m: seq<Rect>, x: int, y: int, b: Band, k: nat)
    requires k <= |m|
    requires forall j :: 0 <= j < k ==> Passes(m[j], x, y)
    ensures Scan(m, x, y, b) == Scan(m[k..], x, y, BandAfter(m[..k], b))
  {
    if k > 0 {
      assert Passes(m[0], x, y);
      ScanPassesPrefix(m[1..], x, y, Skip(b, m[0]), k - 1);
      assert m[1..][k - 1..] == m[k..];
      assert m[..k][1..] == m[1..][..k - 1];
    }
  }

  /** When the scan passes every rectangle (an empty map included), the result is -1. */
  lemma {:induction false} ScanAllPassed(m: seq<Rect>, x: int, y: int, b: Band)
    requires forall j :: 0 <= j < |m| ==> Passes(m[j], x, y)
    ensures Scan(m, x, y, b) == -1
  {
    if m != [] {
      assert Passes(m[0], x, y);
      ScanAllPassed(m[1..], x, y, Skip(b, m[0]));
    }
  }

  /** A point below every rectangle (or any point of an empty map) hits no paragraph. */
  lemma BelowAllContent(m: seq<Rect>, x: int, y: int, contextWidth: int)
    requires forall j :: 0 <= j < |m| ==> m[j].yEnd < y
    ensures ParagraphIndexAt(m, x, y, contextWidth) == -1
  {
    ScanAllPassed(m, x, y, InitialBand(contextWidth));
  }

  /** The result of a scan is -1 or the paragraph of some rectangle of the map. */
  lemma {:induction false} ScanResultInMap(m: seq<Rect>, x: int, y: int, b: Band)
    ensures var p := Scan(m, x, y, b);
      p == -1 || exists j :: 0 <= j < |m| && m[j].paragraphIndex == p
  {
    if m != [] {
      var r := m[0];
      if r.yEnd < y || (r.yStart <= y && r.xEnd < x) {
        var p := Scan(m[1..], x, y, Skip(b, r));
        ScanResultInMap(m[1..], x, y, Skip(b, r));
        if p != -1 {
          var j :| 0 <= j < |m[1..]| && m[1..][j].paragraphIndex == p;
          assert m[j + 1].paragraphIndex == p;
        }
      } else {
        assert m[0].paragraphIndex == r.paragraphIndex;
      }
    }
  }

  /** The hit test's result is -1 or the paragraph of some rectangle of the element map. */
  lemma ParagraphIndexInMap(m: seq<Rect>, x: int, y: int, contextWidth: int)
    ensures var p := ParagraphIndexAt(m, x, y, contextWidth);
      p == -1 || exists j :: 0 <= j < |m| && m[j].paragraphIndex == p
  {
    ScanResultInMap(m, x, y, InitialBand(contextWidth));
  }

  /**
   * If the first rectangle the scan does not pass contains the point, the
   * result is that rectangle's paragraph.
   */
  lemma FirstCandidateContains(m: seq<Rect>, x: int, y: int, b: Band, k: nat)
    requires k < |m|
    requires forall j :: 0 <= j < k ==> Passes(m[j], x, y)
    requires Contains(m[k], x, y)
    ensures Scan(m, x, y, b) == m[k].paragraphIndex
  {
    ScanPassesPrefix(m, x, y, b, k);
  }

  /**
   * Row-passed branch: the first rectangle not passed starts below the point.
   * The running paragraph wins only if it is that rectangle's paragraph and
   * x lies in the band, both edges inclusive.
   */
  lemma RowPassedRule(m: seq<Rect>, x: int, y: int, b: Band, k: nat)
    requires k < |m|
    requires forall j :: 0 <= j < k ==> Passes(m[j], x, y)
    requires m[k].yEnd >= y && m[k].yStart > y
    ensures var nb := BandAfter(m[..k], b);
      Scan(m, x, y, b) ==
        if nb.paragraph == m[k].paragraphIndex && nb.xLeft <= x <= nb.xRight then nb.paragraph else -1
  {
    ScanPassesPrefix(m, x, y, b, k);
  }

  /**
   * Right-of-point branch: the first rectangle not passed is on the point's
   * row and starts right of it. The running paragraph wins only if it is that
   * rectangle's paragraph, that rectangle starts within the band's row, and
   * x is strictly right of the band's left edge.
   */
  lemma RightOfPointRule(m: seq<Rect>, x: int, y: int, b: Band, k: nat)
    requires k < |m|
    requires forall j :: 0 <= j < k ==> Passes(m[j], x, y)
    requires m[k].yStart <= y <= m[k].yEnd && m[k].xEnd >= x && m[k].xStart > x
    ensures var nb := BandAfter(m[..k], b);
      Scan(m, x, y, b) ==
        if nb.paragraph == m[k].paragraphIndex && m[k].yStart <= nb.yBottom && nb.xLeft < x then nb.paragraph else -1
  {
    ScanPassesPrefix(m, x, y, b, k);
  }

  lemma {:induction false} BandAfterAppend(s: seq<Rect>, r: Rect, b: Band)
    ensures BandAfter(s + [r], b) == Skip(BandAfter(s, b), r)
    decreases |s|
  {
    if s != [] {
      assert (s + [r])[1..] == s[1..] + [r];
      BandAfterAppend(s[1..], r, Skip(b, s[0]));
    }
  }

  /**
   * Passing one more rectangle always takes its paragraph and its right edge;
   * it resets the band's bottom and left edge only when the rectangle's top is
   * below the band's bottom.
   */
  lemma RunningBandUpdate(s: seq<Rect>, r: Rect, b: Band)
    ensures var p := BandAfter(s, b);
      var q := BandAfter(s + [r], b);
      q.paragraph == r.paragraphIndex && q.xRight == r.xEnd &&
      (if r.yStart > p.yBottom then q.yBottom == r.yEnd && q.xLeft == r.xStart
       else q.yBottom == p.yBottom && q.xLeft == p.xLeft)
  {
    BandAfterAppend(s, r, b);
  }

  /**
   * When the scan's first candidate contains the point, the paragraph hit
   * test and the first-match element search agree on that rectangle.
   */
  lemma HitTestsAgree(m: seq<Rect>, x: int, y: int, contextWidth: int, k: nat)
    requires k < |m|
    requires forall j :: 0 <= j < k ==> Passes(m[j], x, y)
    requires Contains(m[k], x, y)
    ensures FirstContaining(m, x, y) == Some(k)
    ensures ParagraphIndexAt(m, x, y, contextWidth) == m[k].paragraphIndex
  {
    FirstCandidateContains(m, x, y, InitialBand(contextWidth), k);
  }

  // ---------------------------------------------------------------------
  // Worked scenarios
  // ---------------------------------------------------------------------

  /** Three lines: paragraph 0 spans the first two, paragraph 1 the third. */
  function ThreeLines(): seq<Rect> {
    [Rect(0, 100, 0, 10, 0), Rect(0, 80, 12, 22, 0), Rect(0, 100, 24, 34, 1)]
  }

  /**
   * Inside a line the paragraph is found; in the gap between two lines of one
   * paragraph that paragraph is found; in the gap between two paragraphs and
   * below all content the result is -1.
   */
  lemma ThreeLineScenario(contextWidth: int)
    ensures ParagraphIndexAt(ThreeLines(), 40, 15, contextWidth) == 0
    ensures ParagraphIndexAt(ThreeLines(), 40, 11, contextWidth) == 0
    ensures ParagraphIndexAt(ThreeLines(), 40, 23, contextWidth) == -1
    ensures ParagraphIndexAt(ThreeLines(), 40, 40, contextWidth) == -1
  {
  }

  /**
   * The two gap rules disagree at the band's left edge: with the same band
   * (paragraph 5, bottom 10, left edge 10) and x == 10, the row-passed rule
   * answers 5 and the right-of-point rule answers -1.
   */
  lemma GapRulesDiffer(contextWidth: int)
    ensures ParagraphIndexAt([Rect(10, 20, 0, 10, 5), Rect(30, 40, 12, 15, 5)], 10, 11, contextWidth) == 5
    ensures ParagraphIndexAt([Rect(10, 20, 0, 10, 5), Rect(30, 40, 5, 15, 5)], 10, 11, contextWidth) == -1
  {
  }

  /**
   * A point inside a rectangle can be decided by an earlier rectangle that
   * starts below the point. In the first map that earlier rectangle's row
   * rule gives -1 although the point lies inside the tall second element; in
   * the second map it gives paragraph 0, which happens to be the paragraph of
   * the containing third rectangle.
   */
  lemma EarlierRectangleDecides(contextWidth: int)
    ensures Contains(Rect(20, 30, 0, 10, 0), 25, 5)
    ensures ParagraphIndexAt([Rect(0, 10, 8, 10, 0), Rect(20, 30, 0, 10, 0)], 25, 5, contextWidth) == -1
    ensures Contains(Rect(20, 30, 20, 30, 0), 25, 25)
    ensures ParagraphIndexAt([Rect(0, 40, 2, 10, 0), Rect(0, 10, 28, 30, 0), Rect(20, 30, 20, 30, 0)], 25, 25, contextWidth) == 0
  {
  }
}
