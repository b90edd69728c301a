/**
 * The text area: it holds the current model, the line infos of the viewport,
 * the element and tree-node maps of the last paint, and a lazily created
 * selection model; it paints the lines in two passes and answers hit tests.
 */
module Area {
  import opened Wrappers
  import opened Geometry
  import opened Layout

  /** The attributes of a text model that the area reads. */
  datatype TextModel = TextModel(paragraphsNumber: nat, isRtl: bool)

  /** A paragraph cursor handed out by the cursor cache: a model and a paragraph of it. */
  datatype ParagraphCursor = ParagraphCursor(model: TextModel, paragraph: nat)

  /** A horizontal span [lo, hi]. */
  datatype Span = Span(lo: int, hi: int)

  /**
   * The horizontal span of a selection rectangle once it is cut to an area of
   * the given width, or None when too little of it is left to fill.
   */
  function ClipToWidth(left: int, right: int, width: int): (r: Option<Span>)
    ensures r.None? <==> (left >= right || right <= 0 || left >= width - 1 || width <= 1)
    ensures r.Some? ==> 0 <= r.value.lo < r.value.hi <= width - 1
    ensures r.Some? ==> left <= r.value.lo && r.value.hi <= right
    ensures r.Some? ==> (r.value.lo == left || r.value.lo == 0) && (r.value.hi == right || r.value.hi == width - 1)
  {
    var lo := if left < 0 then 0 else left;
    var hi := if right < width - 1 then right else width - 1;
    if lo < hi then Some(Span(lo, hi)) else None
  }

  /** The selection model: only whether a range is selected is kept. */
  class Selection {
    var empty: bool

    constructor ()
      ensures empty
    {
      empty := true;
    }

    method Clear()
      modifies this
      ensures empty
    {
      empty := true;
    }

    /** Recomputes the selection from the current element map; its effect on the range is not modelled. */
    method Update()
      modifies this
    {
      empty := *;
    }
  }

  class TextArea {
    /** The width of the paint context, read by the paragraph hit test. */
    const contextWidth: int
    /** The mirrored context's horizontal coordinate map. */
    const mirroredX: int -> int

    var hOffset: int
    var vOffset: int
    var width: nat
    var height: nat

    /** The style colour of the selection background and whether selection is enabled. */
    var selectionBackground: int
    var selectionEnabled: bool

    var model: Option<TextModel>
    /** Whether a mirroring adapter is installed over the paint context. */
    var mirrored: bool
    var startCursor: Option<ParagraphCursor>
    var endCursor: Option<ParagraphCursor>

    var lines: seq<LineInfo>
    var textMap: seq<Rect>
    var treeMap: seq<Rect>
    var selection: Selection?

    /** Every call made on the paint context and on the line drawing step so far. */
    ghost var calls: seq<PaintCall>

    constructor (contextWidth: nat, contextHeight: nat, mirroredX: int -> int,
                 selectionBackground: int, selectionEnabled: bool)
      ensures this.contextWidth == contextWidth && this.mirroredX == mirroredX
      ensures hOffset == 0 && vOffset == 0 && width == contextWidth && height == contextHeight
      ensures this.selectionBackground == selectionBackground && this.selectionEnabled == selectionEnabled
      ensures model == None && !mirrored && startCursor == None && endCursor == None
      ensures lines == [] && textMap == [] && treeMap == [] && selection == null && calls == []
    {
      this.contextWidth := contextWidth;
      this.mirroredX := mirroredX;
      hOffset, vOffset := 0, 0;
      width, height := contextWidth, contextHeight;
      this.selectionBackground := selectionBackground;
      this.selectionEnabled := selectionEnabled;
      model, mirrored := None, false;
      startCursor, endCursor := None, None;
      lines, textMap, treeMap := [], [], [];
      selection := null;
      calls := [];
    }

    /** A horizontal coordinate as the paint surface sees it: mirrored when a mirror is installed. */
    function RealX(x: int): (r: int)
      reads this
      ensures !mirrored ==> r == x
      ensures mirrored ==> r == mirroredX(x)
    {
      if mirrored then mirroredX(x) else x
    }

    /** Drops the cursors, the lines and both maps, and clears a selection that exists. */
    method Clear()
      modifies this`startCursor, this`endCursor, this`lines, this`textMap, this`treeMap, selection
      ensures startCursor == None && endCursor == None
      ensures lines == [] && textMap == [] && treeMap == []
      ensures selection != null ==> selection.empty
      ensures selection == old(selection) && SelectionIsEmpty()
    {
      startCursor := None;
      endCursor := None;
      lines := [];
      textMap := [];
      treeMap := [];
      ClearSelection();
    }

    /**
     * Installs a model. An absent or empty model leaves the area without a
     * model and keeps the mirror as it was; otherwise the mirror follows the
     * model's direction and the start cursor is the model's first paragraph.
     */
    method SetModel(m: Option<TextModel>)
      modifies this`model, this`mirrored, this`startCursor, this`endCursor,
        this`lines, this`textMap, this`treeMap, selection
      ensures lines == [] && textMap == [] && treeMap == [] && endCursor == None
      ensures selection != null ==> selection.empty
      ensures (m.None? || m.value.paragraphsNumber == 0) ==>
        model == None && startCursor == None && mirrored == old(mirrored)
      ensures (m.Some? && m.value.paragraphsNumber > 0) ==>
        model == m && mirrored == m.value.isRtl && startCursor == Some(ParagraphCursor(m.value, 0))
      ensures (m.Some? && m.value.paragraphsNumber > 0 && !m.value.isRtl) ==> forall x :: RealX(x) == x
      ensures selection == old(selection)
    {
      Clear();
      if m.None? || m.value.paragraphsNumber == 0 {
        model := None;
        return;
      }
      model := m;
      if m.value.isRtl {
        mirrored := true;
      } else {
        mirrored := false;
      }
      startCursor := Some(ParagraphCursor(m.value, 0));
      endCursor := None;
    }

    function SelectionIsEmpty(): (r: bool)
      reads this, selection
      ensures selection == null ==> r
      ensures selection != null ==> r == selection.empty
    {
      selection == null || selection.empty
    }

    method ClearSelection()
      modifies selection
      ensures selection != null ==> selection.empty
    {
      if selection != null {
        selection.Clear();
      }
    }

    /** The selection model, created on first use and the same object afterwards. */
    method SelectionModel() returns (s: Selection)
      modifies this`selection
      ensures selection == s
      ensures old(selection) != null ==> s == old(selection)
      ensures old(selection) == null ==> fresh(s) && s.empty
    {
      if selection == null {
        selection := new Selection();
      }
      s := selection;
    }

    function LocalX(x: int, absolute: bool): int
      reads this
    {
      if absolute then x - hOffset else x
    }

    function LocalY(y: int, absolute: bool): int
      reads this
    {
      if absolute then y - vOffset else y
    }

    /** The paragraph hit test: a single scan over the element map. */
    method ParagraphIndexByCoordinates(x0: int, y0: int, absolute: bool) returns (p: int)
      ensures p == ParagraphIndexAt(textMap, LocalX(x0, absolute), LocalY(y0, absolute), contextWidth)
    {
      var x, y := x0, y0;
      if absolute {
        x := x - hOffset;
        y := y - vOffset;
      }
      ghost var m := textMap;
      var paragraphIndex := -1;
      var yBottom := -1;
      var xLeft := contextWidth + 1;
      var xRight := -1;
      var i := 0;
      while i < |textMap|
        invariant 0 <= i <= |m|
        invariant ParagraphIndexAt(m, x, y, contextWidth)
          == Scan(m[i..], x, y, Band(paragraphIndex, yBottom, xLeft, xRight))
      {
        var r := textMap[i];
        assert m[i..][1..] == m[i + 1..];
        if r.yEnd < y {
          paragraphIndex := r.paragraphIndex;
          if r.yStart > yBottom {
            yBottom := r.yEnd;
            xLeft := r.xStart;
            xRight := -1;
          }
          xRight := r.xEnd;
          i := i + 1;
          continue;
        }
        if r.yStart > y {
          p := if paragraphIndex == r.paragraphIndex && xLeft <= x && x <= xRight
               then paragraphIndex else -1;
          return;
        }
        if r.xEnd < x {
          paragraphIndex := r.paragraphIndex;
          if r.yStart > yBottom {
            yBottom := r.yEnd;
            xLeft := r.xStart;
            xRight := -1;
          }
          xRight := r.xEnd;
          i := i + 1;
          continue;
        }
        if r.xStart > x {
          p := if paragraphIndex == r.paragraphIndex && r.yStart <= yBottom && xLeft < x
               then paragraphIndex else -1;
          return;
        }
        return r.paragraphIndex;
      }
      return -1;
    }

    /** The position in the element map of the first rectangle containing the point. */
    function ElementByCoordinates(x: int, y: int, absolute: bool): (r: Option<nat>)
      reads this
      ensures r.Some? ==> r.value < |textMap| && Contains(textMap[r.value], LocalX(x, absolute), LocalY(y, absolute))
      ensures r.Some? ==> forall j :: 0 <= j < r.value ==> !Contains(textMap[j], LocalX(x, absolute), LocalY(y, absolute))
      ensures r.None? <==> forall j :: 0 <= j < |textMap| ==> !Contains(textMap[j], LocalX(x, absolute), LocalY(y, absolute))
    {
      FirstContaining(textMap, LocalX(x, absolute), LocalY(y, absolute))
    }

    /** The position in the tree-node map of the first rectangle containing the point. */
    function TreeNodeByCoordinates(x: int, y: int, absolute: bool): (r: Option<nat>)
      reads this
      ensures r.Some? ==> r.value < |treeMap| && Contains(treeMap[r.value], LocalX(x, absolute), LocalY(y, absolute))
      ensures r.Some? ==> forall j :: 0 <= j < r.value ==> !Contains(treeMap[j], LocalX(x, absolute), LocalY(y, absolute))
      ensures r.None? <==> forall j :: 0 <= j < |treeMap| ==> !Contains(treeMap[j], LocalX(x, absolute), LocalY(y, absolute))
    {
      FirstContaining(treeMap, LocalX(x, absolute), LocalY(y, absolute))
    }

    /** Absolute coordinates are area-local ones shifted by the area's offsets, for all three hit tests. */
    lemma AbsoluteCoordinates(x: int, y: int)
      ensures ElementByCoordinates(x, y, true) == ElementByCoordinates(x - hOffset, y - vOffset, false)
      ensures TreeNodeByCoordinates(x, y, true) == TreeNodeByCoordinates(x - hOffset, y - vOffset, false)
      ensures ParagraphIndexAt(textMap, LocalX(x, true), LocalY(y, true), contextWidth)
        == ParagraphIndexAt(textMap, LocalX(x - hOffset, false), LocalY(y - vOffset, false), contextWidth)
    {
    }

    /** Fills the selection background over the rectangle, cut to the area's width. */
    method DrawSelectionRectangle(left0: int, top: int, right0: int, bottom: int)
      modifies this`calls
      ensures var span := ClipToWidth(left0, right0, width);
        calls == old(calls) +
          if span.None? then []
          else [SetFillColor(selectionBackground),
                FillRectangle(hOffset + span.value.lo, vOffset + top, hOffset + span.value.hi, vOffset + bottom)]
    {
      var left := if left0 > 0 then left0 else 0;
      var right := if right0 < width - 1 then right0 else width - 1;
      if left < right {
        calls := calls + [SetFillColor(selectionBackground)];
        calls := calls + [FillRectangle(hOffset + left, vOffset + top, hOffset + right, vOffset + bottom)];
      }
    }

    /** The line preparation step: it appends the line's rectangles to the maps. */
    method PrepareTextLine(prepare: (LineInfo, int) -> LineRects, info: LineInfo, y: int)
      modifies this`textMap, this`treeMap
      ensures textMap == old(textMap) + prepare(info, y).texts
      ensures treeMap == old(treeMap) + prepare(info, y).trees
    {
      var produced := prepare(info, y);
      textMap := textMap + produced.texts;
      treeMap := treeMap + produced.trees;
    }

    /** The line drawing step: only its call is recorded. */
    method DrawTextLine(info: LineInfo, y: int, from: nat, to: nat)
      modifies this`calls
      ensures calls == old(calls) + [DrawLine(info, y, from, to)]
    {
      calls := calls + [DrawLine(info, y, from, to)];
    }

    /**
     * Paints the lines in two passes: the first rebuilds both maps and the
     * labels, then the selection is cleared or updated from the new element
     * map, and the second draws each line with its own slice of the map.
     */
    method Paint(prepare: (LineInfo, int) -> LineRects) returns (size: Size)
      modifies this`textMap, this`treeMap, this`calls, selection
      ensures textMap == Texts(lines, prepare) && treeMap == Trees(lines, prepare)
      ensures selection != null && !selectionEnabled ==> selection.empty
      ensures calls == old(calls)
        + (if selection != null && selectionEnabled then [UpdateSelection(textMap)] else [])
        + Draws(lines, prepare)
      ensures size == Size(PaintWidth(lines), PaintHeight(lines))
    {
      var labels := PrepareLines(prepare);
      if selection != null {
        if !selectionEnabled {
          selection.Clear();
        } else {
          selection.Update();
          calls := calls + [UpdateSelection(textMap)];
        }
      }
      size := DrawLines(prepare, labels);
    }

    /** The first pass of Paint: both maps rebuilt line by line, and the labels. */
    method PrepareLines(prepare: (LineInfo, int) -> LineRects) returns (labels: seq<nat>)
      modifies this`textMap, this`treeMap
      ensures textMap == Texts(lines, prepare) && treeMap == Trees(lines, prepare)
      ensures labels == Labels(lines, prepare)
    {
      textMap := [];
      treeMap := [];
      labels := [0];
      var y := 0;
      var i := 0;
      while i < |lines|
        invariant 0 <= i <= |lines|
        invariant textMap == Texts(lines[..i], prepare) && treeMap == Trees(lines[..i], prepare)
        invariant labels == Labels(lines[..i], prepare)
        invariant y == Top(lines[..i])
      {
        assert lines[..i + 1][..i] == lines[..i];
        PrepareTextLine(prepare, lines[i], y);
        y := y + lines[i].height + lines[i].descent + lines[i].vSpaceAfter;
        labels := labels + [|textMap|];
        i := i + 1;
      }
      assert lines[..i] == lines;
    }

    /** The second pass of Paint: each line drawn with its label slice, and the painted size. */
    method DrawLines(prepare: (LineInfo, int) -> LineRects, labels: seq<nat>) returns (size: Size)
      requires labels == Labels(lines, prepare)
      modifies this`calls
      ensures calls == old(calls) + Draws(lines, prepare)
      ensures size == Size(PaintWidth(lines), PaintHeight(lines))
    {
      var y := 0;
      var index, w, lastSpaceAfter := 0, 0, 0;
      while index < |lines|
        invariant 0 <= index <= |lines|
        invariant y == Top(lines[..index])
        invariant w == PaintWidth(lines[..index])
        invariant lastSpaceAfter == if index == 0 then 0 else lines[index - 1].vSpaceAfter
        invariant calls == old(calls) + Draws(lines[..index], prepare)
      {
        var info := lines[index];
        assert lines[..index + 1][..index] == lines[..index];
        LabelsOfPrefix(lines, prepare, index + 1);
        DrawTextLine(info, y, labels[index], labels[index + 1]);
        y := y + info.height + info.descent + info.vSpaceAfter;
        lastSpaceAfter := info.vSpaceAfter;
        w := if w < info.startIndent + info.width then info.startIndent + info.width else w;
        index := index + 1;
      }
      assert lines[..index] == lines;
      size := Size(w, y - lastSpaceAfter);
    }

    /** Whether some line of the viewport is visible. */
    method IsVisible() returns (v: bool)
      ensures v <==> exists i :: 0 <= i < |lines| && lines[i].isVisible
    {
      var i := 0;
      while i < |lines|
        invariant 0 <= i <= |lines|
        invariant forall j :: 0 <= j < i ==> !lines[j].isVisible
      {
        if lines[i].isVisible {
          return true;
        }
        i := i + 1;
      }
      return false;
    }
  }

  /** A client: clearing a cleared area leaves it as it was. */
  method ClearTwice(area: TextArea)
    modifies area, area.selection
  {
    area.Clear();
    ghost var cleared := (area.model, area.mirrored, area.startCursor, area.endCursor,
                          area.lines, area.textMap, area.treeMap, area.selection);
    area.Clear();
    assert cleared == (area.model, area.mirrored, area.startCursor, area.endCursor,
                       area.lines, area.textMap, area.treeMap, area.selection);
    assert area.SelectionIsEmpty();
  }

  /** A client: painting twice with nothing changed in between gives the same maps and size. */
  method PaintTwice(area: TextArea, prepare: (LineInfo, int) -> LineRects)
    modifies area, area.selection
  {
    var first := area.Paint(prepare);
    ghost var maps := (area.textMap, area.treeMap);
    var second := area.Paint(prepare);
    assert first == second;
    assert maps == (area.textMap, area.treeMap);
  }

  /** A client: the selection model is created once and then handed out unchanged. */
  method SelectionModelIsShared(area: TextArea)
    modifies area
  {
    var first := area.SelectionModel();
    var second := area.SelectionModel();
    assert first == second;
  }
}
