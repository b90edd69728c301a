/**
 * Lines of a text area and what one paint pass makes of them: the maps built
 * line by line, the labels that cut the element map into per-line slices,
 * the draw calls and the painted size.
 */
module Layout {
  import opened Geometry

  /** The metrics of one visual line, produced outside the area. */
  datatype LineInfo = LineInfo(
    height: int, descent: int, vSpaceAfter: int,
    startIndent: int, width: int, isVisible: bool)

  /** What preparing one line appends to the element map and to the tree-node map. */
  datatype LineRects = LineRects(texts: seq<Rect>, trees: seq<Rect>)

  datatype Size = Size(width: int, height: int)

  /** The calls a text area makes on its paint context and its collaborators, in order. */
  datatype PaintCall =
    | SetFillColor(color: int)
    | FillRectangle(x0: int, y0: int, x1: int, y1: int)
    | UpdateSelection(elements: seq<Rect>)
    | DrawLine(info: LineInfo, y: int, from: nat, to: nat)

  /** How far a line moves the running vertical offset. */
  function Advance(info: LineInfo): int {
    info.height + info.descent + info.vSpaceAfter
  }

  /** The running vertical offset after `lines`: where the next line starts. */
  function Top(lines: seq<LineInfo>): int {
    if lines == [] then 0
    else Top(lines[..|lines| - 1]) + Advance(lines[|lines| - 1])
  }

  /** The element map after preparing every line of `lines`, each at its own offset. */
  function Texts(lines: seq<LineInfo>, prepare: (LineInfo, int) -> LineRects): seq<Rect> {
    if lines == [] then []
    else
      var init := lines[..|lines| - 1];
      Texts(init, prepare) + prepare(lines[|lines| - 1], Top(init)).texts
  }

  /** The tree-node map after preparing every line of `lines`. */
  function Trees(lines: seq<LineInfo>, prepare: (LineInfo, int) -> LineRects): seq<Rect> {
    if lines == [] then []
    else
      var init := lines[..|lines| - 1];
      Trees(init, prepare) + prepare(lines[|lines| - 1], Top(init)).trees
  }

  /**
   * The labels of the first pass: 0, then the element-map size after each
   * line was prepared.
   */
  function Labels(lines: seq<LineInfo>, prepare: (LineInfo, int) -> LineRects): (labels: seq<nat>)
    ensures |labels| == |lines| + 1
  {
    if lines == [] then [0]
    else Labels(lines[..|lines| - 1], prepare) + [|Texts(lines, prepare)|]
  }

  /** The draw calls of the second pass: one per line, with its offset and its label slice. */
  function Draws(lines: seq<LineInfo>, prepare: (LineInfo, int) -> LineRects): seq<PaintCall> {
    if lines == [] then []
    else
      var n := |lines|;
      var init := lines[..n - 1];
      var labels := Labels(lines, prepare);
      Draws(init, prepare) + [DrawLine(lines[n - 1], Top(init), labels[n - 1], labels[n])]
  }

  /** The painted width: the widest line's indent plus width, and never below 0. */
  function PaintWidth(lines: seq<LineInfo>): int {
    if lines == [] then 0
    else
      var last := lines[|lines| - 1];
      var w := PaintWidth(lines[..|lines| - 1]);
      if w < last.startIndent + last.width then last.startIndent + last.width else w
  }

  /** The painted height: every line's advance, less the space after the last line. */
  function PaintHeight(lines: seq<LineInfo>): int {
    if lines == [] then 0 else Top(lines) - lines[|lines| - 1].vSpaceAfter
  }

  // ---------------------------------------------------------------------
  // Lemmas
  // ---------------------------------------------------------------------

  /** Preparing more lines only appends to the element and tree-node maps. */
  lemma {:induction false} MapsGrowByPrefix(lines: seq<LineInfo>, prepare: (LineInfo, int) -> LineRects, k: nat)
    requires k <= |lines|
    ensures Texts(lines[..k], prepare) <= Texts(lines, prepare)
    ensures Trees(lines[..k], prepare) <= Trees(lines, prepare)
    decreases |lines|
  {
    if k < |lines| {
      var init := lines[..|lines| - 1];
      assert lines[..k] == init[..k];
      MapsGrowByPrefix(init, prepare, k);
    } else {
      assert lines[..k] == lines;
    }
  }

  /** The labels of a prefix of the lines are a prefix of the labels. */
  lemma {:induction false} LabelsOfPrefix(lines: seq<LineInfo>, prepare: (LineInfo, int) -> LineRects, k: nat)
    requires k <= |lines|
    ensures Labels(lines[..k], prepare) == Labels(lines, prepare)[..k + 1]
    decreases |lines|
  {
    if k < |lines| {
      var init := lines[..|lines| - 1];
      assert lines[..k] == init[..k];
      LabelsOfPrefix(init, prepare, k);
    } else {
      assert lines[..k] == lines;
    }
  }

  /** Label i is the element-map size once the first i lines are prepared. */
  lemma {:induction false} LabelAt(lines: seq<LineInfo>, prepare: (LineInfo, int) -> LineRects, i: nat)
    requires i <= |lines|
    ensures Labels(lines, prepare)[i] == |Texts(lines[..i], prepare)|
    decreases |lines|
  {
    if i < |lines| {
      var init := lines[..|lines| - 1];
      assert lines[..i] == init[..i];
      LabelAt(init, prepare, i);
    } else {
      assert lines[..i] == lines;
      if lines == [] {
        assert Labels(lines, prepare) == [0];
      }
    }
  }

  /**
   * The labels start at 0, do not decrease, and end at the size of the final
   * element map.
   */
  lemma {:induction false} LabelsShape(lines: seq<LineInfo>, prepare: (LineInfo, int) -> LineRects)
    ensures Labels(lines, prepare)[0] == 0
    ensures Labels(lines, prepare)[|lines|] == |Texts(lines, prepare)|
    ensures forall i, j :: 0 <= i <= j <= |lines| ==> Labels(lines, prepare)[i] <= Labels(lines, prepare)[j]
  {
    LabelAt(lines, prepare, 0);
    LabelAt(lines, prepare, |lines|);
    assert lines[..|lines|] == lines;
    forall i, j | 0 <= i <= j <= |lines|
      ensures Labels(lines, prepare)[i] <= Labels(lines, prepare)[j]
    {
      LabelAt(lines, prepare, i);
      LabelAt(lines, prepare, j);
      assert lines[..j][..i] == lines[..i];
      MapsGrowByPrefix(lines[..j], prepare, i);
    }
  }

  /**
   * The slice of the element map between labels i and i + 1 is exactly what
   * preparing line i appended.
   */
  lemma LineSlice(lines: seq<LineInfo>, prepare: (LineInfo, int) -> LineRects, i: nat)
    requires i < |lines|
    ensures var labels := Labels(lines, prepare);
      labels[i] <= labels[i + 1] <= |Texts(lines, prepare)| &&
      Texts(lines, prepare)[labels[i]..labels[i + 1]] == prepare(lines[i], Top(lines[..i])).texts
  {
    var labels := Labels(lines, prepare);
    LabelAt(lines, prepare, i);
    LabelAt(lines, prepare, i + 1);
    MapsGrowByPrefix(lines, prepare, i + 1);
    var before := Texts(lines[..i], prepare);
    var upTo := Texts(lines[..i + 1], prepare);
    assert lines[..i + 1][..i] == lines[..i];
    assert upTo == before + prepare(lines[i], Top(lines[..i])).texts;
    assert Texts(lines, prepare)[labels[i]..labels[i + 1]] == upTo[|before|..];
  }

  /** Line i is drawn at its offset with its own label slice. */
  lemma {:induction false} DrawsAt(lines: seq<LineInfo>, prepare: (LineInfo, int) -> LineRects, i: nat)
    requires i < |lines|
    ensures |Draws(lines, prepare)| == |lines|
    ensures var labels := Labels(lines, prepare);
      Draws(lines, prepare)[i] == DrawLine(lines[i], Top(lines[..i]), labels[i], labels[i + 1])
    decreases |lines|
  {
    var n := |lines|;
    var init := lines[..n - 1];
    LabelsOfPrefix(lines, prepare, n - 1);
    if i < n - 1 {
      assert init[..i] == lines[..i];
      DrawsAt(init, prepare, i);
    } else if n > 1 {
      DrawsAt(init, prepare, 0);
    }
  }

  /** The painted width bounds every line and is 0 or the extent of some line. */
  lemma {:induction false} PaintWidthIsMaximum(lines: seq<LineInfo>)
    ensures PaintWidth(lines) >= 0
    ensures forall i :: 0 <= i < |lines| ==> lines[i].startIndent + lines[i].width <= PaintWidth(lines)
    ensures PaintWidth(lines) == 0 ||
      exists i :: 0 <= i < |lines| && PaintWidth(lines) == lines[i].startIndent + lines[i].width
    decreases |lines|
  {
    if lines != [] {
      var init := lines[..|lines| - 1];
      PaintWidthIsMaximum(init);
      assert forall i :: 0 <= i < |init| ==> init[i] == lines[i];
      if PaintWidth(lines) != 0 && PaintWidth(lines) == PaintWidth(init) {
        var i :| 0 <= i < |init| && PaintWidth(init) == init[i].startIndent + init[i].width;
        assert lines[i] == init[i];
      }
    }
  }

  /**
   * The painted height reaches the bottom of the last line's descent: the
   * offset of the last line plus its height and descent.
   */
  lemma {:induction false} PaintHeightIsLastBottom(lines: seq<LineInfo>)
    requires lines != []
    ensures var n := |lines|;
      PaintHeight(lines) == Top(lines[..n - 1]) + lines[n - 1].height + lines[n - 1].descent
  {
  }
}
