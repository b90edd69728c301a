# ZLTextArea, modelled in Dafny

This project models the text area of the FBReader text library
(`ZLTextArea`): the component that holds the current text model and the line
infos of the viewport, paints those lines in two passes, builds the
text-element and tree-node rectangle maps during the first pass, and answers
the hit tests that map a pointer position back to a paragraph, an element
or a tree node.

Files:

- `wrappers.dfy` (module `Wrappers`): `Option`, standing for the nullable
  handles and pointers.
- `geometry.dfy` (module `Geometry`): rectangles, the inclusive range check,
  the first-match search behind `elementByCoordinates` and
  `treeNodeByCoordinates`, and the paragraph scan of
  `paragraphIndexByCoordinates` as a function `Scan` over the running band.
  The lemmas cover what the scan returns.
- `layout.dfy` (module `Layout`): line infos and what a paint pass makes of
  them, as functions of the lines and of the line-preparation step: the maps
  (`Texts`, `Trees`), the labels, the draw calls, and the painted width and
  height. The lemmas cover the labels, the per-line slices and the size.
- `area.dfy` (module `Area`): the class `TextArea`, whose methods follow the
  C++ member functions, and the class `Selection`, which keeps only whether
  a selection is empty. A ghost field `calls` records every fill-colour,
  fill-rectangle, selection-update and line-draw call in order.

Behaviour of the code that is easy to expect otherwise, and that the model
keeps:

- `clear()` does not drop the model reference, and it does not remove the
  mirror (`ZLTextArea.cpp:64-73`).
- `setModel` with an absent or empty model returns before the mirror is
  touched. A mirror installed for an earlier right-to-left model stays
  installed (`ZLTextArea.cpp:49-52`).
- A point in the vertical gap between the last line of one paragraph and
  the first line of the next gives -1, even when it lies within the upper
  line's band. The row-passed branch needs the running paragraph to equal
  the paragraph of the rectangle below the point. In a gap between two lines
  of the same paragraph, the paragraph is found when x also lies within the
  upper row's [xLeft, xRight]. `Geometry.ThreeLineScenario` proves both cases.
- The painted width starts from 0, so it is never negative
  (`ZLTextArea.cpp:205`).
- A point inside a rectangle hits that rectangle's paragraph whenever that
  rectangle is the first one the scan does not pass
  (`Geometry.FirstCandidateContains`). Otherwise an earlier rectangle
  decides, with -1 or with that earlier rectangle's paragraph. A point inside
  a tall element can therefore be missed (`Geometry.EarlierRectangleDecides`).

## Model

| member | source | states |
|---|---|---|
| `Geometry.FirstContaining` | fbreader/fbreader/zlibrary/text/src/area/ZLTextArea.cpp:141-143 | the result is the position of a rectangle that contains the point, and no earlier rectangle contains it; it is None exactly when no rectangle contains the point |
| `Geometry.InitialBand` | fbreader/fbreader/zlibrary/text/src/area/ZLTextArea.cpp:92-95 | the running state before the loop: paragraph -1, yBottom -1, xLeft one past the context width, xRight -1 |
| `Geometry.Passes` | fbreader/fbreader/zlibrary/text/src/area/ZLTextArea.cpp:98-114 | the two `continue` conditions of the loop: YEnd < y, or (not YStart > y and XEnd < x) |
| `Geometry.Skip` | fbreader/fbreader/zlibrary/text/src/area/ZLTextArea.cpp:98-106 | the band update written twice in the loop (again at lines 114-122); `RunningBandUpdate` states what it does |
| `Geometry.Scan` | fbreader/fbreader/zlibrary/text/src/area/ZLTextArea.cpp:97-132 | the loop of the hit test as recursion over the rest of the map, with its five branches in code order; `ParagraphIndexByCoordinates` is proved equal to it |
| `Geometry.ParagraphIndexAt` | fbreader/fbreader/zlibrary/text/src/area/ZLTextArea.cpp:92-132 | `Scan` from the initial band: the value the hit test computes for an area-local point |
| `Geometry.ScanPassesPrefix` | fbreader/fbreader/zlibrary/text/src/area/ZLTextArea.cpp:97-131 | rectangles that lie above the point, or on its row to its left, only update the running band: the scan continues from the band after them |
| `Geometry.ScanAllPassed` | fbreader/fbreader/zlibrary/text/src/area/ZLTextArea.cpp:97-132 | when every rectangle is passed (an empty map included), the scan returns -1 |
| `Geometry.BelowAllContent` | fbreader/fbreader/zlibrary/text/src/area/ZLTextArea.cpp:92-132 | when every rectangle's YEnd is above y, or the map is empty, the paragraph hit test returns -1 |
| `Geometry.ScanResultInMap` | fbreader/fbreader/zlibrary/text/src/area/ZLTextArea.cpp:97-132 | the scan returns -1 or the ParagraphIndex of some rectangle of the map, from any running band |
| `Geometry.ParagraphIndexInMap` | fbreader/fbreader/zlibrary/text/src/area/ZLTextArea.cpp:92-132 | the paragraph hit test returns -1 or the ParagraphIndex of some rectangle of the element map |
| `Geometry.FirstCandidateContains` | fbreader/fbreader/zlibrary/text/src/area/ZLTextArea.cpp:124-130 | if the first rectangle that is neither fully above nor fully left of the point contains it (inclusive bounds), the result is that rectangle's ParagraphIndex |
| `Geometry.RowPassedRule` | fbreader/fbreader/zlibrary/text/src/area/ZLTextArea.cpp:108-113 | when the first rectangle not passed starts below the point, the result is the running paragraph if it equals that rectangle's paragraph and xLeft <= x <= xRight, and -1 otherwise |
| `Geometry.RightOfPointRule` | fbreader/fbreader/zlibrary/text/src/area/ZLTextArea.cpp:124-129 | when the first rectangle not passed is on the point's row and starts right of it, the result is the running paragraph if it equals that rectangle's paragraph, YStart <= yBottom and xLeft < x (strict), and -1 otherwise |
| `Geometry.BandAfterAppend` | fbreader/fbreader/zlibrary/text/src/area/ZLTextArea.cpp:97-106 | passing one more rectangle applies one band update to the band left by the earlier ones |
| `Geometry.RunningBandUpdate` | fbreader/fbreader/zlibrary/text/src/area/ZLTextArea.cpp:98-106 | passing a rectangle always sets the running paragraph and xRight to its values; yBottom and xLeft become its YEnd and XStart only when its YStart > yBottom, and stay unchanged otherwise (same at lines 114-122) |
| `Geometry.HitTestsAgree` | fbreader/fbreader/zlibrary/text/src/area/ZLTextArea.cpp:86-144 | when the scan's first candidate contains the point, the element search returns that rectangle and the paragraph hit test returns its paragraph |
| `Geometry.ThreeLineScenario` | fbreader/fbreader/zlibrary/text/src/area/ZLTextArea.cpp:92-132 | for three lines of two paragraphs: a point inside a line, or in the gap between two lines of one paragraph, hits that paragraph; a point in the gap between the paragraphs, or below all lines, gives -1 |
| `Geometry.GapRulesDiffer` | fbreader/fbreader/zlibrary/text/src/area/ZLTextArea.cpp:108-129 | with the same band and x equal to the band's left edge, the row-passed branch returns the paragraph and the right-of-point branch returns -1 |
| `Geometry.EarlierRectangleDecides` | fbreader/fbreader/zlibrary/text/src/area/ZLTextArea.cpp:108-112 | a point inside a rectangle that an earlier, lower-starting rectangle decides gets that rectangle's row rule: -1 in one map, paragraph 0 in another |
| `Layout.Top` | fbreader/fbreader/zlibrary/text/src/area/ZLTextArea.cpp:188-192 | the running y of the first pass: the sum of Height+Descent+VSpaceAfter of the lines before; the second pass (204-209) recomputes the same values |
| `Layout.Texts` | fbreader/fbreader/zlibrary/text/src/area/ZLTextArea.cpp:179-194 | the element map after the first pass: emptied, then each line's prepared rectangles appended in line order at its running y |
| `Layout.Trees` | fbreader/fbreader/zlibrary/text/src/area/ZLTextArea.cpp:179-194 | the tree-node map after the first pass, built the same way |
| `Layout.Draws` | fbreader/fbreader/zlibrary/text/src/area/ZLTextArea.cpp:206-213 | the draw calls of the second pass, one per line in order; `DrawsAt` states each call's arguments |
| `Layout.PaintWidth` | fbreader/fbreader/zlibrary/text/src/area/ZLTextArea.cpp:205-216 | w of the second loop: starts at 0 and takes the max with each line's StartIndent+Width; `PaintWidthIsMaximum` states its meaning |
| `Layout.PaintHeight` | fbreader/fbreader/zlibrary/text/src/area/ZLTextArea.cpp:209-217 | y after the second loop less lastSpaceAfter, which is 0 without lines; `PaintHeightIsLastBottom` restates it per line |
| `Layout.Labels` | fbreader/fbreader/zlibrary/text/src/area/ZLTextArea.cpp:182-194 | there is one label more than there are lines |
| `Layout.MapsGrowByPrefix` | fbreader/fbreader/zlibrary/text/src/area/ZLTextArea.cpp:189-194 | the element and tree-node maps after preparing a prefix of the lines are prefixes of the final maps |
| `Layout.LabelsOfPrefix` | fbreader/fbreader/zlibrary/text/src/area/ZLTextArea.cpp:182-194 | the labels of a prefix of the lines are a prefix of the labels |
| `Layout.LabelAt` | fbreader/fbreader/zlibrary/text/src/area/ZLTextArea.cpp:193 | label i is the element-map size once the first i lines have been prepared |
| `Layout.LabelsShape` | fbreader/fbreader/zlibrary/text/src/area/ZLTextArea.cpp:182-194 | the labels start at 0, never decrease, and the last one is the final element-map size |
| `Layout.LineSlice` | fbreader/fbreader/zlibrary/text/src/area/ZLTextArea.cpp:191-208 | the element-map slice between labels i and i+1 is exactly what preparing line i at its offset appended |
| `Layout.DrawsAt` | fbreader/fbreader/zlibrary/text/src/area/ZLTextArea.cpp:206-213 | there is one draw call per line, and line i is drawn at the sum of the earlier lines' advances with the label slice (labels[i], labels[i+1]) |
| `Layout.PaintWidthIsMaximum` | fbreader/fbreader/zlibrary/text/src/area/ZLTextArea.cpp:205-216 | the painted width is at least 0 and at least every line's StartIndent+Width, and it is 0 or equal to one of them |
| `Layout.PaintHeightIsLastBottom` | fbreader/fbreader/zlibrary/text/src/area/ZLTextArea.cpp:209-217 | for a non-empty line list the painted height is the last line's offset plus its Height and Descent: all advances less the last VSpaceAfter |
| `Area.ClipToWidth` | fbreader/fbreader/zlibrary/text/src/area/ZLTextArea.cpp:158-160 | the clipped span is absent exactly when left >= right, right <= 0, left >= width-1 or width <= 1; otherwise it lies within both [left, right] and [0, width-1] and each end is either the given end or the area's edge |
| `Area.TextArea.constructor` | fbreader/fbreader/zlibrary/text/src/area/ZLTextArea.cpp:32-34 | offsets 0, width and height from the context, no model, no mirror, no lines, no maps, no selection model |
| `Area.TextArea.RealX` | fbreader/fbreader/zlibrary/text/src/area/ZLTextArea.cpp:42-44 | the identity when no mirror is installed, the mirror's coordinate map otherwise |
| `Area.TextArea.SetModel` | fbreader/fbreader/zlibrary/text/src/area/ZLTextArea.cpp:46-62 | lines, maps and end cursor are emptied and the selection is cleared; an absent or zero-paragraph model leaves the model and start cursor absent and the mirror flag unchanged; a non-empty model is installed with mirror flag equal to isRtl and the start cursor at paragraph 0, so realX is the identity for a left-to-right model |
| `Area.TextArea.Clear` | fbreader/fbreader/zlibrary/text/src/area/ZLTextArea.cpp:64-73 | both cursors absent; lines and both maps empty; an existing selection model is kept and cleared; the selection is empty; the model invariant is kept |
| `Area.TextArea.SelectionIsEmpty` | fbreader/fbreader/zlibrary/text/src/area/ZLTextArea.cpp:75-78 | true when no selection model exists, otherwise the selection model's emptiness |
| `Area.TextArea.ClearSelection` | fbreader/fbreader/zlibrary/text/src/area/ZLTextArea.cpp:80-84 | an existing selection model is cleared; without one nothing changes |
| `Area.TextArea.SelectionModel` | fbreader/fbreader/zlibrary/text/src/area/ZLTextArea.cpp:171-176 | returns the existing selection model unchanged, or creates a fresh empty one and keeps it |
| `Area.TextArea.LocalX` | fbreader/fbreader/zlibrary/text/src/area/ZLTextArea.cpp:87-88 | the x adjustment for absolute coordinates: x - hOffset when absolute, x otherwise |
| `Area.TextArea.LocalY` | fbreader/fbreader/zlibrary/text/src/area/ZLTextArea.cpp:87-89 | the y adjustment for absolute coordinates: y - vOffset when absolute, y otherwise |
| `Area.TextArea.ParagraphIndexByCoordinates` | fbreader/fbreader/zlibrary/text/src/area/ZLTextArea.cpp:86-133 | the loop over the element map returns the paragraph scan's result for the offset-adjusted point from the initial band (-1, -1, context width + 1, -1) |
| `Area.TextArea.ElementByCoordinates` | fbreader/fbreader/zlibrary/text/src/area/ZLTextArea.cpp:135-144 | the first element rectangle that contains the offset-adjusted point, with no earlier one containing it, or None when none does |
| `Area.TextArea.TreeNodeByCoordinates` | fbreader/fbreader/zlibrary/text/src/area/ZLTextArea.cpp:146-155 | the first tree-node rectangle that contains the offset-adjusted point, with no earlier one containing it, or None when none does |
| `Area.TextArea.AbsoluteCoordinates` | fbreader/fbreader/zlibrary/text/src/area/ZLTextArea.cpp:87-90 | all three hit tests on absolute (x, y) give the same result as on area-local (x - hOffset, y - vOffset); the same adjustment is at lines 136-139 and 147-150 |
| `Area.TextArea.DrawSelectionRectangle` | fbreader/fbreader/zlibrary/text/src/area/ZLTextArea.cpp:157-169 | no call when the clipped span is degenerate; otherwise exactly one fill, in the selection-background colour, of (hOffset+left', vOffset+top, hOffset+right', vOffset+bottom) |
| `Area.TextArea.PrepareTextLine` | fbreader/fbreader/zlibrary/text/src/area/ZLTextArea.cpp:191 | the line preparation step appends the line's rectangles to both maps and changes nothing else |
| `Area.TextArea.DrawTextLine` | fbreader/fbreader/zlibrary/text/src/area/ZLTextArea.cpp:208 | the line drawing step records its arguments as a `DrawLine` call and changes nothing else |
| `Area.TextArea.PrepareLines` | fbreader/fbreader/zlibrary/text/src/area/ZLTextArea.cpp:179-194 | the first pass rebuilds both maps from empty as the lines' prepared rectangles in line order, and returns the labels |
| `Area.TextArea.DrawLines` | fbreader/fbreader/zlibrary/text/src/area/ZLTextArea.cpp:204-218 | the second pass makes exactly the per-line draw calls with their label slices and returns the painted width and height |
| `Area.TextArea.Paint` | fbreader/fbreader/zlibrary/text/src/area/ZLTextArea.cpp:178-219 | the maps reflect exactly the current lines, with no stale rectangles; an existing selection is cleared when selection is disabled, and otherwise updated from the complete new element map before any line is drawn; then every line is drawn in order; the `PaintTwice` client proves a second paint gives the same maps and size |
| `Area.TextArea.IsVisible` | fbreader/fbreader/zlibrary/text/src/area/ZLTextArea.cpp:221-228 | true exactly when some line has IsVisible set |

## Left out

- `fbreader/fbreader/zlibrary/core/src/optionEntries/ZLFontFamilyOptionEntry.h`: declarations of a font-family option entry only, with no logic of the area.
- `prepareTextLine` and `drawTextLine`: their bodies are in other files. Preparation is an arbitrary function of the line info and the vertical offset, whose rectangles are appended to the maps. Drawing only records its call.
- The `Style` object passed to both steps is not modelled. The preparation step is taken to depend only on the line info and the offset.
- `ZLTextRectangle.h` is not part of this model. Its range check is taken as inclusive on all four bounds.
- `ZLMirroredPaintContext`: the mirror is a flag plus an arbitrary coordinate map fixed at construction. The adapter object that `setModel` re-creates is not modelled.
- The paint context primitives (`width`, `height`, `setFillColor`, `fillRectangle`) and the style colour lookup: the context's width and height are constructor values, the selection-background colour and the selection-enabled flag are fields, and fills are entries of the ghost call log.
- `ZLTextSelectionModel` internals: only an empty/non-empty flag is kept. Creating it yields an empty selection, and `clear` empties it.
- `ZLTextSelectionModel::update`: its effect is not modelled. `Selection.Update` may leave the selection empty or not, so after a paint with selection enabled nothing is promised about emptiness; the update is logged with the element map it reads.
- The paragraph cursor cache: a cursor is the value (model, paragraph 0), with no cache identity. The end cursor is only reset.
- `shared_ptr` handles and reference counting: models and cursors are `Option` values, so two models with equal attributes are not told apart.
- Hit tests return a position in the map instead of a pointer to the rectangle.
- The optional `ZLSize *size` out-parameter of `paint`: the size is always returned, and a caller passing no receiver ignores it.
- The line infos, offsets and area size are set by code outside this file. Here they are fields that callers assign.
- The destructors have empty bodies and are not modelled.
- Integers are unbounded: 32-bit wrap-around in the offset subtraction, in `context().width() + 1` and in the running `y` is not modelled.
- Threads: the area is single-threaded.
