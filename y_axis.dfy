/**
  The y-axis of the execution timeline: one labelled band per row. The band
  scale is a partial map from band to its top (`None` for a band the scale does
  not know, where d3 yields `undefined`) plus one bandwidth; the row accessors
  and the label formatter are parameters, as the gantt utilities are not part
  of this model. Pixel values are `real`s.
 */
module YAxis {
  import opened Js

  /** A row as the axis sees it: its id, its label (`caption`, as `label` is reserved), and whatever else it carries (icon, styles). */
  datatype Row<Extra> = Row(id: string, caption: string, extra: Extra)

  // ---------------------------------------------------------------------------
  // Relabelling the input rows.

  /** Every input row with its label replaced by `labelFormatter(yAccessor(row))`. */
  function Relabel<X>(rows: seq<Row<X>>, yAccessor: Row<X> -> string, labelFormatter: string -> string): (r: seq<Row<X>>)
    ensures |r| == |rows|
    ensures forall i :: 0 <= i < |rows| ==>
      r[i].id == rows[i].id && r[i].extra == rows[i].extra && r[i].caption == labelFormatter(yAccessor(rows[i]))
  {
    if rows == [] then []
    else Relabel(rows[..|rows| - 1], yAccessor, labelFormatter)
         + [rows[|rows| - 1].(caption := labelFormatter(yAccessor(rows[|rows| - 1])))]
  }

  function Ids<X>(rows: seq<Row<X>>): seq<string> {
    if rows == [] then [] else Ids(rows[..|rows| - 1]) + [rows[|rows| - 1].id]
  }

  /** Relabelling keeps the ids and their order, so it cannot add, drop or reorder bands. */
  lemma {:induction false} RelabelKeepsIds<X>(rows: seq<Row<X>>, yAccessor: Row<X> -> string, labelFormatter: string -> string)
    ensures Ids(Relabel(rows, yAccessor, labelFormatter)) == Ids(rows)
    decreases |rows|
  {
    if rows != [] {
      var r := Relabel(rows, yAccessor, labelFormatter);
      var init := rows[..|rows| - 1];
      RelabelKeepsIds(init, yAccessor, labelFormatter);
      assert r[..|r| - 1] == Relabel(init, yAccessor, labelFormatter);
    }
  }

  /** Relabelling works row by row: relabelling two batches is relabelling them together. */
  lemma {:induction false} RelabelAppend<X>(a: seq<Row<X>>, b: seq<Row<X>>, yAccessor: Row<X> -> string, labelFormatter: string -> string)
    ensures Relabel(a + b, yAccessor, labelFormatter) == Relabel(a, yAccessor, labelFormatter) + Relabel(b, yAccessor, labelFormatter)
    decreases |b|
  {
    if b == [] {
      assert a + b == a;
    } else {
      assert (a + b)[..|a + b| - 1] == a + b[..|b| - 1];
      RelabelAppend(a, b[..|b| - 1], yAccessor, labelFormatter);
    }
  }

  // ---------------------------------------------------------------------------
  // The id-to-label map of the current rows.

  /** What `rows.reduce((m, row) => m.set(idAccessor(row), yAccessor(row)), new Map())` yields. */
  function RowsMap<X>(rows: seq<Row<X>>, idAccessor: Row<X> -> string, yAccessor: Row<X> -> string): map<string, string>
    decreases |rows|
  {
    if rows == [] then map[]
    else
      var last := rows[|rows| - 1];
      RowsMap(rows[..|rows| - 1], idAccessor, yAccessor)[idAccessor(last) := yAccessor(last)]
  }

  /** Builds the map by setting each row's entry in turn. */
  method CurrRowsMap<X>(currRows: seq<Row<X>>, idAccessor: Row<X> -> string, yAccessor: Row<X> -> string)
    returns (agg: map<string, string>)
    ensures agg == RowsMap(currRows, idAccessor, yAccessor)
  {
    agg := map[];
    for i := 0 to |currRows|
      invariant agg == RowsMap(currRows[..i], idAccessor, yAccessor)
    {
      var row := currRows[i];
      agg := agg[idAccessor(row) := yAccessor(row)];
      assert currRows[..i + 1][..i] == currRows[..i];
    }
    assert currRows[..|currRows|] == currRows;
  }

  /** The map has a key for every row's id and for nothing else. */
  lemma {:induction false} RowsMapKeys<X>(rows: seq<Row<X>>, idAccessor: Row<X> -> string, yAccessor: Row<X> -> string)
    ensures RowsMap(rows, idAccessor, yAccessor).Keys == set r | r in rows :: idAccessor(r)
    decreases |rows|
  {
    if rows != [] {
      var init := rows[..|rows| - 1];
      RowsMapKeys(init, idAccessor, yAccessor);
      assert rows == init + [rows[|rows| - 1]];
    }
  }

  /** A row's id maps to that row's value when no later row has the same id: the last row wins. */
  lemma {:induction false} RowsMapLastWins<X>(rows: seq<Row<X>>, idAccessor: Row<X> -> string, yAccessor: Row<X> -> string, i: nat)
    requires i < |rows|
    requires forall j :: i < j < |rows| ==> idAccessor(rows[j]) != idAccessor(rows[i])
    ensures idAccessor(rows[i]) in RowsMap(rows, idAccessor, yAccessor)
    ensures RowsMap(rows, idAccessor, yAccessor)[idAccessor(rows[i])] == yAccessor(rows[i])
    decreases |rows|
  {
    if i < |rows| - 1 {
      var init := rows[..|rows| - 1];
      assert forall j :: i < j < |init| ==> init[j] == rows[j];
      RowsMapLastWins(init, idAccessor, yAccessor, i);
    }
  }

  /** `map.get(key)`: `undefined` for a missing key. */
  function MapGet(m: map<string, string>, key: string): (r: Option<string>)
    ensures r.Some? <==> key in m
    ensures r.Some? ==> r.value == m[key]
  {
    if key in m then Some(m[key]) else None
  }

  /** `inputRows.find(({ id }) => id === band)`: the first row with that id. */
  function FindRow<X>(rows: seq<Row<X>>, band: string): (r: Option<Row<X>>)
    ensures r.None? <==> forall i :: 0 <= i < |rows| ==> rows[i].id != band
    ensures r.Some? ==> exists i :: 0 <= i < |rows| && rows[i] == r.value && r.value.id == band
                          && forall j :: 0 <= j < i ==> rows[j].id != band
  {
    if rows == [] then None
    else if rows[0].id == band then Some(rows[0])
    else
      var r := FindRow(rows[1..], band);
      assert forall i :: 1 <= i < |rows| ==> rows[i] == rows[1..][i - 1];
      r
  }

  // ---------------------------------------------------------------------------
  // Where a band's label sits.

  const DefaultBarHeight: real := 22.0
  const DefaultAlignmentRatio: real := 0.3

  /**
    `yScale(band) + (bandwidth - barHeight - 4) * ratio || 0`: the band's top
    moved down a fixed share of the space the bar leaves free; 0 for a band the
    scale does not know (NaN). A zero sum is falsy too, but `|| 0` turns it into
    the same 0, so the known-band case is the sum itself.
   */
  function YPos(yScale: string -> Option<real>, band: string, bandwidth: real, barHeight: real, ratio: real): (y: real)
    ensures yScale(band).None? ==> y == 0.0
    ensures yScale(band).Some? ==> y == yScale(band).value + (bandwidth - barHeight - 4.0) * ratio
  {
    match yScale(band)
    case None => 0.0
    case Some(top) => top + (bandwidth - barHeight - 4.0) * ratio
  }

  /** All known bands get the same offset, so their labels keep the bands' spacing. */
  lemma YPosKeepsSpacing(yScale: string -> Option<real>, b1: string, b2: string, bandwidth: real, barHeight: real, ratio: real)
    requires yScale(b1).Some? && yScale(b2).Some?
    ensures YPos(yScale, b2, bandwidth, barHeight, ratio) - YPos(yScale, b1, bandwidth, barHeight, ratio)
         == yScale(b2).value - yScale(b1).value
  {
  }

  /**
    With a ratio between 0 and 1 and a band tall enough for the bar, the label
    anchor lies within the band, no lower than the bar's room allows.
   */
  lemma YPosWithinBand(yScale: string -> Option<real>, band: string, bandwidth: real, barHeight: real, ratio: real)
    requires yScale(band).Some?
    requires 0.0 <= ratio <= 1.0 && bandwidth >= barHeight + 4.0
    ensures yScale(band).value <= YPos(yScale, band, bandwidth, barHeight, ratio)
    ensures YPos(yScale, band, bandwidth, barHeight, ratio) <= yScale(band).value + bandwidth - barHeight - 4.0
  {
    var free := bandwidth - barHeight - 4.0;
    ProductOfNonNegatives(free, ratio);
    ProductOfNonNegatives(free, 1.0 - ratio);
    assert free * ratio + free * (1.0 - ratio) == free;
  }

  /**
    With the axis's default bar height and ratio, a known band's anchor sits 30% of
    the way down the room the bar leaves free, and within the band once it is tall
    enough for the bar.
   */
  lemma DefaultYPos(yScale: string -> Option<real>, band: string, bandwidth: real)
    requires yScale(band).Some?
    ensures YPos(yScale, band, bandwidth, DefaultBarHeight, DefaultAlignmentRatio)
         == yScale(band).value + 0.3 * (bandwidth - 26.0)
    ensures bandwidth >= 26.0 ==>
      yScale(band).value <= YPos(yScale, band, bandwidth, DefaultBarHeight, DefaultAlignmentRatio) <= yScale(band).value + bandwidth - 26.0
  {
    if bandwidth >= 26.0 {
      YPosWithinBand(yScale, band, bandwidth, DefaultBarHeight, DefaultAlignmentRatio);
    }
  }

  lemma ProductOfNonNegatives(a: real, b: real)
    requires a >= 0.0 && b >= 0.0
    ensures a * b >= 0.0
  {
  }

  // ---------------------------------------------------------------------------
  // Scrolling the selected band into view.

  /** What `getBoundingClientRect()` reports. */
  datatype Rect = Rect(top: real, left: real, bottom: real, right: real)

  /** The browser's viewport size readings; a zero reading is falsy and falls through `||`. */
  datatype Viewport = Viewport(innerHeight: real, clientHeight: real, innerWidth: real, clientWidth: real)

  function NumOr(a: real, b: real): (r: real)
    ensures a != 0.0 ==> r == a
    ensures a == 0.0 ==> r == b
  {
    if a != 0.0 then a else b
  }

  function ViewHeight(v: Viewport): real { NumOr(v.innerHeight, v.clientHeight) }
  function ViewWidth(v: Viewport): real { NumOr(v.innerWidth, v.clientWidth) }

  /** The four edge comparisons of the source. */
  predicate FullyVisible(r: Rect, v: Viewport) {
    r.top >= 0.0 && r.left >= 0.0 && r.bottom <= ViewHeight(v) && r.right <= ViewWidth(v)
  }

  /**
    Scroll when a band is selected, its element exists, and its rectangle is not
    fully visible. `element` stands for `getElementById(id)?.getBoundingClientRect()`.
   */
  function ShouldScroll(selectedId: Option<string>, element: string -> Option<Rect>, v: Viewport): (b: bool)
    ensures b ==> Truthy(selectedId) && element(selectedId.value).Some?
    ensures b <==> Truthy(selectedId) && element(selectedId.value).Some? && !FullyVisible(element(selectedId.value).value, v)
  {
    if !Truthy(selectedId) then false
    else match element(selectedId.value)
      case None => false
      case Some(rect) => !FullyVisible(rect, v)
  }

  predicate InRect(r: Rect, x: real, y: real) {
    r.left <= x <= r.right && r.top <= y <= r.bottom
  }

  predicate InView(v: Viewport, x: real, y: real) {
    0.0 <= x <= ViewWidth(v) && 0.0 <= y <= ViewHeight(v)
  }

  /**
    For a non-empty rectangle the four comparisons say exactly that every point
    of it is on screen, so the band scrolls iff some point of it is off screen.
   */
  lemma FullyVisibleMeansEveryPoint(r: Rect, v: Viewport)
    requires r.left <= r.right && r.top <= r.bottom
    ensures FullyVisible(r, v) <==> forall x, y :: InRect(r, x, y) ==> InView(v, x, y)
  {
    if forall x, y :: InRect(r, x, y) ==> InView(v, x, y) {
      assert InRect(r, r.left, r.top) && InRect(r, r.right, r.bottom);
    }
  }

  // ---------------------------------------------------------------------------
  // The label: marker, cursor, click.

  const Expanded: string := "\U{25BC}"
  const Collapsed: string := "\U{25BA}"

  /** `collapsibleRows.has(band) && (taskExpanded.get(band) ? "▼" : "►")`; an absent marker renders as "". */
  function Marker(band: string, collapsibleRows: set<string>, taskExpanded: map<string, bool>): (s: string)
    ensures s == Expanded <==> band in collapsibleRows && band in taskExpanded && taskExpanded[band]
    ensures s == Collapsed <==> band in collapsibleRows && !(band in taskExpanded && taskExpanded[band])
    ensures s == "" <==> band !in collapsibleRows
  {
    if band !in collapsibleRows then ""
    else if band in taskExpanded && taskExpanded[band] then Expanded
    else Collapsed
  }

  /** The text of the label: the marker, a space, and the band's current label (nothing when it has none). */
  function LabelText(band: string, collapsibleRows: set<string>, taskExpanded: map<string, bool>, currRowsMap: map<string, string>): (s: string)
    ensures var m := Marker(band, collapsibleRows, taskExpanded);
      |s| > |m| && s[..|m|] == m && s[|m|] == ' ' &&
      s[|m| + 1..] == (if band in currRowsMap then currRowsMap[band] else "")
    ensures band !in collapsibleRows ==> s[0] == ' '
  {
    Marker(band, collapsibleRows, taskExpanded) + " " + (if band in currRowsMap then currRowsMap[band] else "")
  }

  /** Flipping a collapsible band's expanded flag flips its marker. */
  lemma MarkerFollowsFlag(band: string, collapsibleRows: set<string>, taskExpanded: map<string, bool>)
    requires band in collapsibleRows
    ensures Marker(band, collapsibleRows, taskExpanded[band := true]) == Expanded
    ensures Marker(band, collapsibleRows, taskExpanded[band := false]) == Collapsed
    ensures Marker(band, collapsibleRows, taskExpanded) != Marker(band, collapsibleRows, taskExpanded[band := !(band in taskExpanded && taskExpanded[band])])
  {
  }

  /** `onLabelClick || children || collapsibleRows.has(band) ? "pointer" : "inherit"` */
  function Cursor(band: string, hasOnLabelClick: bool, hasChildren: bool, collapsibleRows: set<string>): (c: string)
    ensures c == "pointer" <==> hasOnLabelClick || hasChildren || band in collapsibleRows
    ensures c != "pointer" ==> c == "inherit"
  {
    if hasOnLabelClick || hasChildren || band in collapsibleRows then "pointer" else "inherit"
  }

  /** What a click on a label does, in order: toggle the band, report the click. */
  datatype Effect = Toggle(band: string) | LabelClick(id: string, caption: Option<string>)

  /**
    The label's click handler: toggles the band when it is collapsible and then,
    when the axis has an `onLabelClick` handler, reports the band's id and label.
   */
  method OnLabelClick(band: string, collapsibleRows: set<string>, currRowsMap: map<string, string>, hasOnLabelClick: bool)
    returns (effects: seq<Effect>)
    ensures Toggle(band) in effects <==> band in collapsibleRows
    ensures hasOnLabelClick <==> |effects| > 0 && effects[|effects| - 1] == LabelClick(band, MapGet(currRowsMap, band))
    ensures |effects| == (if band in collapsibleRows then 1 else 0) + (if hasOnLabelClick then 1 else 0)
    ensures forall e :: e in effects ==> e == Toggle(band) || e == LabelClick(band, MapGet(currRowsMap, band))
  {
    effects := [];
    if band in collapsibleRows {
      effects := effects + [Toggle(band)];
    }
    var key := LabelClick(band, MapGet(currRowsMap, band));
    if hasOnLabelClick {
      effects := effects + [key];
    }
  }

  /** A label that does anything when clicked shows the pointer cursor. */
  lemma ClickableLabelShowsPointer(band: string, collapsibleRows: set<string>, hasOnLabelClick: bool, hasChildren: bool)
    requires band in collapsibleRows || hasOnLabelClick
    ensures Cursor(band, hasOnLabelClick, hasChildren, collapsibleRows) == "pointer"
  {
  }

  // ---------------------------------------------------------------------------
  // The horizontal lines.

  /**
    The lines band `idx` of `domain` draws, top to bottom of the source: the
    closing line at `yPos + bandwidth` for the last band only, then the line at `yPos`.
   */
  function BandLines(domain: seq<string>, idx: nat, yPos: real, bandwidth: real): (lines: seq<real>)
    ensures |lines| == if idx == |domain| - 1 then 2 else 1
    ensures lines[|lines| - 1] == yPos
    ensures idx == |domain| - 1 ==> lines[0] == yPos + bandwidth
  {
    (if idx == |domain| - 1 then [yPos + bandwidth] else []) + [yPos]
  }

  /** Across the axis exactly one band, the last, draws the closing line. */
  lemma OneClosingLine(domain: seq<string>, yPos: real, bandwidth: real)
    requires |domain| > 0
    ensures (set i | 0 <= i < |domain| && |BandLines(domain, i, yPos, bandwidth)| == 2) == {|domain| - 1}
  {
  }
}
