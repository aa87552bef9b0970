/**
  The row layout of the track list (`TrackListView::Adapter::GetEntry`): five
  fixed-width columns (track number, title, duration, artist, album) separated by
  three spaces, each padded with `setw`-style padding whose width is corrected for
  multi-byte text, and the highlight attribute of the row.
 */
module RowFormat {
  import opened Native
  import opened Text
  import opened Wrappers

  const TRACK_COL_WIDTH: nat := 3
  const ARTIST_COL_WIDTH: nat := 14
  const ALBUM_COL_WIDTH: nat := 14
  const DURATION_COL_WIDTH: nat := 5

  /** The separator of the format string "%s   %s   %s   %s   %s". */
  const GAP: Bytes := [SPACE, SPACE, SPACE]
  /** The `(3 * 4)` subtracted for the separators when the title budget is computed. */
  const SPACING: nat := 3 * 4

  /** The largest field or window size for which the lemmas below state exact widths. */
  const MAX_SIZE: nat := 0x1000_0000

  /** The values of a track record that a row shows, and its compound identity. */
  datatype Track = Track(
    id: int,
    libraryId: int,
    trackNum: Bytes,
    title: Bytes,
    artist: Bytes,
    album: Bytes,
    duration: Bytes)

  /** The colour attributes a row can carry; `NoAttrs` is the `-1` of `Adapter::GetEntry`. */
  datatype Attrs = NoAttrs | BlackOnGreen | BlackOnYellow | YellowOnBlackBold | GreenOnBlack
  {
    /** The attribute shows the selection cursor. */
    predicate MarksSelection() {
      this == BlackOnGreen || this == BlackOnYellow
    }

    /** The attribute shows the playing track. */
    predicate MarksPlaying() {
      this == BlackOnYellow || this == YellowOnBlackBold
    }
  }

  /** A `SingleLineEntry`, or an `EntryWithHeader` that draws a header line above the row. */
  datatype Entry =
    | SingleLine(text: Bytes, attrs: Attrs)
    | WithHeader(header: Bytes, text: Bytes, headerAttrs: Attrs, attrs: Attrs)

  datatype Align = AlignLeft | AlignRight

  /** The padding widths of the five columns, and the visible budget of the title. */
  datatype Widths = Widths(
    trackNum: int,
    title: int,
    duration: int,
    artist: int,
    album: int,
    titleBudget: nat)

  /** The five column values of a row (shown values, or padded cells). */
  datatype Cells = Cells(trackNum: Bytes, title: Bytes, duration: Bytes, artist: Bytes, album: Bytes)
  {
    /** The cells in order, with exactly the three-space separator between neighbours. */
    function Joined(): (r: Bytes)
      ensures |r| == |trackNum| + |title| + |duration| + |artist| + |album| + SPACING
      ensures var o1 := |trackNum| + 3;
        var o2 := o1 + |title| + 3;
        var o3 := o2 + |duration| + 3;
        var o4 := o3 + |artist| + 3;
        && r[..|trackNum|] == trackNum && r[|trackNum|..o1] == GAP
        && r[o1..o1 + |title|] == title && r[o1 + |title|..o2] == GAP
        && r[o2..o2 + |duration|] == duration && r[o2 + |duration|..o3] == GAP
        && r[o3..o3 + |artist|] == artist && r[o3 + |artist|..o4] == GAP
        && r[o4..] == album
    {
      trackNum + GAP + title + GAP + duration + GAP + artist + GAP + album
    }
  }

  // ---------------------------------------------------------------------------
  // Highlight

  /** The playback reference is this track: same track id AND same library id. */
  predicate IsPlaying(playing: Option<Track>, t: Track) {
    playing.Some? && playing.value.id == t.id && playing.value.libraryId == t.libraryId
  }

  /** Selected rows are green; the playing row is yellow, black on yellow when also selected. */
  function Highlight(selected: bool, playing: bool): (a: Attrs)
    ensures a.MarksSelection() == selected
    ensures a.MarksPlaying() == playing
    ensures a != GreenOnBlack
  {
    var attrs := if selected then BlackOnGreen else NoAttrs;
    if playing then
      (if selected then BlackOnYellow else YellowOnBlackBold)
    else
      attrs
  }

  // ---------------------------------------------------------------------------
  // Padding

  function Spaces(n: nat): (r: Bytes)
    ensures |r| == n
    ensures forall i :: 0 <= i < n ==> r[i] == SPACE
  {
    if n == 0 then [] else Spaces(n - 1) + [SPACE]
  }

  /** The number of fill characters `setw(width)` adds to `s`. */
  function FillCount(s: Bytes, width: int): nat {
    if width > |s| then width - |s| else 0
  }

  /**
    `setw(width)` with `setfill(' ')`: a value shorter than `width` is filled with
    spaces up to `width` (after it when left-aligned, before it when right-aligned);
    a longer value is kept whole, never cut.
   */
  function Pad(s: Bytes, width: int, align: Align): (r: Bytes)
    ensures |r| >= width && |r| >= |s|
    ensures |r| == |s| + FillCount(s, width)
    ensures align == AlignLeft ==>
      r[..|s|] == s && forall i :: |s| <= i < |r| ==> r[i] == SPACE
    ensures align == AlignRight ==>
      r[|r| - |s|..] == s && forall i :: 0 <= i < |r| - |s| ==> r[i] == SPACE
  {
    var fill := Spaces(FillCount(s, width));
    if align == AlignLeft then s + fill else fill + s
  }

  // ---------------------------------------------------------------------------
  // Column widths

  /**
    `DISPLAY_WIDTH(chars, str)` stored in an `int`: `chars + (str.size() - u8len(str))`
    computed in `size_t`. In range, the width exceeds the byte length of `s` by exactly
    as much as the budget `chars` exceeds its visible length.
   */
  function DisplayWidth(h: Helpers, chars: nat, s: Bytes): (w: int)
    requires Wellformed(h)
    ensures chars + Extra(h, s) <= INT_MAX ==> w >= chars && w - |s| == chars - h.u8len(s)
  {
    AsInt(AsSize(chars + Extra(h, s)))
  }

  /** The sum of the corrected widths of the four fixed columns, as a mathematical integer. */
  function FixedColumns(h: Helpers, t: Track): int
    requires Wellformed(h)
  {
    TRACK_COL_WIDTH + Extra(h, t.trackNum) + DURATION_COL_WIDTH + Extra(h, t.duration)
    + ARTIST_COL_WIDTH + Extra(h, t.artist) + ALBUM_COL_WIDTH + Extra(h, t.album)
  }

  /** Every field and the window are small enough that no `int` conversion truncates. */
  predicate Bounded(t: Track, width: nat) {
    width < MAX_SIZE && |t.trackNum| < MAX_SIZE && |t.title| < MAX_SIZE
    && |t.duration| < MAX_SIZE && |t.artist| < MAX_SIZE && |t.album| < MAX_SIZE
  }

  /**
    The column widths of one row, measured on the raw values: the duration before it is
    formatted and the title before it is ellipsized. The title budget is the window
    width minus the four CORRECTED widths minus the spacing, computed in `size_t`.
   */
  function ColumnWidths(h: Helpers, width: nat, t: Track): (c: Widths)
    requires Wellformed(h)
    ensures Bounded(t, width) ==>
      && c.trackNum == TRACK_COL_WIDTH + Extra(h, t.trackNum)
      && c.duration == DURATION_COL_WIDTH + Extra(h, t.duration)
      && c.artist == ARTIST_COL_WIDTH + Extra(h, t.artist)
      && c.album == ALBUM_COL_WIDTH + Extra(h, t.album)
    ensures Bounded(t, width) ==>
      c.trackNum >= TRACK_COL_WIDTH && c.duration >= DURATION_COL_WIDTH
      && c.artist >= ARTIST_COL_WIDTH && c.album >= ALBUM_COL_WIDTH
  {
    var column0Width := DisplayWidth(h, TRACK_COL_WIDTH, t.trackNum);
    var column2Width := DisplayWidth(h, DURATION_COL_WIDTH, t.duration);
    var column3Width := DisplayWidth(h, ARTIST_COL_WIDTH, t.artist);
    var column4Width := DisplayWidth(h, ALBUM_COL_WIDTH, t.album);
    var column1CharacterCount :=
      AsSize(width - column0Width - column2Width - column3Width - column4Width - SPACING);
    var column1Width := DisplayWidth(h, column1CharacterCount, t.title);
    Widths(column0Width, column1Width, column2Width, column3Width, column4Width, column1CharacterCount)
  }

  // ---------------------------------------------------------------------------
  // Row text

  /** The values as shown: artist, album and title ellipsized, the duration formatted. */
  function Shown(h: Helpers, titleBudget: nat, t: Track): Cells {
    Cells(
      t.trackNum,
      h.ellipsize(t.title, titleBudget),
      h.duration(t.duration),
      h.ellipsize(t.artist, ARTIST_COL_WIDTH),
      h.ellipsize(t.album, ALBUM_COL_WIDTH))
  }

  /** `cell` is `s` followed by nothing but spaces. */
  predicate LeftFilled(cell: Bytes, s: Bytes) {
    |s| <= |cell| && cell == s + Spaces(|cell| - |s|)
  }

  /** `cell` is nothing but spaces followed by `s`. */
  predicate RightFilled(cell: Bytes, s: Bytes) {
    |s| <= |cell| && cell == Spaces(|cell| - |s|) + s
  }

  /** The byte length of the cell `setw(width)` makes of `s`: the larger of the two. */
  function CellLength(s: Bytes, width: int): nat {
    |s| + FillCount(s, width)
  }

  /**
    `p` holds the shown values `v` padded to the widths `c`: each cell is as long as the
    larger of its width and its value, holds the value whole, and is filled with spaces
    on the side its alignment leaves open (track number and duration right-aligned,
    title, artist and album left-aligned).
   */
  predicate Padded(p: Cells, v: Cells, c: Widths) {
    && |p.trackNum| == CellLength(v.trackNum, c.trackNum) && RightFilled(p.trackNum, v.trackNum)
    && |p.title| == CellLength(v.title, c.title) && LeftFilled(p.title, v.title)
    && |p.duration| == CellLength(v.duration, c.duration) && RightFilled(p.duration, v.duration)
    && |p.artist| == CellLength(v.artist, c.artist) && LeftFilled(p.artist, v.artist)
    && |p.album| == CellLength(v.album, c.album) && LeftFilled(p.album, v.album)
  }

  /** The padded cells of a row: its shown values padded to its column widths. */
  function PaddedCells(h: Helpers, width: nat, t: Track): (p: Cells)
    requires Wellformed(h)
    ensures var c := ColumnWidths(h, width, t);
      Padded(p, Shown(h, c.titleBudget, t), c)
  {
    var c := ColumnWidths(h, width, t);
    var v := Shown(h, c.titleBudget, t);
    Cells(
      Pad(v.trackNum, c.trackNum, AlignRight),
      Pad(v.title, c.title, AlignLeft),
      Pad(v.duration, c.duration, AlignRight),
      Pad(v.artist, c.artist, AlignLeft),
      Pad(v.album, c.album, AlignLeft))
  }

  /**
    `r` is a row of the shown values `v` in columns padded to the widths `c`: the five
    cells, each as long as the larger of its width and its value, lie one after the
    other with exactly three spaces between neighbours, and are the padded values.
   */
  predicate LaidOut(r: Bytes, v: Cells, c: Widths) {
    var l0 := CellLength(v.trackNum, c.trackNum);
    var l1 := CellLength(v.title, c.title);
    var l2 := CellLength(v.duration, c.duration);
    var l3 := CellLength(v.artist, c.artist);
    var l4 := CellLength(v.album, c.album);
    var o1 := l0 + 3;
    var o2 := o1 + l1 + 3;
    var o3 := o2 + l2 + 3;
    var o4 := o3 + l3 + 3;
    && |r| == o4 + l4
    && r[l0..o1] == GAP && r[o1 + l1..o2] == GAP && r[o2 + l2..o3] == GAP && r[o3 + l3..o4] == GAP
    && Padded(Cells(r[..l0], r[o1..o1 + l1], r[o2..o2 + l2], r[o3..o3 + l3], r[o4..]), v, c)
  }

  /**
    The text of a row (the `boost::format` of "%s   %s   %s   %s   %s"): the shown values
    laid out in their padded columns.
   */
  function RowText(h: Helpers, width: nat, t: Track): (r: Bytes)
    requires Wellformed(h)
    ensures var c := ColumnWidths(h, width, t);
      LaidOut(r, Shown(h, c.titleBudget, t), c)
  {
    var c := ColumnWidths(h, width, t);
    var p := PaddedCells(h, width, t);
    JoinedIsLaidOut(p, Shown(h, c.titleBudget, t), c);
    p.Joined()
  }

  /**
    Joining cells that are each the `setw` padding of a shown value, with the alignment
    of its column, gives a row laid out in those columns.
   */
  lemma JoinedIsLaidOut(p: Cells, v: Cells, c: Widths)
    requires Padded(p, v, c)
    ensures LaidOut(p.Joined(), v, c)
  {
    // Two steps, so that the offsets are matched without `Padded` in view: in one step the proof is too slow.
    JoinedCells(p, CellLength(v.trackNum, c.trackNum), CellLength(v.title, c.title),
      CellLength(v.duration, c.duration), CellLength(v.artist, c.artist));
    CutLaidOut(p.Joined(), p, v, c);
  }

  /** Cutting a joined row at the cells' offsets gives back the cells and the gaps. */
  lemma JoinedCells(p: Cells, l0: nat, l1: nat, l2: nat, l3: nat)
    requires l0 == |p.trackNum| && l1 == |p.title| && l2 == |p.duration| && l3 == |p.artist|
    ensures var r := p.Joined();
      var o1 := l0 + 3;
      var o2 := o1 + l1 + 3;
      var o3 := o2 + l2 + 3;
      var o4 := o3 + l3 + 3;
      && |r| == o4 + |p.album|
      && r[l0..o1] == GAP && r[o1 + l1..o2] == GAP && r[o2 + l2..o3] == GAP && r[o3 + l3..o4] == GAP
      && Cells(r[..l0], r[o1..o1 + l1], r[o2..o2 + l2], r[o3..o3 + l3], r[o4..]) == p
  {
  }

  /** A row whose cuts at the column offsets are the padded cells, with gaps between, is laid out. */
  lemma CutLaidOut(r: Bytes, p: Cells, v: Cells, c: Widths)
    requires Padded(p, v, c)
    requires var l0 := CellLength(v.trackNum, c.trackNum);
      var l1 := CellLength(v.title, c.title);
      var l2 := CellLength(v.duration, c.duration);
      var l3 := CellLength(v.artist, c.artist);
      var o1 := l0 + 3;
      var o2 := o1 + l1 + 3;
      var o3 := o2 + l2 + 3;
      var o4 := o3 + l3 + 3;
      && |r| == o4 + |p.album|
      && r[l0..o1] == GAP && r[o1 + l1..o2] == GAP && r[o2 + l2..o3] == GAP && r[o3 + l3..o4] == GAP
      && Cells(r[..l0], r[o1..o1 + l1], r[o2..o2 + l2], r[o3..o3 + l3], r[o4..]) == p
    ensures LaidOut(r, v, c)
  {
  }


  /** The entry of a row: with a header (the raw album, green on black) when the row begins a group. */
  function MakeEntry(h: Helpers, width: nat, t: Track, attrs: Attrs, isHeader: bool): Entry
    requires Wellformed(h)
  {
    var text := RowText(h, width, t);
    if isHeader then WithHeader(t.album, text, GreenOnBlack, attrs) else SingleLine(text, attrs)
  }

  // ---------------------------------------------------------------------------
  // Layout properties

  /**
    When the window is at least as wide as the corrected fixed columns plus the
    spacing, the title budget is exactly what is left of the window, and the title's
    padding width is that budget corrected for the title's own multi-byte excess.
   */
  lemma TitleBudgetWhenWide(h: Helpers, width: nat, t: Track)
    requires Wellformed(h) && Bounded(t, width)
    requires width >= FixedColumns(h, t) + SPACING
    ensures var c := ColumnWidths(h, width, t);
      && c.titleBudget == width - (c.trackNum + c.duration + c.artist + c.album) - SPACING
      && c.titleBudget == width - FixedColumns(h, t) - SPACING
      && c.title == c.titleBudget + Extra(h, t.title)
  {
  }

  /**
    When the window is narrower than the corrected fixed columns plus the spacing,
    the `size_t` title budget wraps around to a value beyond any `int` (so the title
    is handed to `Ellipsize` with an effectively unlimited budget), while the `int`
    padding width of the title comes out as the signed difference plus the title's
    multi-byte excess; that can be negative, zero or positive, and when it is not above
    the title's byte length `setw` adds no fill at all.
   */
  lemma TitleBudgetWhenNarrow(h: Helpers, width: nat, t: Track)
    requires Wellformed(h) && Bounded(t, width)
    requires width < FixedColumns(h, t) + SPACING
    ensures var c := ColumnWidths(h, width, t);
      && c.titleBudget == SIZE_T_MODULUS + (width - FixedColumns(h, t) - SPACING)
      && c.titleBudget > INT_MAX
      && c.title == width - FixedColumns(h, t) - SPACING + Extra(h, t.title)
  {
  }

  /**
    A value that is shown as it was measured and whose visible length is within its
    budget occupies exactly `chars` visible cells once padded: its visible characters
    plus the fill spaces `setw` adds.
   */
  lemma CellTakesBudget(h: Helpers, chars: nat, s: Bytes)
    requires Wellformed(h) && chars < MAX_SIZE && |s| < MAX_SIZE
    requires h.u8len(s) <= chars
    ensures FillCount(s, DisplayWidth(h, chars, s)) + h.u8len(s) == chars
  {
  }

  /** Every shown value fits its padding width, so no column overflows into the next. */
  predicate Fits(h: Helpers, width: nat, t: Track)
    requires Wellformed(h)
  {
    var c := ColumnWidths(h, width, t);
    var v := Shown(h, c.titleBudget, t);
    && |v.trackNum| <= c.trackNum && |v.title| <= c.title && |v.duration| <= c.duration
    && |v.artist| <= c.artist && |v.album| <= c.album
  }

  /**
    The visible width of a row: for each cell the fill spaces plus the visible characters
    of its value, plus the twelve separator spaces.
   */
  function VisibleWidth(h: Helpers, width: nat, t: Track): nat
    requires Wellformed(h)
  {
    var c := ColumnWidths(h, width, t);
    var v := Shown(h, c.titleBudget, t);
    FillCount(v.trackNum, c.trackNum) + h.u8len(v.trackNum)
    + FillCount(v.title, c.title) + h.u8len(v.title)
    + FillCount(v.duration, c.duration) + h.u8len(v.duration)
    + FillCount(v.artist, c.artist) + h.u8len(v.artist)
    + FillCount(v.album, c.album) + h.u8len(v.album)
    + SPACING
  }

  /**
    When the window is wide enough and every value fits its column, the row's byte
    length is the window width plus the raw title's multi-byte excess.
   */
  lemma RowByteLength(h: Helpers, width: nat, t: Track)
    requires Wellformed(h) && Bounded(t, width)
    requires width >= FixedColumns(h, t) + SPACING
    requires Fits(h, width, t)
    ensures |RowText(h, width, t)| == width + Extra(h, t.title)
  {
    var c := ColumnWidths(h, width, t);
    TitleBudgetWhenWide(h, width, t);
    assert |PaddedCells(h, width, t).Joined()| == c.trackNum + c.title + c.duration + c.artist + c.album + SPACING;
  }

  /**
    When the window is wide enough and every value fits its column, the row is as wide
    on screen as the window, plus the multi-byte excess of the raw title, minus the
    multi-byte excess of every shown value. The widths are measured on the raw values,
    so a value changed by `Ellipsize` or `Duration` shifts the columns after it.
   */
  lemma VisibleWidthOfRow(h: Helpers, width: nat, t: Track)
    requires Wellformed(h) && Bounded(t, width)
    requires width >= FixedColumns(h, t) + SPACING
    requires Fits(h, width, t)
    ensures var v := Shown(h, ColumnWidths(h, width, t).titleBudget, t);
      VisibleWidth(h, width, t) == width + Extra(h, t.title)
        - (Extra(h, v.trackNum) + Extra(h, v.title) + Extra(h, v.duration) + Extra(h, v.artist) + Extra(h, v.album))
  {
  }

  /**
    A row whose title, artist and album are not cut and whose formatted duration is
    single-byte text falls short of the window by the multi-byte excess of its track
    number, artist and album: the title budget subtracts their corrected widths.
   */
  lemma UncutRowWidth(h: Helpers, width: nat, t: Track)
    requires Wellformed(h) && Bounded(t, width)
    requires width >= FixedColumns(h, t) + SPACING
    requires Fits(h, width, t)
    requires var v := Shown(h, ColumnWidths(h, width, t).titleBudget, t);
      v.title == t.title && v.artist == t.artist && v.album == t.album && Extra(h, v.duration) == 0
    ensures VisibleWidth(h, width, t) == width - Extra(h, t.trackNum) - Extra(h, t.artist) - Extra(h, t.album)
  {
  }
}
