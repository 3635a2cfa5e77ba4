/**
 * The calendar's configuration: the class constants of `CalendarConfig`, the
 * unit conversions between Excel column widths, points, pixels and
 * millimetres, and the cell sizes and font sizes derived from them.
 * Python floats are exact reals here; `int(x)` is `Trunc` and `round(x)` is
 * round-half-to-even.
 */
module CalendarConfig {
  import opened PyNum

  // ===== Columns and rows =====
  const DateColumnWidth: real := 22.0     // Excel column-width units
  const RowHeight: real := 120.0          // points
  const DaysPerMonthMax: int := 31
  const MonthSpacerHeightRatio: real := 0.25

  // ===== Nominal pixel sizes (also the `CellInfo` defaults) =====
  const CellWidthPx: int := 165
  const CellHeightPx: int := 160

  // ===== Colours, ARGB hex for backgrounds and RGBA for drawing =====
  const ColorMonthBg: string := "FF2E5AA2"
  const ColorWeekendBg: string := "FFE8F4FF"
  const ColorWeekdayBg: string := "FFFFFFFF"
  const ColorTextDate: (int, int, int, int) := (0, 0, 0, 255)
  const ColorTriangle: (int, int, int, int) := (0, 0, 0, 255)
  const ColorTextWeekday: (int, int, int, int) := (255, 255, 255, 255)

  // ===== Fonts =====
  const FontPath: string := "/System/Library/Fonts/Hiragino Sans GB.ttc"
  const FontFallbackPaths: seq<string> := [
    "/System/Library/Fonts/STHeiti Medium.ttc",
    "/System/Library/Fonts/STHeiti Light.ttc"
  ]
  const MonthLabelFontSizeRatio: real := 0.208
  const MonthLabelStrokeWidth: real := 2.0
  const MonthLabelEnglishSizeRatio: real := 0.385
  const MonthLabelEnglishStrokeWidth: real := 1.0

  // ===== Layout ratios =====
  const DateAreaHeightRatio: real := 0.45
  const DateAreaWidthRatio: real := 0.45
  const WeekdayAreaHeightRatio: real := 0.35
  const WeekdayAreaWidthRatio: real := 0.45
  const ContentMarginRatio: real := 0.04
  const TriangleMarginRatio: real := 0.0
  const TriangleWidthRatio: real := 1.0
  const TriangleHeightRatio: real := 1.0
  const LineWidth: real := 2.0

  // ===== Font-size and text-area ratios =====
  const DateFontSizeRatio: real := 1.0
  const WeekdayFontSizeRatio: real := 0.95
  const DateTextAreaRatio: real := 0.025
  const WeekdayTextAreaRatio: real := 0.01875
  const WeekdayTriangleTextWidthRatio: real := 0.55
  const WeekdayTriangleTextHeightRatio: real := 0.55

  // ===== Rendering and files =====
  const RenderScale: real := 4.0
  const TempDir: string := "./temp_calendar_images"
  const OutputFilenamePattern: string := "yearly_calendar_{year}.xlsx"

  // ===== Labels =====
  const WeekdayNames: seq<string> := ["周一", "周二", "周三", "周四", "周五", "周六", "周日"]
  const MonthEnglishNames: seq<string> := [
    "January", "February", "March", "April", "May", "June",
    "July", "August", "September", "October", "November", "December"
  ]

  /** `get_date_font_size`: the height of the date area, scaled by the date font ratio. */
  function GetDateFontSize(cellHeightPx: int): (size: int)
    ensures 0 <= cellHeightPx ==> 0 <= size <= cellHeightPx
    ensures size == Trunc(cellHeightPx as real * DateAreaHeightRatio)
  {
    var dateAreaHeight := Trunc(cellHeightPx as real * DateAreaHeightRatio);
    Trunc(dateAreaHeight as real * DateFontSizeRatio)
  }

  /** `get_weekday_font_size`: at most the height of the weekday area. */
  function GetWeekdayFontSize(cellHeightPx: int): (size: int)
    ensures 0 <= cellHeightPx ==> 0 <= size <= Trunc(cellHeightPx as real * WeekdayAreaHeightRatio)
  {
    var weekdayAreaHeight := Trunc(cellHeightPx as real * WeekdayAreaHeightRatio);
    Trunc(weekdayAreaHeight as real * WeekdayFontSizeRatio)
  }

  /** `get_month_label_font_size`: the month banner's size as a fraction of the cell height. */
  function GetMonthLabelFontSize(cellHeightPx: int): (size: int)
    ensures 0 <= cellHeightPx ==> 0 <= size <= cellHeightPx / 4
  {
    Trunc(cellHeightPx as real * MonthLabelFontSizeRatio)
  }

  /** Every derived font size grows (weakly) with the cell height. */
  lemma FontSizesMonotonic(h1: int, h2: int)
    requires h1 <= h2
    ensures GetDateFontSize(h1) <= GetDateFontSize(h2)
    ensures GetWeekdayFontSize(h1) <= GetWeekdayFontSize(h2)
    ensures GetMonthLabelFontSize(h1) <= GetMonthLabelFontSize(h2)
  {
    TruncMonotonic(h1 as real * WeekdayAreaHeightRatio, h2 as real * WeekdayAreaHeightRatio);
    var a1 := Trunc(h1 as real * WeekdayAreaHeightRatio);
    var a2 := Trunc(h2 as real * WeekdayAreaHeightRatio);
    TruncMonotonic(a1 as real * WeekdayFontSizeRatio, a2 as real * WeekdayFontSizeRatio);
    TruncMonotonic(h1 as real * MonthLabelFontSizeRatio, h2 as real * MonthLabelFontSizeRatio);
  }

  /** The three font sizes of a default 160-pixel cell. */
  lemma DefaultCellFontSizes()
    ensures GetDateFontSize(160) == 72
    ensures GetWeekdayFontSize(160) == 53
    ensures GetMonthLabelFontSize(160) == 33
  {
  }

  /**
   * `excel_column_width_to_pixels`: 12 pixels per unit up to one unit, then
   * 7 pixels per unit plus 5 (a 7-pixel maximum digit width reading of the
   * column-width formula of ECMA-376 Part 1, section 18.3.1.13).
   */
  function ExcelColumnWidthToPixels(width: real): (px: int)
    ensures width <= 0.0 ==> px == 0
    ensures 0 <= px
    ensures 0.0 < width <= 1.0 ==> 0 <= px <= 12
    ensures 1.0 < width ==> 12 <= px
  {
    if width <= 0.0 then 0
    else if width <= 1.0 then RoundHalfEven(width * 12.0)
    else RoundHalfEven(width * 7.0 + 5.0)
  }

  /** The two branches of the column-width formula meet at one unit. */
  lemma ExcelWidthBranchesAgreeAtOne()
    ensures ExcelColumnWidthToPixels(1.0) == 12
    ensures RoundHalfEven(1.0 * 7.0 + 5.0) == 12
  {
    RoundInteger(12);
  }

  /** `pixels_to_excel_column_width`: the inverse formulas, rounded to two decimals. */
  function PixelsToExcelColumnWidth(pixels: int): (width: real)
    ensures pixels <= 12 ==> AbsReal(width - pixels as real / 12.0) <= 0.005
    ensures 12 < pixels ==> AbsReal(width - (pixels - 5) as real / 7.0) <= 0.005
  {
    if pixels <= 12 then Round2(pixels as real / 12.0)
    else Round2((pixels - 5) as real / 7.0)
  }

  /**
   * Converting a non-negative pixel width to column units and back gives the
   * same pixels: the two-decimal rounding error, times 12 or times 7, stays
   * below one half.
   */
  lemma ColumnWidthRoundTrip(px: int)
    requires 0 <= px
    ensures ExcelColumnWidthToPixels(PixelsToExcelColumnWidth(px)) == px
  {
    var w := PixelsToExcelColumnWidth(px);
    if px == 0 {
      assert w == RoundHalfEven(0.0) as real / 100.0;
      RoundInteger(0);
    } else if px <= 12 {
      var x := px as real / 12.0;
      var k := RoundHalfEven(x * 100.0);
      assert w == k as real / 100.0;
      assert k as real <= x * 100.0 + 0.5 <= 100.5;
      assert k <= 100;
      assert 0.0 < w <= 1.0;
      assert AbsReal(w * 12.0 - px as real) <= 0.06;
      RoundNearest(w * 12.0, px);
    } else {
      var x := (px - 5) as real / 7.0;
      assert x >= 8.0 / 7.0;
      assert 1.0 < w;
      assert AbsReal(w * 7.0 + 5.0 - px as real) <= 0.035;
      RoundNearest(w * 7.0 + 5.0, px);
    }
  }

  /** `points_to_pixels`: points at 72 per inch to pixels at 96 per inch, rounded. */
  function PointsToPixels(points: real): (px: int)
    ensures AbsReal(px as real - points * 4.0 / 3.0) <= 0.5
  {
    RoundHalfEven(points * 96.0 / 72.0)
  }

  /** `pixels_to_points`: exactly three quarters of a point per pixel. */
  function PixelsToPoints(pixels: int): (points: real)
    ensures points * 4.0 == pixels as real * 3.0
  {
    pixels as real * 72.0 / 96.0
  }

  /** Pixels survive a trip through points unchanged. */
  lemma PixelsPointsRoundTrip(px: int)
    ensures PointsToPixels(PixelsToPoints(px)) == px
  {
    assert PixelsToPoints(px) * 96.0 / 72.0 == px as real;
    RoundInteger(px);
  }

  /** Points through pixels and back move by at most half a pixel, 3/8 of a point. */
  lemma PointsPixelsRoundTrip(points: real)
    ensures AbsReal(PixelsToPoints(PointsToPixels(points)) - points) <= 0.375
  {
  }

  /** `mm_to_points`: 72 points per 25.4 millimetres. */
  function MmToPoints(mm: real): (points: real)
    ensures points * 25.4 == mm * 72.0
  {
    mm * 72.0 / 25.4
  }

  /** `mm_to_pixels`: 96 pixels per 25.4 millimetres, rounded. */
  function MmToPixels(mm: real): (px: int)
    ensures AbsReal(px as real - mm * 96.0 / 25.4) <= 0.5
  {
    RoundHalfEven(mm * 96.0 / 25.4)
  }

  /** Millimetres to pixels is millimetres to points followed by points to pixels. */
  lemma MmToPixelsViaPoints(mm: real)
    ensures MmToPixels(mm) == PointsToPixels(MmToPoints(mm))
  {
    assert MmToPoints(mm) * 96.0 / 72.0 == mm * 96.0 / 25.4;
  }

  function GetDateColumnWidth(): real { DateColumnWidth }

  function GetRowHeightPoints(): real { RowHeight }

  /**
   * `get_day_cell_width_px`: the date column's width in pixels, from the
   * Excel column width (22 units), not from the nominal 165-pixel cell width.
   */
  function GetDayCellWidthPx(): (px: int)
    ensures px == 159 && px != CellWidthPx
  {
    RoundInteger(159);
    ExcelColumnWidthToPixels(GetDateColumnWidth())
  }

  /** `get_day_cell_height_px`: the row height of 120 points in pixels. */
  function GetDayCellHeightPx(): (px: int)
    ensures px == 160 && px == CellHeightPx
  {
    RoundInteger(160);
    PointsToPixels(GetRowHeightPoints())
  }

  /** `get_month_cell_width_px`: month cells are as wide as day cells. */
  function GetMonthCellWidthPx(): (px: int)
    ensures px == GetDayCellWidthPx() && px == 159
  {
    GetDayCellWidthPx()
  }
}
