/**
 * `CellImageService`: draws the image of one day cell. The service's only
 * state is the font path it resolves once at construction; it is passed here
 * as `fontPath`. Text measuring (`textbbox`), the file-system test
 * (`os.path.exists`) and the success of the SVG backend are oracles.
 */
module CellImageService {
  import opened Wrappers
  import opened PyNum
  import opened PyFormat
  import opened CalendarConfig
  import opened CalendarModels
  import opened Raster

  // ===== Font path resolution =====

  /** The configured font first, then the fallbacks in their listed order. */
  function FontCandidates(): seq<string> {
    [FontPath] + FontFallbackPaths
  }

  /** A candidate is taken when it is a non-empty path to an existing file. */
  predicate Usable(path: string, fileExists: string -> bool) {
    path != "" && fileExists(path)
  }

  /** `r` is the first usable path of `paths`, or `None` when none is usable. */
  ghost predicate IsFirstUsable(paths: seq<string>, fileExists: string -> bool, r: Option<string>) {
    match r
    case None => forall i :: 0 <= i < |paths| ==> !Usable(paths[i], fileExists)
    case Some(p) =>
      exists i :: 0 <= i < |paths| && paths[i] == p && Usable(paths[i], fileExists) &&
        forall j :: 0 <= j < i ==> !Usable(paths[j], fileExists)
  }

  /** At most one answer is the first usable path. */
  lemma FirstUsableUnique(paths: seq<string>, fileExists: string -> bool, r1: Option<string>, r2: Option<string>)
    requires IsFirstUsable(paths, fileExists, r1) && IsFirstUsable(paths, fileExists, r2)
    ensures r1 == r2
  {
    if r1.Some? && r2.Some? {
      var i1 :| 0 <= i1 < |paths| && paths[i1] == r1.value && Usable(paths[i1], fileExists) &&
        forall j :: 0 <= j < i1 ==> !Usable(paths[j], fileExists);
      var i2 :| 0 <= i2 < |paths| && paths[i2] == r2.value && Usable(paths[i2], fileExists) &&
        forall j :: 0 <= j < i2 ==> !Usable(paths[j], fileExists);
      assert i1 == i2;
    }
  }

  /** `_resolve_font_path`: the first candidate that exists, else `None`. */
  method ResolveFontPath(fileExists: string -> bool) returns (path: Option<string>)
    ensures IsFirstUsable(FontCandidates(), fileExists, path)
  {
    var paths := FontCandidates();
    for i := 0 to |paths|
      invariant forall j :: 0 <= j < i ==> !Usable(paths[j], fileExists)
    {
      if paths[i] != "" && fileExists(paths[i]) {
        return Some(paths[i]);
      }
    }
    return None;
  }

  // ===== Font fitting =====

  /** `if not self.font_path`: a font file is used only for a non-empty path. */
  predicate HasFontFile(fontPath: Option<string>) {
    fontPath.Some? && fontPath.value != ""
  }

  /** The largest size the search tries. */
  function SearchCeiling(maxHeight: int): int {
    Max(8, maxHeight)
  }

  /** Line 219: the text's box at this font size fits the width, the height and the area budget. */
  predicate SizeFits(textbbox: TextBBox, path: string, text: string, size: int,
                     maxWidth: int, maxHeight: int, targetArea: real)
  {
    var box := textbbox(TrueType(path, size), text);
    var w, h := box.Width(), box.Height();
    w <= maxWidth && h <= maxHeight && (w * h) as real <= targetArea
  }

  /** Fitting is downward closed: a size that fits makes every smaller size (from 4) fit. */
  ghost predicate DownwardClosed(textbbox: TextBBox, path: string, text: string,
                                 maxWidth: int, maxHeight: int, targetArea: real)
  {
    forall s, t :: 4 <= s <= t && SizeFits(textbbox, path, text, t, maxWidth, maxHeight, targetArea) ==>
      SizeFits(textbbox, path, text, s, maxWidth, maxHeight, targetArea)
  }

  /**
   * What `_fit_font` promises of its font: the default font without a font
   * file; otherwise a size in `[4, max(8, max_height)]` that is 4 or fits, and
   * the largest fitting size of that range whenever fitting is downward closed.
   */
  ghost predicate IsFittedFont(font: Font, fontPath: Option<string>, text: string,
                               maxWidth: int, maxHeight: int, targetArea: real, textbbox: TextBBox)
  {
    if !HasFontFile(fontPath) then font == DefaultFont
    else
      var p := fontPath.value;
      && font.TrueType? && font.path == p
      && 4 <= font.size <= SearchCeiling(maxHeight)
      && (font.size == 4 || SizeFits(textbbox, p, text, font.size, maxWidth, maxHeight, targetArea))
      && (DownwardClosed(textbbox, p, text, maxWidth, maxHeight, targetArea) ==>
            forall s :: (4 <= s <= SearchCeiling(maxHeight) &&
              SizeFits(textbbox, p, text, s, maxWidth, maxHeight, targetArea)) ==> s <= font.size)
  }

  /** The number of halvings that bring `n` down to 1. */
  function Log2(n: nat): nat {
    if n <= 1 then 0 else 1 + Log2(n / 2)
  }

  lemma {:induction false} Log2Monotonic(m: nat, n: nat)
    requires m <= n
    ensures Log2(m) <= Log2(n)
  {
    if m > 1 {
      Log2Monotonic(m / 2, n / 2);
    }
  }

  /** A range cut to at most half its size costs one fewer halving. */
  lemma HalvedRange(n: nat, m: nat)
    requires 1 <= m <= n / 2
    ensures 1 + Log2(m) <= Log2(n)
  {
    Log2Monotonic(m, n / 2);
  }

  /** What the search knows when `size_low` passes `size_high`: its font meets `IsFittedFont`. */
  lemma SearchOutcome(p: string, text: string, maxWidth: int, maxHeight: int, targetArea: real,
                      textbbox: TextBBox, sizeLow: int, sizeHigh: int, bestSize: int)
    requires p != ""
    requires 4 <= sizeLow == sizeHigh + 1 && sizeHigh <= SearchCeiling(maxHeight)
    requires (sizeLow == 4 && bestSize == 4) ||
      (sizeLow > 4 && bestSize == sizeLow - 1 &&
       SizeFits(textbbox, p, text, bestSize, maxWidth, maxHeight, targetArea))
    requires DownwardClosed(textbbox, p, text, maxWidth, maxHeight, targetArea) ==>
      forall s :: sizeHigh < s <= SearchCeiling(maxHeight) ==>
        !SizeFits(textbbox, p, text, s, maxWidth, maxHeight, targetArea)
    ensures IsFittedFont(TrueType(p, bestSize), Some(p), text, maxWidth, maxHeight, targetArea, textbbox)
  {
  }

  /** One probe of `_fit_font`: measures the text at `size` and compares it with the limits. */
  method MeasureFits(textbbox: TextBBox, path: string, text: string, size: int,
                     maxWidth: int, maxHeight: int, targetArea: real)
    returns (fits: bool)
    ensures fits == SizeFits(textbbox, path, text, size, maxWidth, maxHeight, targetArea)
  {
    var box := textbbox(TrueType(path, size), text);
    var textWidth := box.right - box.left;
    var textHeight := box.bottom - box.top;
    var area := textWidth * textHeight;
    fits := textWidth <= maxWidth && textHeight <= maxHeight && area as real <= targetArea;
  }

  /** A size that does not fit rules out every larger size when fitting is downward closed. */
  lemma MissRulesOutLarger(textbbox: TextBBox, path: string, text: string, maxWidth: int, maxHeight: int,
                           targetArea: real, sizeMid: int, sizeHigh: int, ceiling: int)
    requires 4 <= sizeMid && !SizeFits(textbbox, path, text, sizeMid, maxWidth, maxHeight, targetArea)
    requires DownwardClosed(textbbox, path, text, maxWidth, maxHeight, targetArea) ==>
      forall s :: sizeHigh < s <= ceiling ==> !SizeFits(textbbox, path, text, s, maxWidth, maxHeight, targetArea)
    ensures DownwardClosed(textbbox, path, text, maxWidth, maxHeight, targetArea) ==>
      forall s :: sizeMid <= s <= ceiling ==> !SizeFits(textbbox, path, text, s, maxWidth, maxHeight, targetArea)
  {
  }

  /**
   * `_fit_font`: binary search over integer sizes for the largest size whose
   * measured box fits. `probes` lists the sizes measured, at most
   * `log2(range) + 1` of them.
   */
  method FitFont(fontPath: Option<string>, text: string, maxWidth: int, maxHeight: int,
                 targetArea: real, textbbox: TextBBox)
    returns (font: Font, ghost probes: seq<int>)
    ensures IsFittedFont(font, fontPath, text, maxWidth, maxHeight, targetArea, textbbox)
    ensures !HasFontFile(fontPath) ==> probes == []
    ensures font.TrueType? && font.size != 4 ==> font.size in probes
    ensures forall i :: 0 <= i < |probes| ==> 4 <= probes[i] <= SearchCeiling(maxHeight)
    ensures |probes| <= Log2(SearchCeiling(maxHeight) - 3) + 1
  {
    probes := [];
    if !HasFontFile(fontPath) {
      return DefaultFont, probes;
    }
    var path := fontPath.value;
    var sizeLow := 4;
    var sizeHigh := Max(8, maxHeight);
    var bestSize := sizeLow;
    ghost var ceiling := sizeHigh;
    ghost var budget := Log2(ceiling - 3);
    while sizeLow <= sizeHigh
      invariant 4 <= sizeLow <= sizeHigh + 1 && sizeHigh <= ceiling
      invariant (sizeLow == 4 && bestSize == 4) ||
        (sizeLow > 4 && bestSize == sizeLow - 1 && bestSize in probes &&
         SizeFits(textbbox, path, text, bestSize, maxWidth, maxHeight, targetArea))
      invariant DownwardClosed(textbbox, path, text, maxWidth, maxHeight, targetArea) ==>
        forall s :: sizeHigh < s <= ceiling ==>
          !SizeFits(textbbox, path, text, s, maxWidth, maxHeight, targetArea)
      invariant forall i :: 0 <= i < |probes| ==> 4 <= probes[i] <= ceiling
      invariant sizeLow <= sizeHigh ==> |probes| + Log2(sizeHigh - sizeLow + 1) <= budget
      invariant sizeLow > sizeHigh ==> |probes| <= budget + 1
      decreases sizeHigh - sizeLow
    {
      ghost var n := sizeHigh - sizeLow + 1;
      var sizeMid := (sizeLow + sizeHigh) / 2;
      probes := probes + [sizeMid];
      var fits := MeasureFits(textbbox, path, text, sizeMid, maxWidth, maxHeight, targetArea);
      if fits {
        bestSize := sizeMid;
        sizeLow := sizeMid + 1;
      } else {
        MissRulesOutLarger(textbbox, path, text, maxWidth, maxHeight, targetArea, sizeMid, sizeHigh, ceiling);
        sizeHigh := sizeMid - 1;
      }
      if sizeLow <= sizeHigh {
        HalvedRange(n, sizeHigh - sizeLow + 1);
      }
    }
    SearchOutcome(path, text, maxWidth, maxHeight, targetArea, textbbox, sizeLow, sizeHigh, bestSize);
    font := TrueType(path, bestSize);
  }

  /** The inputs `_fit_font` receives: the box limits and the area budget. */
  datatype FitBounds = FitBounds(maxWidth: int, maxHeight: int, targetArea: real)

  /** The margin between content and the cell edge. */
  function ContentMargin(req: ImageGenerationRequest): (m: int)
    ensures 0 <= req.cellWidthPx && 0 <= req.cellHeightPx ==>
      0 <= m <= Min(req.cellWidthPx, req.cellHeightPx) / 25
  {
    Trunc(Min(req.cellWidthPx, req.cellHeightPx) as real * ContentMarginRatio)
  }

  /**
   * `_fit_font_for_date`: the date area (a share of the cell, less the margin)
   * and a budget of 2.5% of the cell area, never above the box area.
   */
  function DateFitBounds(req: ImageGenerationRequest): (b: FitBounds)
    ensures 1 <= b.maxWidth && 1 <= b.maxHeight
    ensures b.targetArea <= (b.maxWidth * b.maxHeight) as real
    ensures b.targetArea <= (req.cellWidthPx * req.cellHeightPx) as real * DateTextAreaRatio
    ensures 0 <= req.cellWidthPx && 0 <= req.cellHeightPx ==>
      b.maxWidth <= Max(1, Trunc(req.cellWidthPx as real * DateAreaWidthRatio))
    ensures 0 <= req.cellWidthPx && 0 <= req.cellHeightPx ==>
      b.maxHeight <= Max(1, Trunc(req.cellHeightPx as real * DateAreaHeightRatio))
  {
    var margin := ContentMargin(req);
    var dateAreaWidth := Trunc(req.cellWidthPx as real * DateAreaWidthRatio) - margin;
    var dateAreaHeight := Trunc(req.cellHeightPx as real * DateAreaHeightRatio) - margin;
    var maxWidth := Max(1, dateAreaWidth);
    var maxHeight := Max(1, dateAreaHeight);
    var cellArea := req.cellWidthPx * req.cellHeightPx;
    FitBounds(maxWidth, maxHeight, MinReal(cellArea as real * DateTextAreaRatio, (maxWidth * maxHeight) as real))
  }

  /** The margin kept inside the triangle around the weekday text. */
  function WeekdayInnerMargin(req: ImageGenerationRequest): (m: int)
    ensures 1 <= m
  {
    Max(1, Trunc(Min(req.cellWidthPx, req.cellHeightPx) as real * ContentMarginRatio * 0.6))
  }

  /**
   * `_fit_font_for_weekday`: 55% of the triangle's legs less twice the inner
   * margin, and a budget of 1.875% of the cell area, never above the box area.
   */
  function WeekdayFitBounds(req: ImageGenerationRequest, left: int, right: int, top: int, bottom: int): (b: FitBounds)
    ensures 1 <= b.maxWidth && 1 <= b.maxHeight
    ensures b.targetArea <= (b.maxWidth * b.maxHeight) as real
    ensures b.targetArea <= (req.cellWidthPx * req.cellHeightPx) as real * WeekdayTextAreaRatio
    ensures b.maxWidth <= Max(1, Max(1, right - left) - 2 * WeekdayInnerMargin(req))
    ensures b.maxHeight <= Max(1, Max(1, bottom - top) - 2 * WeekdayInnerMargin(req))
  {
    var innerMargin := WeekdayInnerMargin(req);
    var triangleWidth := Max(1, right - left);
    var triangleHeight := Max(1, bottom - top);
    var maxWidth0 := Trunc(triangleWidth as real * WeekdayTriangleTextWidthRatio);
    var maxHeight0 := Trunc(triangleHeight as real * WeekdayTriangleTextHeightRatio);
    var maxWidth := Max(1, maxWidth0 - innerMargin * 2);
    var maxHeight := Max(1, maxHeight0 - innerMargin * 2);
    var cellArea := req.cellWidthPx * req.cellHeightPx;
    var maxArea := maxWidth * maxHeight;
    FitBounds(maxWidth, maxHeight, MinReal(cellArea as real * WeekdayTextAreaRatio, maxArea as real))
  }

  /** `_fit_font_for_date`: the date number fitted into its area. */
  method FitFontForDate(fontPath: Option<string>, req: ImageGenerationRequest, textbbox: TextBBox)
    returns (font: Font)
    ensures var b := DateFitBounds(req);
      IsFittedFont(font, fontPath, Str(req.day), b.maxWidth, b.maxHeight, b.targetArea, textbbox)
  {
    var b := DateFitBounds(req);
    ghost var probes;
    font, probes := FitFont(fontPath, Str(req.day), b.maxWidth, b.maxHeight, b.targetArea, textbbox);
  }

  /** `_fit_font_for_weekday`: the weekday label fitted into the triangle. */
  method FitFontForWeekday(fontPath: Option<string>, req: ImageGenerationRequest, t: TriangleBounds, textbbox: TextBBox)
    returns (font: Font)
    ensures var b := WeekdayFitBounds(req, t.left, t.right, t.top, t.bottom);
      IsFittedFont(font, fontPath, req.weekdayChar, b.maxWidth, b.maxHeight, b.targetArea, textbbox)
  {
    var b := WeekdayFitBounds(req, t.left, t.right, t.top, t.bottom);
    ghost var probes;
    font, probes := FitFont(fontPath, req.weekdayChar, b.maxWidth, b.maxHeight, b.targetArea, textbbox);
  }

  /** The fitting inputs of the default 159 x 160 day cell. */
  lemma DefaultCellFitBounds(req: ImageGenerationRequest)
    requires req.cellWidthPx == 159 && req.cellHeightPx == 160
    ensures ContentMargin(req) == 6 && WeekdayInnerMargin(req) == 3
    ensures DateFitBounds(req) == FitBounds(65, 66, 636.0)
    ensures var t := GetTriangleBounds(req, TriangleMargin(req));
      t == TriangleBounds(88, 159, 104, 160, 123) &&
      WeekdayFitBounds(req, t.left, t.right, t.top, t.bottom) == FitBounds(33, 24, 477.0)
  {
  }

  // ===== Triangle geometry =====

  /** The right triangle's box: `left, right, top, bottom` and the horizontal centre. */
  datatype TriangleBounds = TriangleBounds(left: int, right: int, top: int, bottom: int, centerX: int)

  /** The margin between the triangle and the cell edge. */
  function TriangleMargin(req: ImageGenerationRequest): int {
    Trunc(Min(req.cellWidthPx, req.cellHeightPx) as real * TriangleMarginRatio)
  }

  /**
   * `_get_triangle_bounds`: the weekday area's share of the cell, anchored
   * `margin` pixels in from the bottom-right corner.
   */
  function GetTriangleBounds(req: ImageGenerationRequest, margin: int): (t: TriangleBounds)
    ensures t.right == req.cellWidthPx - margin && t.bottom == req.cellHeightPx - margin
    ensures t.right - t.left == Trunc(req.cellWidthPx as real * WeekdayAreaWidthRatio * TriangleWidthRatio)
    ensures t.bottom - t.top == Trunc(req.cellHeightPx as real * WeekdayAreaHeightRatio * TriangleHeightRatio)
    ensures 0 <= req.cellWidthPx ==> t.left <= t.centerX <= t.right
  {
    var triangleWidth := Trunc(req.cellWidthPx as real * WeekdayAreaWidthRatio * TriangleWidthRatio);
    var triangleHeight := Trunc(req.cellHeightPx as real * WeekdayAreaHeightRatio * TriangleHeightRatio);
    var triangleRight := req.cellWidthPx - margin;
    var triangleLeft := triangleRight - triangleWidth;
    var triangleBottom := req.cellHeightPx - margin;
    var triangleTop := triangleBottom - triangleHeight;
    TriangleBounds(triangleLeft, triangleRight, triangleTop, triangleBottom, (triangleLeft + triangleRight) / 2)
  }

  /** With the configured zero margin the triangle sits in the cell's bottom-right corner. */
  lemma TriangleInsideCell(req: ImageGenerationRequest)
    requires 0 <= req.cellWidthPx && 0 <= req.cellHeightPx
    ensures var t := GetTriangleBounds(req, TriangleMargin(req));
      && t.right == req.cellWidthPx && t.bottom == req.cellHeightPx
      && 0 <= t.left <= t.right && 0 <= t.top <= t.bottom
      && t.left >= req.cellWidthPx / 2 && t.top >= req.cellHeightPx / 2
  {
  }

  // ===== Draw positions =====

  /** Lines 265-267: the date's top-left corner, right-aligned one margin in from the top-right corner. */
  function DatePosition(req: ImageGenerationRequest, textWidth: int): (p: (int, int))
    ensures p.0 + textWidth == req.cellWidthPx - ContentMargin(req)
    ensures p.1 == ContentMargin(req)
  {
    var margin := ContentMargin(req);
    (req.cellWidthPx - margin - textWidth, margin)
  }

  /** A date box within the fitting limits lies inside the cell. */
  lemma DateTextInsideCell(req: ImageGenerationRequest, box: BBox)
    requires 1 <= req.cellWidthPx && 1 <= req.cellHeightPx
    requires 0 <= box.Width() <= DateFitBounds(req).maxWidth
    requires 0 <= box.Height() <= DateFitBounds(req).maxHeight
    ensures var p := DatePosition(req, box.Width());
      0 <= p.0 && p.0 + box.Width() <= req.cellWidthPx &&
      0 <= p.1 && p.1 + box.Height() <= req.cellHeightPx
  {
    var margin := ContentMargin(req);
    assert margin <= Min(req.cellWidthPx, req.cellHeightPx) / 25;
  }

  /** The anchor at 38% of the triangle's height in from the right-angle corner. */
  function WeekdayAnchorInset(t: TriangleBounds): int {
    Trunc((t.bottom - t.top) as real * 0.38)
  }

  /** Lines 330-331: the weekday text's top-left corner, centring its box on the anchor. */
  function WeekdayPosition(t: TriangleBounds, textWidth: int, textHeight: int): (p: (int, int))
    ensures p.0 + textWidth / 2 == t.right - WeekdayAnchorInset(t)
    ensures p.1 + textHeight / 2 == t.bottom - WeekdayAnchorInset(t)
  {
    var triangleHeight := t.bottom - t.top;
    (t.right - Trunc(triangleHeight as real * 0.38) - textWidth / 2,
     t.bottom - Trunc(triangleHeight as real * 0.38) - textHeight / 2)
  }

  /**
   * The weekday anchor lies inside the right triangle (right angle at the
   * bottom-right corner) whenever the triangle is at most about 1.6 times as
   * tall as it is wide.
   */
  lemma WeekdayAnchorInsideTriangle(t: TriangleBounds)
    requires t.left < t.right && t.top <= t.bottom
    requires 38 * (t.bottom - t.top) <= 62 * (t.right - t.left)
    ensures var a, w, h := WeekdayAnchorInset(t), t.right - t.left, t.bottom - t.top;
      0 <= a && a * h + a * w <= w * h
  {
    var a, w, h := WeekdayAnchorInset(t), t.right - t.left, t.bottom - t.top;
    assert 0 <= 100 * a <= 38 * h;
    ScaleBound(100 * a, 38 * h, h + w);
    assert 100 * (a * h + a * w) == (100 * a) * (h + w);
    assert (38 * h) * (h + w) == (38 * h) * h + 38 * (h * w);
    ScaleBound(38 * h, 62 * w, h);
    assert (62 * w) * h == 62 * (w * h);
  }

  /** Multiplying both sides by a non-negative factor; kept apart so the solver meets it in isolation. */
  lemma ScaleBound(x: int, y: int, k: int)
    requires x <= y && 0 <= k
    ensures x * k <= y * k
  {
  }

  /** In the default 159 x 160 cell the weekday anchor is inside the triangle. */
  lemma DefaultWeekdayAnchorInside(req: ImageGenerationRequest)
    requires req.cellWidthPx == 159 && req.cellHeightPx == 160
    ensures var t := GetTriangleBounds(req, TriangleMargin(req));
      var a := WeekdayAnchorInset(t);
      a == 21 && a * (t.bottom - t.top) + a * (t.right - t.left) <= (t.right - t.left) * (t.bottom - t.top)
  {
    WeekdayAnchorInsideTriangle(GetTriangleBounds(req, TriangleMargin(req)));
  }

  // ===== Month banner =====

  /** `_get_month_english`: the English month name, empty outside 1..12. */
  function GetMonthEnglish(month: int): (name: string)
    ensures 1 <= month <= 12 ==> name == MonthEnglishNames[month - 1] && name != ""
    ensures !(1 <= month <= 12) ==> name == ""
  {
    if 1 <= month <= 12 then MonthEnglishNames[month - 1] else ""
  }

  /** Different months have different English names. */
  lemma MonthEnglishInjective(m1: int, m2: int)
    requires 1 <= m1 <= 12 && 1 <= m2 <= 12 && GetMonthEnglish(m1) == GetMonthEnglish(m2)
    ensures m1 == m2
  {
  }

  /** `_get_month_label_font`: the banner size, or the default font without a font file. */
  function MonthLabelFont(fontPath: Option<string>, req: ImageGenerationRequest): Font {
    if HasFontFile(fontPath) then TrueType(fontPath.value, GetMonthLabelFontSize(req.cellHeightPx))
    else DefaultFont
  }

  /** `_get_month_english_font`: 38.5% of the banner size, at least 6. */
  function MonthEnglishFont(fontPath: Option<string>, req: ImageGenerationRequest): (font: Font)
    ensures font.TrueType? ==> 6 <= font.size
  {
    var baseSize := GetMonthLabelFontSize(req.cellHeightPx);
    var size := Max(6, Trunc(baseSize as real * MonthLabelEnglishSizeRatio));
    if HasFontFile(fontPath) then TrueType(fontPath.value, size) else DefaultFont
  }

  /** The English name's top edge, just below the month number (line 289). */
  function EnglishLabelY(margin: int, monthFont: Font): int {
    margin + Trunc(FontSize(monthFont) as real * 1.05)
  }

  // ===== Drawing with the raster backend =====

  /** The right triangle's corners: right angle at the bottom-right, then bottom-left, then top-right. */
  function TrianglePoints(t: TriangleBounds): seq<(int, int)> {
    [(t.right, t.bottom), (t.left, t.bottom), (t.right, t.top)]
  }

  /** `_draw_date`: the day number, right-aligned in the date area, in the fitted font. */
  ghost predicate IsDateOp(op: DrawOp, fontPath: Option<string>, req: ImageGenerationRequest, textbbox: TextBBox) {
    && op.Text? && op.text == Str(req.day) && op.fill == RgbaOf(ColorTextDate) && op.strokeWidth == 0
    && var b := DateFitBounds(req);
    && IsFittedFont(op.font, fontPath, op.text, b.maxWidth, b.maxHeight, b.targetArea, textbbox)
    && (op.x, op.y) == DatePosition(req, textbbox(op.font, op.text).Width())
  }

  /** `_draw_month_label`: the two-digit month, then its English name below it, both stroked. */
  function MonthLabelOps(fontPath: Option<string>, req: ImageGenerationRequest, monthFont: Font): seq<DrawOp> {
    var margin := ContentMargin(req);
    [Text(margin, margin, Pad2(req.month), RgbaOf(ColorTextDate), monthFont, 2),
     Text(margin, EnglishLabelY(margin, monthFont), GetMonthEnglish(req.month), RgbaOf(ColorTextDate),
          MonthEnglishFont(fontPath, req), 1)]
  }

  /** `_draw_weekday_with_triangle`, second half: the label centred on the triangle's anchor. */
  ghost predicate IsWeekdayOp(op: DrawOp, fontPath: Option<string>, req: ImageGenerationRequest,
                              t: TriangleBounds, textbbox: TextBBox) {
    && op.Text? && op.text == req.weekdayChar && op.fill == RgbaOf(ColorTextWeekday) && op.strokeWidth == 0
    && var b := WeekdayFitBounds(req, t.left, t.right, t.top, t.bottom);
    && IsFittedFont(op.font, fontPath, op.text, b.maxWidth, b.maxHeight, b.targetArea, textbbox)
    && var box := textbbox(op.font, op.text);
    && (op.x, op.y) == WeekdayPosition(t, box.Width(), box.Height())
  }

  /**
   * The commands `_render_pil` leaves on an image drawn for `req`, in order:
   * the date; on the first of a month the month label; the triangle in the
   * bottom-right corner; the weekday label on it.
   */
  ghost predicate IsPilRendering(img: Bitmap, fontPath: Option<string>, req: ImageGenerationRequest, textbbox: TextBBox) {
    && img.width == req.cellWidthPx && img.height == req.cellHeightPx
    && img.content.Drawn? && img.content.background == Rgba(255, 255, 255, 0)
    && var ops := img.content.ops;
    && var t := GetTriangleBounds(req, TriangleMargin(req));
    && |ops| == (if req.day == 1 then 5 else 3)
    && IsDateOp(ops[0], fontPath, req, textbbox)
    && (req.day == 1 ==> ops[1..3] == MonthLabelOps(fontPath, req, MonthLabelFont(fontPath, req)))
    && ops[|ops| - 2] == Polygon(TrianglePoints(t), RgbaOf(ColorTriangle))
    && IsWeekdayOp(ops[|ops| - 1], fontPath, req, t, textbbox)
  }

  /** `_draw_date`: appends the day number in `font`, right-aligned against the margin. */
  method DrawDate(img: Canvas, fontPath: Option<string>, req: ImageGenerationRequest, font: Font, textbbox: TextBBox)
    returns (ghost op: DrawOp)
    requires var b := DateFitBounds(req);
      IsFittedFont(font, fontPath, Str(req.day), b.maxWidth, b.maxHeight, b.targetArea, textbbox)
    modifies img
    ensures img.ops == old(img.ops) + [op]
    ensures IsDateOp(op, fontPath, req, textbbox)
  {
    var dateText := Str(req.day);
    var dateBox := textbbox(font, dateText);
    var datePos := DatePosition(req, dateBox.right - dateBox.left);
    var dateOp := Text(datePos.0, datePos.1, dateText, RgbaOf(ColorTextDate), font, 0);
    img.Draw(dateOp);
    op := dateOp;
  }

  /** `_draw_month_label`: appends the stroked month number in `font` and the English name below it. */
  method DrawMonthLabel(img: Canvas, fontPath: Option<string>, req: ImageGenerationRequest, font: Font)
    modifies img
    ensures img.ops == old(img.ops) + MonthLabelOps(fontPath, req, font)
  {
    var margin := ContentMargin(req);
    var stroke := Max(1, Trunc(MonthLabelStrokeWidth));
    var monthOp := Text(margin, margin, Pad2(req.month), RgbaOf(ColorTextDate), font, stroke);
    img.Draw(monthOp);
    var englishFont := MonthEnglishFont(fontPath, req);
    var englishY := EnglishLabelY(margin, font);
    var englishStroke := Max(1, Trunc(MonthLabelEnglishStrokeWidth));
    var englishOp := Text(margin, englishY, GetMonthEnglish(req.month), RgbaOf(ColorTextDate), englishFont, englishStroke);
    img.Draw(englishOp);
  }

  /** `_draw_weekday_with_triangle`: appends the corner triangle and the weekday label on it. */
  method DrawWeekdayWithTriangle(img: Canvas, fontPath: Option<string>, req: ImageGenerationRequest,
                                 lineWidth: int, textbbox: TextBBox)
    returns (ghost weekdayOp: DrawOp)
    modifies img
    ensures var t := GetTriangleBounds(req, TriangleMargin(req));
      && img.ops == old(img.ops) + [Polygon(TrianglePoints(t), RgbaOf(ColorTriangle)), weekdayOp]
      && IsWeekdayOp(weekdayOp, fontPath, req, t, textbbox)
  {
    var t := GetTriangleBounds(req, TriangleMargin(req));
    img.Draw(Polygon(TrianglePoints(t), RgbaOf(ColorTriangle)));
    var font := FitFontForWeekday(fontPath, req, t, textbbox);
    var box := textbbox(font, req.weekdayChar);
    var pos := WeekdayPosition(t, box.right - box.left, box.bottom - box.top);
    var op := Text(pos.0, pos.1, req.weekdayChar, RgbaOf(ColorTextWeekday), font, 0);
    img.Draw(op);
    weekdayOp := op;
  }

  /** `_render_pil`: a transparent cell-sized canvas with the date, month label, triangle and weekday drawn on it. */
  method RenderPil(fontPath: Option<string>, req: ImageGenerationRequest, scale: int, textbbox: TextBBox)
    returns (img: Canvas)
    ensures fresh(img)
    ensures IsPilRendering(img.Snapshot(), fontPath, req, textbbox)
  {
    img := new Canvas(req.cellWidthPx, req.cellHeightPx, Rgba(255, 255, 255, 0));
    var lineWidth := Max(1, Trunc(LineWidth * scale as real));
    var dateFont := FitFontForDate(fontPath, req, textbbox);
    ghost var dateOp := DrawDate(img, fontPath, req, dateFont, textbbox);
    ghost var monthOps: seq<DrawOp> := [];
    if req.day == 1 {
      var monthFont := MonthLabelFont(fontPath, req);
      DrawMonthLabel(img, fontPath, req, monthFont);
      monthOps := MonthLabelOps(fontPath, req, monthFont);
    }
    ghost var weekdayOp := DrawWeekdayWithTriangle(img, fontPath, req, lineWidth, textbbox);
    ghost var t := GetTriangleBounds(req, TriangleMargin(req));
    assert img.ops == [dateOp] + monthOps + [Polygon(TrianglePoints(t), RgbaOf(ColorTriangle)), weekdayOp];
  }

  // ===== SVG colour text =====

  /** `_rgb_color`: the red, green and blue parts of a colour as SVG `rgb(r, g, b)` text. */
  function RgbColor(color: (int, int, int, int)): (text: string)
    ensures |text| >= 5 && text[..4] == "rgb(" && text[|text| - 1] == ')'
  {
    "rgb(" + (Str(color.0) + (", " + (Str(color.1) + (", " + (Str(color.2) + ")")))))
  }

  /** Two digit strings each followed by a comma split a text at the same place. */
  lemma DigitsBeforeComma(x1: string, r1: string, x2: string, r2: string)
    requires AllDigits(x1) && AllDigits(x2)
    requires |r1| > 0 && r1[0] == ',' && |r2| > 0 && r2[0] == ','
    requires x1 + r1 == x2 + r2
    ensures x1 == x2 && r1 == r2
  {
    var t := x1 + r1;
    assert t[|x1|] == ',' && (x2 + r2)[|x2|] == ',';
    assert forall i :: 0 <= i < |x2| ==> (x2 + r2)[i] == x2[i];
    assert forall i :: 0 <= i < |x1| ==> t[i] == x1[i];
    assert |x1| == |x2|;
    assert x1 == t[..|x1|] && x2 == (x2 + r2)[..|x2|];
    assert r1 == t[|x1|..] && r2 == (x2 + r2)[|x2|..];
  }

  /** A number written before a comma is read back, and so is what follows it. */
  lemma NumberBeforeComma(n1: int, r1: string, n2: int, r2: string)
    requires 0 <= n1 && 0 <= n2
    requires |r1| > 0 && r1[0] == ',' && |r2| > 0 && r2[0] == ','
    requires Str(n1) + r1 == Str(n2) + r2
    ensures n1 == n2 && r1 == r2
  {
    DigitsBeforeComma(Str(n1), r1, Str(n2), r2);
    StrInjective(n1, n2);
  }

  /** The text after the red component determines green and blue. */
  lemma GreenBlueInjective(g1: int, b1: int, g2: int, b2: int)
    requires 0 <= g1 && 0 <= b1 && 0 <= g2 && 0 <= b2
    requires ", " + (Str(g1) + (", " + (Str(b1) + ")"))) == ", " + (Str(g2) + (", " + (Str(b2) + ")")))
    ensures g1 == g2 && b1 == b2
  {
    var last1, last2 := Str(b1) + ")", Str(b2) + ")";
    var tail1, tail2 := ", " + last1, ", " + last2;
    var rest1, rest2 := ", " + (Str(g1) + tail1), ", " + (Str(g2) + tail2);
    assert rest1[2..] == Str(g1) + tail1 && rest2[2..] == Str(g2) + tail2;
    NumberBeforeComma(g1, tail1, g2, tail2);
    assert tail1[2..] == last1 && tail2[2..] == last2;
    assert last1[..|last1| - 1] == Str(b1) && last2[..|last2| - 1] == Str(b2);
    StrInjective(b1, b2);
  }

  /** For non-negative components the text determines the colour's red, green and blue. */
  lemma RgbColorInjective(c1: (int, int, int, int), c2: (int, int, int, int))
    requires 0 <= c1.0 && 0 <= c1.1 && 0 <= c1.2 && 0 <= c2.0 && 0 <= c2.1 && 0 <= c2.2
    requires RgbColor(c1) == RgbColor(c2)
    ensures c1.0 == c2.0 && c1.1 == c2.1 && c1.2 == c2.2
  {
    var rest1 := ", " + (Str(c1.1) + (", " + (Str(c1.2) + ")")));
    var rest2 := ", " + (Str(c2.1) + (", " + (Str(c2.2) + ")")));
    assert RgbColor(c1)[4..] == Str(c1.0) + rest1;
    assert RgbColor(c2)[4..] == Str(c2.0) + rest2;
    NumberBeforeComma(c1.0, rest1, c2.0, rest2);
    GreenBlueInjective(c1.1, c1.2, c2.1, c2.2);
  }

  /** The supersampling factor of the raster backend: `max(1, int(RENDER_SCALE))`. */
  function PilScale(): (scale: int)
    ensures 1 <= scale && scale == 4
  {
    Max(1, Trunc(RenderScale))
  }

  /** The request `_create_pil_image` draws: the same cell, `scale` times wider and taller. */
  function ScaledRequest(req: ImageGenerationRequest, scale: int): (r: ImageGenerationRequest)
    ensures r.month == req.month && r.day == req.day && r.weekdayChar == req.weekdayChar
    ensures r.isWeekend == req.isWeekend
    ensures r.cellWidthPx == req.cellWidthPx * scale && r.cellHeightPx == req.cellHeightPx * scale
    ensures scale == 1 ==> r == req
  {
    if scale == 1 then req
    else ImageGenerationRequest(
      month := req.month,
      day := req.day,
      weekdayChar := req.weekdayChar,
      cellWidthPx := req.cellWidthPx * scale,
      cellHeightPx := req.cellHeightPx * scale,
      isWeekend := req.isWeekend)
  }

  /**
   * `_create_pil_image`: draws the scaled request and returns that image as
   * it is, `scale` times the requested size (no downsampling step).
   */
  method CreatePilImage(fontPath: Option<string>, req: ImageGenerationRequest, textbbox: TextBBox)
    returns (img: Canvas)
    ensures fresh(img)
    ensures IsPilRendering(img.Snapshot(), fontPath, ScaledRequest(req, PilScale()), textbbox)
    ensures img.width == req.cellWidthPx * PilScale() && img.height == req.cellHeightPx * PilScale()
  {
    var scale := Max(1, Trunc(RenderScale));
    if scale == 1 {
      img := RenderPil(fontPath, req, scale, textbbox);
      return;
    }
    var highResRequest := ScaledRequest(req, scale);
    img := RenderPil(fontPath, highResRequest, scale, textbbox);
  }

  /** `_create_svg_image`, reduced to its outcome: a raster of exactly the requested size, or a failure. */
  function SvgAttempt(req: ImageGenerationRequest, svgSucceeds: ImageGenerationRequest -> bool): (r: Option<Bitmap>)
    ensures r.Some? <==> svgSucceeds(req)
    ensures r.Some? ==> r.value.width == req.cellWidthPx && r.value.height == req.cellHeightPx
  {
    if svgSucceeds(req) then Some(Bitmap(req.cellWidthPx, req.cellHeightPx, FromSvg(req))) else None
  }

  /**
   * `create_image`: the SVG backend when `cairosvg` imported and the attempt
   * succeeds, otherwise the raster backend; never a failure.
   */
  method CreateImage(cairoAvailable: bool, svgSucceeds: ImageGenerationRequest -> bool,
                     fontPath: Option<string>, req: ImageGenerationRequest, textbbox: TextBBox)
    returns (img: Bitmap)
    ensures cairoAvailable && svgSucceeds(req) ==>
      img == Bitmap(req.cellWidthPx, req.cellHeightPx, FromSvg(req))
    ensures !(cairoAvailable && svgSucceeds(req)) ==>
      IsPilRendering(img, fontPath, ScaledRequest(req, PilScale()), textbbox)
  {
    if cairoAvailable {
      var attempt := SvgAttempt(req, svgSucceeds);
      if attempt.Some? {
        return attempt.value;
      }
    }
    var canvas := CreatePilImage(fontPath, req, textbbox);
    img := canvas.Snapshot();
  }

  /**
   * As written, the raster fallback hands back an image four times the
   * requested width and height; only the SVG backend matches the request.
   */
  lemma FallbackSizeMismatch(req: ImageGenerationRequest, img: Bitmap, fontPath: Option<string>, textbbox: TextBBox)
    requires 1 <= req.cellWidthPx && 1 <= req.cellHeightPx
    requires IsPilRendering(img, fontPath, ScaledRequest(req, PilScale()), textbbox)
    ensures img.width == 4 * req.cellWidthPx > req.cellWidthPx
    ensures img.height == 4 * req.cellHeightPx > req.cellHeightPx
  {
  }
}
