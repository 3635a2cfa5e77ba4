/**
 * `FullImageExporter`: lays the whole year out on one image, a row of 31
 * slots per month with a spacer row between months, and pastes a rendered
 * cell image into every slot that holds a date. The cell renderer is a
 * parameter (`render`); saving the file is left out.
 */
module FullImageExporter {
  import opened Wrappers
  import opened PyNum
  import opened CalendarConfig
  import opened CalendarModels
  import opened Gregorian
  import opened CalendarService
  import opened Raster
  import CellImageService

  // ===== `_hex_to_rgb` and Python's `int(text, 16)` =====

  predicate IsHexDigit(c: char) {
    '0' <= c <= '9' || 'a' <= c <= 'f' || 'A' <= c <= 'F'
  }

  function HexDigitValue(c: char): (v: int)
    requires IsHexDigit(c)
    ensures 0 <= v < 16
  {
    if '0' <= c <= '9' then c as int - '0' as int
    else if 'a' <= c <= 'f' then c as int - 'a' as int + 10
    else c as int - 'A' as int + 10
  }

  predicate AllHex(s: string) {
    forall i :: 0 <= i < |s| ==> IsHexDigit(s[i])
  }

  /** The value of a string of hexadecimal digits, most significant first. */
  function HexValue(s: string): (v: nat)
    requires AllHex(s)
    ensures |s| <= 1 ==> v < 16
    ensures |s| <= 2 ==> v < 256
  {
    if |s| == 0 then 0 else 16 * HexValue(s[..|s| - 1]) + HexDigitValue(s[|s| - 1])
  }

  /** The ASCII characters Python's `str.strip()` removes (tab to carriage return, 0x1C to 0x1F, space). */
  predicate IsSpace(c: char) {
    9 <= c as int <= 13 || 28 <= c as int <= 32
  }

  function StripLeading(s: string): (t: string)
    ensures |t| <= |s| && t == s[|s| - |t|..]
    ensures |t| > 0 ==> !IsSpace(t[0])
    ensures forall i :: 0 <= i < |s| - |t| ==> IsSpace(s[i])
  {
    if |s| > 0 && IsSpace(s[0]) then StripLeading(s[1..]) else s
  }

  function StripTrailing(s: string): (t: string)
    ensures |t| <= |s| && t == s[..|t|]
    ensures |t| > 0 ==> !IsSpace(t[|t| - 1])
    ensures forall i :: |t| <= i < |s| ==> IsSpace(s[i])
  {
    if |s| > 0 && IsSpace(s[|s| - 1]) then StripTrailing(s[..|s| - 1]) else s
  }

  /** Digits with single underscores between them, as Python's integer syntax allows. */
  predicate WellFormedDigits(d: string) {
    && |d| >= 1 && IsHexDigit(d[0]) && IsHexDigit(d[|d| - 1])
    && (forall i :: 0 <= i < |d| ==> IsHexDigit(d[i]) || d[i] == '_')
    && (forall i :: 0 <= i < |d| - 1 ==> d[i] == '_' ==> d[i + 1] != '_')
  }

  /** Drops the `_` separators and keeps every digit, in order. */
  function RemoveUnderscores(d: string): (r: string)
    requires forall i :: 0 <= i < |d| ==> IsHexDigit(d[i]) || d[i] == '_'
    ensures AllHex(r) && |r| <= |d|
    ensures AllHex(d) ==> r == d
    ensures multiset(r) == multiset(d)['_' := 0]
  {
    if |d| == 0 then ""
    else
      assert d == d[..|d| - 1] + [d[|d| - 1]];
      if d[|d| - 1] == '_' then RemoveUnderscores(d[..|d| - 1])
      else RemoveUnderscores(d[..|d| - 1]) + [d[|d| - 1]]
  }

  /** One step of `RemoveUnderscores`: the last character is kept unless it is `_`. */
  lemma RemoveUnderscoresLast(d: string)
    requires |d| > 0 && forall i :: 0 <= i < |d| ==> IsHexDigit(d[i]) || d[i] == '_'
    ensures RemoveUnderscores(d) ==
      RemoveUnderscores(d[..|d| - 1]) + (if d[|d| - 1] == '_' then "" else [d[|d| - 1]])
  {
  }

  /**
   * Removing separators works piece by piece: with a single character
   * dropped exactly when it is `_`, this pins the result down as the
   * digits of `d` in their original order.
   */
  lemma {:induction false} RemoveUnderscoresAppend(a: string, b: string)
    requires forall i :: 0 <= i < |a| ==> IsHexDigit(a[i]) || a[i] == '_'
    requires forall i :: 0 <= i < |b| ==> IsHexDigit(b[i]) || b[i] == '_'
    ensures RemoveUnderscores(a + b) == RemoveUnderscores(a) + RemoveUnderscores(b)
  {
    if |b| == 0 {
      assert a + b == a;
    } else {
      var ab, init, c := a + b, b[..|b| - 1], b[|b| - 1];
      var last: string := if c == '_' then "" else [c];
      assert ab[..|ab| - 1] == a + init && ab[|ab| - 1] == c;
      RemoveUnderscoresLast(ab);
      RemoveUnderscoresLast(b);
      RemoveUnderscoresAppend(a, init);
      var front, middle := RemoveUnderscores(a), RemoveUnderscores(init);
      assert front + (middle + last) == (front + middle) + last;
    }
  }

  /** `str.strip()` for ASCII whitespace. */
  function Strip(text: string): string {
    StripTrailing(StripLeading(text))
  }

  /** The sign in front of the digits, if any: whether it is `-`, and what follows it. */
  function SplitSign(t: string): (bool, string) {
    if |t| > 0 && (t[0] == '+' || t[0] == '-') then (t[0] == '-', t[1..]) else (false, t)
  }

  /** Drops a `0x` or `0X` prefix and one underscore after it. */
  function DropPrefix(body: string): string {
    if |body| >= 2 && body[0] == '0' && (body[1] == 'x' || body[1] == 'X') then
      var rest := body[2..];
      if |rest| > 0 && rest[0] == '_' then rest[1..] else rest
    else body
  }

  /**
   * `int(text, 16)`: surrounding whitespace, an optional sign, an optional
   * `0x` prefix (which may be followed by one underscore), then hexadecimal
   * digits with single underscores between them; `None` is the `ValueError`.
   */
  function ParseHexInt(text: string): Option<int> {
    var signed := SplitSign(Strip(text));
    var digits := DropPrefix(signed.1);
    if !WellFormedDigits(digits) then None
    else
      var magnitude: int := HexValue(RemoveUnderscores(digits));
      Some(if signed.0 then -magnitude else magnitude)
  }

  /** A plain run of hexadecimal digits is read as its value. */
  lemma ParseHexDigits(text: string)
    requires |text| >= 1 && AllHex(text)
    ensures ParseHexInt(text) == Some(HexValue(text))
  {
    assert IsHexDigit(text[0]) && IsHexDigit(text[|text| - 1]);
    StripKeepsInner(text);
    DigitsWellFormed(text);
    UnsignedUnprefixed(text);
    ParseBareDigits(text);
  }

  lemma UnsignedUnprefixed(text: string)
    requires |text| >= 1 && AllHex(text)
    ensures SplitSign(text) == (false, text) && DropPrefix(text) == text
  {
    assert IsHexDigit(text[0]);
  }

  lemma ParseBareDigits(text: string)
    requires AllHex(text) && WellFormedDigits(text)
    requires Strip(text) == text && SplitSign(text) == (false, text) && DropPrefix(text) == text
    ensures ParseHexInt(text) == Some(HexValue(text))
  {
  }

  lemma StripKeepsInner(text: string)
    requires |text| >= 1 && !IsSpace(text[0]) && !IsSpace(text[|text| - 1])
    ensures Strip(text) == text
  {
  }

  lemma DigitsWellFormed(text: string)
    requires |text| >= 1 && AllHex(text)
    ensures WellFormedDigits(text)
  {
  }

  /** Text that is empty or only whitespace is a `ValueError`. */
  lemma ParseHexBlank(text: string)
    requires forall i :: 0 <= i < |text| ==> IsSpace(text[i])
    ensures ParseHexInt(text) == None
  {
  }

  /** Python's slice `s[i:j]` for `0 <= i <= j`, clamped to the string's end. */
  function Slice(s: string, i: nat, j: nat): (t: string)
    requires i <= j
    ensures |t| <= j - i
  {
    if |s| <= i then "" else if |s| <= j then s[i..] else s[i..j]
  }

  /**
   * `_hex_to_rgb`: drops the alpha pair of an eight-character ARGB string
   * and reads the next three pairs as red, green and blue.
   */
  function HexToRgb(argb: string): (c: Option<Color>)
    ensures c.Some? ==> c.value.Rgb?
    ensures |argb| <= 4 ==> c == None
  {
    var value := if |argb| == 8 then argb[2..] else argb;
    var red := ParseHexInt(Slice(value, 0, 2));
    var green := ParseHexInt(Slice(value, 2, 4));
    var blue := ParseHexInt(Slice(value, 4, 6));
    if red.Some? && green.Some? && blue.Some? then Some(Rgb(red.value, green.value, blue.value)) else None
  }

  function HexDigitChar(v: int): (c: char)
    requires 0 <= v < 16
    ensures IsHexDigit(c) && HexDigitValue(c) == v
  {
    "0123456789ABCDEF"[v]
  }

  /** A byte as two upper-case hexadecimal digits. */
  function HexByte(n: int): (s: string)
    requires 0 <= n < 256
    ensures |s| == 2 && AllHex(s)
  {
    [HexDigitChar(n / 16), HexDigitChar(n % 16)]
  }

  lemma HexByteValue(n: int)
    requires 0 <= n < 256
    ensures HexValue(HexByte(n)) == n
  {
    var s := HexByte(n);
    assert s[..1] == [s[0]] && s[..1][..0] == [];
  }

  /** A pair of digits written for `n` inside a longer string is read back as `n`. */
  lemma PairAt(value: string, i: nat, n: int)
    requires 0 <= n < 256 && i + 2 <= |value| && value[i..i + 2] == HexByte(n)
    ensures ParseHexInt(Slice(value, i, i + 2)) == Some(n)
  {
    assert Slice(value, i, i + 2) == HexByte(n);
    ParseHexDigits(HexByte(n));
    HexByteValue(n);
  }

  lemma ReadPairs(value: string, r: int, g: int, b: int)
    requires |value| == 6
    requires ParseHexInt(Slice(value, 0, 2)) == Some(r)
    requires ParseHexInt(Slice(value, 2, 4)) == Some(g)
    requires ParseHexInt(Slice(value, 4, 6)) == Some(b)
    ensures HexToRgb(value) == Some(Rgb(r, g, b))
  {
  }

  /** Reading the pairs of an RGB string recovers the colour written into it. */
  lemma HexToRgbRgbRoundTrip(r: int, g: int, b: int)
    requires 0 <= r < 256 && 0 <= g < 256 && 0 <= b < 256
    ensures HexToRgb(HexByte(r) + HexByte(g) + HexByte(b)) == Some(Rgb(r, g, b))
  {
    var value := HexByte(r) + HexByte(g) + HexByte(b);
    assert value[0..2] == HexByte(r);
    assert value[2..4] == HexByte(g);
    assert value[4..6] == HexByte(b);
    PairAt(value, 0, r);
    PairAt(value, 2, g);
    PairAt(value, 4, b);
    ReadPairs(value, r, g, b);
  }

  /** An ARGB string loses its alpha pair and is then read as RGB. */
  lemma HexToRgbArgbRoundTrip(a: int, r: int, g: int, b: int)
    requires 0 <= a < 256 && 0 <= r < 256 && 0 <= g < 256 && 0 <= b < 256
    ensures HexToRgb(HexByte(a) + HexByte(r) + HexByte(g) + HexByte(b)) == Some(Rgb(r, g, b))
  {
    var s := HexByte(a) + HexByte(r) + HexByte(g) + HexByte(b);
    var value := s[2..];
    assert value == HexByte(r) + HexByte(g) + HexByte(b);
    HexToRgbRgbRoundTrip(r, g, b);
  }

  /** The configured month banner fill. */
  lemma MonthBgColor()
    ensures HexToRgb(ColorMonthBg) == Some(Rgb(46, 90, 162))
  {
    assert ColorMonthBg == HexByte(255) + HexByte(46) + HexByte(90) + HexByte(162) by {
      assert HexByte(255) == "FF" && HexByte(46) == "2E";
      assert HexByte(90) == "5A" && HexByte(162) == "A2";
    }
    HexToRgbArgbRoundTrip(255, 46, 90, 162);
  }

  /** The weekend slot fill, as `_hex_to_rgb` reads the configured weekend colour. */
  const WeekendFill: Color := Rgb(232, 244, 255)

  /** The weekday and blank slot fill, as `_hex_to_rgb` reads the configured weekday colour. */
  const WeekdayFill: Color := Rgb(255, 255, 255)

  /** The configured weekend fill. */
  lemma WeekendBgColor()
    ensures HexToRgb(ColorWeekendBg) == Some(WeekendFill)
  {
    assert ColorWeekendBg == HexByte(255) + HexByte(232) + HexByte(244) + HexByte(255) by {
      assert HexByte(255) == "FF" && HexByte(232) == "E8" && HexByte(244) == "F4";
    }
    HexToRgbArgbRoundTrip(255, 232, 244, 255);
  }

  /** The configured weekday fill. */
  lemma WeekdayBgColor()
    ensures HexToRgb(ColorWeekdayBg) == Some(WeekdayFill)
  {
    assert ColorWeekdayBg == HexByte(255) + HexByte(255) + HexByte(255) + HexByte(255) by {
      assert HexByte(255) == "FF";
    }
    HexToRgbArgbRoundTrip(255, 255, 255, 255);
  }

  // ===== `_get_row_heights` =====

  /** The spacer row's height: a quarter of the day row, rounded. */
  function SpacerHeight(): (h: int)
    ensures h == 40
  {
    RoundInteger(40);
    RoundHalfEven(GetDayCellHeightPx() as real * MonthSpacerHeightRatio)
  }

  /** Twelve month rows with a spacer row between consecutive months. */
  predicate IsRowHeights(heights: seq<int>) {
    && |heights| == 23
    && forall i :: 0 <= i < |heights| ==>
         heights[i] == if i % 2 == 0 then GetDayCellHeightPx() else SpacerHeight()
  }

  /** `_get_row_heights`. */
  method GetRowHeights() returns (heights: seq<int>)
    ensures IsRowHeights(heights)
  {
    var rowHeight := GetDayCellHeightPx();
    var spacerHeight := RoundHalfEven(rowHeight as real * MonthSpacerHeightRatio);
    heights := [];
    for month := 1 to 13
      invariant |heights| == if month <= 12 then 2 * (month - 1) else 23
      invariant forall i :: 0 <= i < |heights| ==>
        heights[i] == if i % 2 == 0 then rowHeight else spacerHeight
    {
      heights := heights + [rowHeight];
      if month < 12 {
        heights := heights + [spacerHeight];
      }
    }
  }

  /** `sum`. */
  function Sum(s: seq<int>): int {
    if |s| == 0 then 0 else Sum(s[..|s| - 1]) + s[|s| - 1]
  }

  /** The top of row `k + 1`: `k` rows above it, alternately 160 and 40 pixels tall. */
  lemma {:induction false} RowTop(heights: seq<int>, k: nat)
    requires IsRowHeights(heights) && k <= 23
    ensures Sum(heights[..k]) == (k + 1) / 2 * 160 + k / 2 * 40
  {
    if k > 0 {
      assert heights[..k][..k - 1] == heights[..k - 1];
      assert Sum(heights[..k]) == Sum(heights[..k - 1]) + heights[k - 1];
      RowTop(heights, k - 1);
      if k % 2 == 1 {
        assert heights[k - 1] == 160 && (k + 1) / 2 == k / 2 + 1 && (k - 1) / 2 == k / 2;
      } else {
        assert heights[k - 1] == 40 && (k + 1) / 2 == k / 2 && k / 2 == (k - 1) / 2 + 1;
      }
    }
  }

  /** Month `m`'s row starts 200 pixels below month `m - 1`'s; the image is 2360 pixels tall. */
  lemma MonthRowTop(heights: seq<int>, month: int)
    requires IsRowHeights(heights) && 1 <= month <= 12
    ensures Sum(heights[..2 * month - 2]) == 200 * (month - 1)
    ensures Sum(heights) == 2360
  {
    RowTop(heights, 2 * month - 2);
    RowTop(heights, 23);
    assert heights[..23] == heights;
  }

  // ===== `_build_day_map` =====

  /** A day map key: the cell's month and day, either of which may be absent. */
  type DayKey = (Option<int>, Option<int>)

  function KeyOf(cell: CellInfo): DayKey {
    (cell.month, cell.day)
  }

  /** The map after storing the day cells of `cells` in order; a later cell replaces an earlier one. */
  function PutCells(m: map<DayKey, CellInfo>, cells: seq<CellInfo>): map<DayKey, CellInfo> {
    if |cells| == 0 then m
    else
      var before := PutCells(m, cells[..|cells| - 1]);
      var cell := cells[|cells| - 1];
      if cell.kind == "day" then before[KeyOf(cell) := cell] else before
  }

  /** The map after storing the day cells of every month in order. */
  function DayMapOf(months: seq<MonthData>): map<DayKey, CellInfo> {
    if |months| == 0 then map[]
    else PutCells(DayMapOf(months[..|months| - 1]), months[|months| - 1].cells)
  }

  /** `_build_day_map`. */
  method BuildDayMap(data: YearCalendarData) returns (dayMap: map<DayKey, CellInfo>)
    ensures dayMap == DayMapOf(data.months)
  {
    dayMap := map[];
    for i := 0 to |data.months|
      invariant dayMap == DayMapOf(data.months[..i])
    {
      var monthData := data.months[i];
      ghost var before := dayMap;
      for j := 0 to |monthData.cells|
        invariant dayMap == PutCells(before, monthData.cells[..j])
      {
        var cell := monthData.cells[j];
        if cell.kind == "day" {
          dayMap := dayMap[(cell.month, cell.day) := cell];
        }
        assert monthData.cells[..j + 1][..j] == monthData.cells[..j];
      }
      assert monthData.cells[..|monthData.cells|] == monthData.cells;
      assert data.months[..i + 1][..i] == data.months[..i];
    }
    assert data.months[..|data.months|] == data.months;
  }

  /** Every key stored so far belongs to one of the first `j` days of `month`. */
  ghost predicate InMonthPrefix(key: DayKey, month: int, j: int) {
    key.0 == Some(month) && key.1.Some? && 1 <= key.1.value <= j
  }

  /** A valid date in one of the first `k` months of `year`. */
  ghost predicate InYearPrefix(year: int, key: DayKey, k: int) {
    && key.0.Some? && key.1.Some?
    && 1 <= key.0.value <= k && key.0.value <= 12
    && 1 <= key.1.value <= DaysInMonth(year, key.0.value)
  }

  lemma {:induction false} PutServiceCells(m0: map<DayKey, CellInfo>, md: MonthData, year: int, month: int, j: nat)
    requires 1 <= month <= 12 && IsServiceMonth(md, year, month) && j <= |md.cells|
    ensures forall key :: key in PutCells(m0, md.cells[..j]) <==> key in m0 || InMonthPrefix(key, month, j)
    ensures forall key :: key in PutCells(m0, md.cells[..j]) ==>
      PutCells(m0, md.cells[..j])[key] ==
        if InMonthPrefix(key, month, j) then DayCell(year, month, key.1.value) else m0[key]
  {
    if j > 0 {
      assert md.cells[..j][..j - 1] == md.cells[..j - 1];
      PutServiceCells(m0, md, year, month, j - 1);
      assert md.cells[..j][j - 1] == DayCell(year, month, j);
    }
  }

  lemma {:induction false} ServiceDayMapPrefix(data: YearCalendarData, k: nat)
    requires IsServiceYear(data) && k <= 12
    ensures forall key :: key in DayMapOf(data.months[..k]) <==> InYearPrefix(data.year, key, k)
    ensures forall key :: key in DayMapOf(data.months[..k]) ==>
      InYearPrefix(data.year, key, k) &&
      DayMapOf(data.months[..k])[key] == DayCell(data.year, key.0.value, key.1.value)
  {
    if k > 0 {
      assert data.months[..k][..k - 1] == data.months[..k - 1];
      ServiceDayMapPrefix(data, k - 1);
      var md := data.months[k - 1];
      assert IsServiceMonth(md, data.year, k);
      PutServiceCells(DayMapOf(data.months[..k - 1]), md, data.year, k, |md.cells|);
      assert md.cells[..|md.cells|] == md.cells;
    }
  }

  /**
   * For a year built by `CalendarService`, the day map holds exactly the
   * year's dates, each mapped to that date's day cell.
   */
  lemma ServiceDayMap(data: YearCalendarData)
    requires IsServiceYear(data)
    ensures forall key :: key in DayMapOf(data.months) <==> InYearPrefix(data.year, key, 12)
    ensures forall month, day :: 1 <= month <= 12 && 1 <= day <= DaysInMonth(data.year, month) ==>
      (Some(month), Some(day)) in DayMapOf(data.months) &&
      DayMapOf(data.months)[(Some(month), Some(day))] == DayCell(data.year, month, day)
  {
    ServiceDayMapPrefix(data, 12);
    assert data.months[..12] == data.months;
    forall month, day | 1 <= month <= 12 && 1 <= day <= DaysInMonth(data.year, month)
      ensures (Some(month), Some(day)) in DayMapOf(data.months)
    {
      assert InYearPrefix(data.year, (Some(month), Some(day)), 12);
    }
  }

  // ===== `render_year_image` =====

  /** Why an export stops: a date without a day cell (the `KeyError`), or a day cell without a weekday label. */
  datatype ExportError = MissingDay(month: int, day: int) | MissingWeekdayLabel(month: int, day: int)

  /** The drawing commands of a finished stretch of the image, or the error that stopped the export. */
  datatype Outcome = Done(ops: seq<DrawOp>) | Failed(error: ExportError)

  /** `CellImageService.create_image`, as seen by the exporter. */
  type CellRenderer = ImageGenerationRequest -> Bitmap

  /** The commands for slot `col` of `month`'s row, whose top is `y`. */
  function SlotOutcome(dayMap: map<DayKey, CellInfo>, year: int, month: int, col: int, y: int, rowHeight: int,
                       render: CellRenderer): Outcome
    requires 1 <= month <= 12
  {
    var cellWidth := GetDayCellWidthPx();
    var x := (col - 1) * cellWidth;
    var border := BorderRect(x, y, x + cellWidth, y + rowHeight, Rgb(0, 0, 0), 1);
    if col <= DaysInMonth(year, month) then
      var key := (Some(month), Some(col));
      if key !in dayMap then Failed(MissingDay(month, col))
      else
        var cell := dayMap[key];
        if cell.weekdayChar.None? then Failed(MissingWeekdayLabel(month, col))
        else
          var fill := if cell.isWeekend then WeekendFill else WeekdayFill;
          var request := ImageGenerationRequest(month, col, cell.weekdayChar.value, cellWidth, rowHeight, cell.isWeekend);
          Done([FillRect(x, y, x + cellWidth, y + rowHeight, fill), Paste(render(request), x, y), border])
    else
      Done([FillRect(x, y, x + cellWidth, y + rowHeight, WeekdayFill), border])
  }

  /** The commands for the first `c` slots of `month`'s row, stopping at the first error. */
  function MonthRowOutcome(dayMap: map<DayKey, CellInfo>, year: int, month: int, y: int, rowHeight: int,
                           render: CellRenderer, c: nat): Outcome
    requires 1 <= month <= 12
  {
    if c == 0 then Done([])
    else
      var before := MonthRowOutcome(dayMap, year, month, y, rowHeight, render, c - 1);
      if before.Failed? then before
      else
        var slot := SlotOutcome(dayMap, year, month, c, y, rowHeight, render);
        if slot.Failed? then slot else Done(before.ops + slot.ops)
  }

  /** The commands for the first `r` rows: odd rows are months, even rows are blank spacers. */
  function YearOutcome(dayMap: map<DayKey, CellInfo>, year: int, heights: seq<int>, render: CellRenderer, r: nat): Outcome
    requires r <= |heights| <= 23
  {
    if r == 0 then Done([])
    else
      var before := YearOutcome(dayMap, year, heights, render, r - 1);
      if before.Failed? || r % 2 == 0 then before
      else
        var row := MonthRowOutcome(dayMap, year, (r + 1) / 2, Sum(heights[..r - 1]), heights[r - 1], render, DaysPerMonthMax);
        if row.Failed? then row else Done(before.ops + row.ops)
  }

  lemma {:induction false} MonthRowFailureStays(dayMap: map<DayKey, CellInfo>, year: int, month: int, y: int, rowHeight: int,
                                                render: CellRenderer, c: nat, c': nat)
    requires 1 <= month <= 12 && c <= c'
    requires MonthRowOutcome(dayMap, year, month, y, rowHeight, render, c).Failed?
    ensures MonthRowOutcome(dayMap, year, month, y, rowHeight, render, c') ==
      MonthRowOutcome(dayMap, year, month, y, rowHeight, render, c)
  {
    if c < c' {
      MonthRowFailureStays(dayMap, year, month, y, rowHeight, render, c, c' - 1);
    }
  }

  lemma {:induction false} YearFailureStays(dayMap: map<DayKey, CellInfo>, year: int, heights: seq<int>,
                                            render: CellRenderer, r: nat, r': nat)
    requires r <= r' <= |heights| <= 23
    requires YearOutcome(dayMap, year, heights, render, r).Failed?
    ensures YearOutcome(dayMap, year, heights, render, r') == YearOutcome(dayMap, year, heights, render, r)
  {
    if r < r' {
      YearFailureStays(dayMap, year, heights, render, r, r' - 1);
    }
  }

  /** The number of cell images pasted by `ops`. */
  function PasteCount(ops: seq<DrawOp>): nat {
    if |ops| == 0 then 0 else (if ops[0].Paste? then 1 else 0) + PasteCount(ops[1..])
  }

  lemma {:induction false} PasteCountAppend(a: seq<DrawOp>, b: seq<DrawOp>)
    ensures PasteCount(a + b) == PasteCount(a) + PasteCount(b)
  {
    if |a| == 0 {
      assert a + b == b;
    } else {
      assert (a + b)[1..] == a[1..] + b;
      PasteCountAppend(a[1..], b);
    }
  }

  /** Every date of `month` has a day cell with a weekday label. */
  ghost predicate MonthComplete(dayMap: map<DayKey, CellInfo>, year: int, month: int)
    requires 1 <= month <= 12
  {
    forall day :: 1 <= day <= DaysInMonth(year, month) ==>
      (Some(month), Some(day)) in dayMap && dayMap[(Some(month), Some(day))].weekdayChar.Some?
  }

  /** A month row whose dates all have labelled cells is drawn, with one pasted image per date. */
  lemma {:induction false} MonthRowComplete(dayMap: map<DayKey, CellInfo>, year: int, month: int, y: int, rowHeight: int,
                                            render: CellRenderer, c: nat)
    requires 1 <= month <= 12 && MonthComplete(dayMap, year, month)
    ensures MonthRowOutcome(dayMap, year, month, y, rowHeight, render, c).Done?
    ensures PasteCount(MonthRowOutcome(dayMap, year, month, y, rowHeight, render, c).ops) ==
      Min(c, DaysInMonth(year, month))
  {
    if c > 0 {
      MonthRowComplete(dayMap, year, month, y, rowHeight, render, c - 1);
      var before := MonthRowOutcome(dayMap, year, month, y, rowHeight, render, c - 1);
      var slot := SlotOutcome(dayMap, year, month, c, y, rowHeight, render);
      assert slot.Done?;
      var ops := slot.ops;
      if c <= DaysInMonth(year, month) {
        assert |ops| == 3 && ops[2].BorderRect? && ops[1].Paste? && ops[0].FillRect?;
        assert PasteCount(ops[2..]) == 0 by {
          assert ops[2..][1..] == [];
        }
        assert ops[1..][1..] == ops[2..];
        assert PasteCount(ops) == 1;
      } else {
        assert |ops| == 2 && ops[1].BorderRect? && ops[0].FillRect?;
        assert PasteCount(ops[1..]) == 0 by {
          assert ops[1..][1..] == [];
        }
      }
      PasteCountAppend(before.ops, ops);
    }
  }

  /**
   * When every date of the year has a labelled cell, the first `r` rows are
   * drawn and hold one pasted image per date of the months they cover.
   */
  lemma {:induction false} YearComplete(dayMap: map<DayKey, CellInfo>, year: int, heights: seq<int>,
                                        render: CellRenderer, r: nat)
    requires r <= |heights| <= 23
    requires forall month :: 1 <= month <= 12 ==> MonthComplete(dayMap, year, month)
    ensures YearOutcome(dayMap, year, heights, render, r).Done?
    ensures PasteCount(YearOutcome(dayMap, year, heights, render, r).ops) == DaysBeforeMonth(year, (r + 1) / 2 + 1)
  {
    if r > 0 {
      YearComplete(dayMap, year, heights, render, r - 1);
      var before := YearOutcome(dayMap, year, heights, render, r - 1);
      if r % 2 == 1 {
        var month := (r + 1) / 2;
        var y, h := Sum(heights[..r - 1]), heights[r - 1];
        assert MonthComplete(dayMap, year, month);
        MonthRowComplete(dayMap, year, month, y, h, render, DaysPerMonthMax);
        var row := MonthRowOutcome(dayMap, year, month, y, h, render, DaysPerMonthMax);
        assert YearOutcome(dayMap, year, heights, render, r) == Done(before.ops + row.ops);
        PasteCountAppend(before.ops, row.ops);
        assert PasteCount(row.ops) == DaysInMonth(year, month);
        assert (r - 1 + 1) / 2 + 1 == month;
        assert DaysBeforeMonth(year, month + 1) == DaysBeforeMonth(year, month) + DaysInMonth(year, month);
      } else {
        assert (r + 1) / 2 == (r - 1 + 1) / 2;
      }
    }
  }

  /**
   * A drawing command that stays within `width` columns and the rows from
   * `top` to `bottom`; a pasted image must fit there whole.
   */
  predicate OpInBand(op: DrawOp, width: int, top: int, bottom: int) {
    match op
    case FillRect(x0, y0, x1, y1, _) => 0 <= x0 <= x1 <= width && top <= y0 <= y1 <= bottom
    case BorderRect(x0, y0, x1, y1, _, _) => 0 <= x0 <= x1 <= width && top <= y0 <= y1 <= bottom
    case Paste(image, x, y) =>
      && 0 <= x && 0 <= image.width && x + image.width <= width
      && top <= y && 0 <= image.height && y + image.height <= bottom
    case _ => false
  }

  /**
   * The renderer hands back images `k` times the requested cell size: 1 for
   * the SVG backend, `RENDER_SCALE` for the raster fallback.
   */
  ghost predicate ScalesBy(render: CellRenderer, k: int) {
    forall req: ImageGenerationRequest {:trigger render(req)} ::
      render(req).width == k * req.cellWidthPx && render(req).height == k * req.cellHeightPx
  }

  /** With images of the slot's size, a month row's commands stay inside its own band of the image. */
  lemma {:induction false} MonthRowInBand(dayMap: map<DayKey, CellInfo>, year: int, month: int, y: int, rowHeight: int,
                                          render: CellRenderer, c: nat)
    requires 1 <= month <= 12 && 1 <= rowHeight && c <= DaysPerMonthMax && ScalesBy(render, 1)
    requires MonthRowOutcome(dayMap, year, month, y, rowHeight, render, c).Done?
    ensures var ops := MonthRowOutcome(dayMap, year, month, y, rowHeight, render, c).ops;
      forall i :: 0 <= i < |ops| ==> OpInBand(ops[i], DaysPerMonthMax * GetDayCellWidthPx(), y, y + rowHeight)
  {
    if c > 0 {
      MonthRowInBand(dayMap, year, month, y, rowHeight, render, c - 1);
    }
  }

  /** With rows of positive height and images of the slot's size, every command lies inside the image. */
  lemma {:induction false} YearInBand(dayMap: map<DayKey, CellInfo>, year: int, heights: seq<int>,
                                      render: CellRenderer, r: nat)
    requires r <= |heights| <= 23 && forall i :: 0 <= i < |heights| ==> 1 <= heights[i]
    requires ScalesBy(render, 1)
    requires YearOutcome(dayMap, year, heights, render, r).Done?
    ensures 0 <= Sum(heights[..r])
    ensures var ops := YearOutcome(dayMap, year, heights, render, r).ops;
      forall i :: 0 <= i < |ops| ==> OpInBand(ops[i], DaysPerMonthMax * GetDayCellWidthPx(), 0, Sum(heights[..r]))
  {
    if r > 0 {
      YearInBand(dayMap, year, heights, render, r - 1);
      assert heights[..r][..r - 1] == heights[..r - 1];
      if r % 2 == 1 {
        MonthRowInBand(dayMap, year, (r + 1) / 2, Sum(heights[..r - 1]), heights[r - 1], render, DaysPerMonthMax);
      }
    }
  }

  /** The slot of a date whose day cell is present and labelled holds that cell's fill and rendered image. */
  lemma SlotOfLabelledCell(dayMap: map<DayKey, CellInfo>, year: int, month: int, day: int, y: int, rowHeight: int,
                           render: CellRenderer)
    requires 1 <= month <= 12 && 1 <= day <= DaysInMonth(year, month)
    requires (Some(month), Some(day)) in dayMap && dayMap[(Some(month), Some(day))].weekdayChar.Some?
    ensures var x, cell := (day - 1) * 159, dayMap[(Some(month), Some(day))];
      SlotOutcome(dayMap, year, month, day, y, rowHeight, render) ==
        Done([FillRect(x, y, x + 159, y + rowHeight, if cell.isWeekend then WeekendFill else WeekdayFill),
              Paste(render(ImageGenerationRequest(month, day, cell.weekdayChar.value, 159, rowHeight, cell.isWeekend)), x, y),
              BorderRect(x, y, x + 159, y + rowHeight, Rgb(0, 0, 0), 1)])
  {
    assert GetDayCellWidthPx() == 159;
  }

  /**
   * The slot of a date in a year built by `CalendarService`: filled with the
   * weekend colour exactly on Saturdays and Sundays, and holding the image
   * rendered for that date's weekday label.
   */
  lemma ServiceSlot(data: YearCalendarData, month: int, day: int, y: int, rowHeight: int, render: CellRenderer)
    requires IsServiceYear(data) && 1 <= month <= 12 && 1 <= day <= DaysInMonth(data.year, month)
    ensures var x, w := (day - 1) * 159, Weekday(data.year, month, day);
      SlotOutcome(DayMapOf(data.months), data.year, month, day, y, rowHeight, render) ==
        Done([FillRect(x, y, x + 159, y + rowHeight, if w in {5, 6} then WeekendFill else WeekdayFill),
              Paste(render(ImageGenerationRequest(month, day, WeekdayNames[w], 159, rowHeight, w in {5, 6})), x, y),
              BorderRect(x, y, x + 159, y + rowHeight, Rgb(0, 0, 0), 1)])
  {
    var dayMap := DayMapOf(data.months);
    var key := (Some(month), Some(day));
    var cell := DayCell(data.year, month, day);
    assert key in dayMap && dayMap[key] == cell by {
      ServiceDayMap(data);
    }
    SlotOfLabelledCell(dayMap, data.year, month, day, y, rowHeight, render);
  }

  /**
   * Exporting a year built by `CalendarService` with the standard rows
   * never fails and pastes one cell image per date of the year (365 or 366);
   * when the renderer returns images of the requested size (the SVG
   * backend), nothing is drawn outside the 4929 x 2360 image.
   */
  lemma ServiceExportComplete(data: YearCalendarData, heights: seq<int>, render: CellRenderer)
    requires IsServiceYear(data) && IsRowHeights(heights)
    ensures var outcome := YearOutcome(DayMapOf(data.months), data.year, heights, render, |heights|);
      && outcome.Done?
      && PasteCount(outcome.ops) == DaysInYear(data.year)
      && DaysPerMonthMax * GetDayCellWidthPx() == 4929 && Sum(heights) == 2360
      && (ScalesBy(render, 1) ==> forall i :: 0 <= i < |outcome.ops| ==> OpInBand(outcome.ops[i], 4929, 0, 2360))
  {
    var dayMap := DayMapOf(data.months);
    ServiceDayMap(data);
    forall month | 1 <= month <= 12
      ensures MonthComplete(dayMap, data.year, month)
    {
      forall day | 1 <= day <= DaysInMonth(data.year, month)
        ensures (Some(month), Some(day)) in dayMap && dayMap[(Some(month), Some(day))].weekdayChar.Some?
      {
      }
    }
    YearComplete(dayMap, data.year, heights, render, 23);
    MonthsFillYear(data.year);
    if ScalesBy(render, 1) {
      YearInBand(dayMap, data.year, heights, render, 23);
    }
    MonthRowTop(heights, 1);
    assert heights[..23] == heights;
  }

  /** A renderer that always succeeds with the SVG backend returns images of the requested size. */
  lemma SvgRendererFitsSlot(render: CellRenderer)
    requires forall req :: render(req) == Bitmap(req.cellWidthPx, req.cellHeightPx, FromSvg(req))
    ensures ScalesBy(render, 1)
  {
  }

  /** A renderer that always falls back to the raster backend returns images four times the cell. */
  lemma FallbackRendererScales(render: CellRenderer, fontPath: Option<string>, textbbox: TextBBox)
    requires forall req :: CellImageService.IsPilRendering(render(req), fontPath,
      CellImageService.ScaledRequest(req, CellImageService.PilScale()), textbbox)
    ensures ScalesBy(render, 4)
  {
    forall req: ImageGenerationRequest
      ensures render(req).width == 4 * req.cellWidthPx && render(req).height == 4 * req.cellHeightPx
    {
      var scaled := CellImageService.ScaledRequest(req, CellImageService.PilScale());
      assert CellImageService.IsPilRendering(render(req), fontPath, scaled, textbbox);
    }
  }

  /**
   * With the raster fallback's images, every date's pasted image reaches
   * three slots past the right edge of its own slot and four rows down.
   */
  lemma FallbackPasteExceedsSlot(data: YearCalendarData, month: int, day: int, y: int, rowHeight: int,
                                 render: CellRenderer)
    requires IsServiceYear(data) && 1 <= month <= 12 && 1 <= day <= DaysInMonth(data.year, month)
    requires 1 <= rowHeight && ScalesBy(render, 4)
    ensures var slot := SlotOutcome(DayMapOf(data.months), data.year, month, day, y, rowHeight, render);
      && slot.Done? && |slot.ops| == 3 && slot.ops[1].Paste?
      && slot.ops[1].x == (day - 1) * 159 && slot.ops[1].y == y
      && slot.ops[1].x + slot.ops[1].image.width == (day + 3) * 159
      && slot.ops[1].y + slot.ops[1].image.height == y + 4 * rowHeight
      && !OpInBand(slot.ops[1], day * 159, y, y + rowHeight)
  {
    ServiceSlot(data, month, day, y, rowHeight, render);
  }

  /**
   * As written, exporting a year with the raster fallback's images pastes
   * the image of 31 December at (4770, 2200) reaching to (5406, 2840),
   * past the right and bottom edges of the 4929 x 2360 image.
   */
  lemma FallbackExportOverflows(data: YearCalendarData, heights: seq<int>, render: CellRenderer)
    requires IsServiceYear(data) && IsRowHeights(heights) && ScalesBy(render, 4)
    ensures var outcome := YearOutcome(DayMapOf(data.months), data.year, heights, render, |heights|);
      && outcome.Done? && |outcome.ops| >= 2
      && var last := outcome.ops[|outcome.ops| - 2];
      && last.Paste? && last.x == 4770 && last.y == 2200
      && last.x + last.image.width == 5406 && last.y + last.image.height == 2840
      && !OpInBand(last, 4929, 0, 2360)
  {
    var dayMap := DayMapOf(data.months);
    ServiceExportComplete(data, heights, render);
    MonthRowTop(heights, 12);
    assert heights[22] == 160;
    var before := YearOutcome(dayMap, data.year, heights, render, 22);
    var row := MonthRowOutcome(dayMap, data.year, 12, 2200, 160, render, DaysPerMonthMax);
    assert YearOutcome(dayMap, data.year, heights, render, 23) == Done(before.ops + row.ops);
    assert DaysInMonth(data.year, 12) == 31;
    FallbackPasteExceedsSlot(data, 12, 31, 2200, 160, render);
    var row30 := MonthRowOutcome(dayMap, data.year, 12, 2200, 160, render, 30);
    var slot := SlotOutcome(dayMap, data.year, 12, 31, 2200, 160, render);
    assert row == Done(row30.ops + slot.ops);
  }

  /** Lines 34-35: the weekend and weekday fills, read from the configured ARGB strings. */
  method SlotFills() returns (weekendColor: Color, weekdayColor: Color)
    ensures weekendColor == WeekendFill && weekdayColor == WeekdayFill
  {
    var weekendParsed := HexToRgb(ColorWeekendBg);
    var weekdayParsed := HexToRgb(ColorWeekdayBg);
    WeekendBgColor();
    WeekdayBgColor();
    weekendColor := weekendParsed.value;
    weekdayColor := weekdayParsed.value;
  }

  /**
   * The body of `render_year_image`'s column loop for one month row: the
   * row's commands are appended to the image, or the first error is
   * reported.
   */
  method DrawMonthRow(canvas: Canvas, dayMap: map<DayKey, CellInfo>, year: int, month: int, y: int, rowHeight: int,
                      weekendColor: Color, weekdayColor: Color, render: CellRenderer)
    returns (error: Option<ExportError>)
    requires 1 <= month <= 12
    requires weekendColor == WeekendFill && weekdayColor == WeekdayFill
    modifies canvas
    ensures var outcome := MonthRowOutcome(dayMap, year, month, y, rowHeight, render, DaysPerMonthMax);
      && (outcome.Done? ==> error == None && canvas.ops == old(canvas.ops) + outcome.ops)
      && (outcome.Failed? ==> error == Some(outcome.error))
  {
    var colCount := DaysPerMonthMax;
    var cellWidth := GetDayCellWidthPx();
    var daysInMonth := DaysInMonth(year, month);
    var borderColor := Rgb(0, 0, 0);
    for col := 1 to colCount + 1
      invariant MonthRowOutcome(dayMap, year, month, y, rowHeight, render, col - 1).Done?
      invariant canvas.ops == old(canvas.ops) + MonthRowOutcome(dayMap, year, month, y, rowHeight, render, col - 1).ops
    {
      var x := (col - 1) * cellWidth;
      ghost var slot := SlotOutcome(dayMap, year, month, col, y, rowHeight, render);
      ghost var before := canvas.ops;
      if col <= daysInMonth {
        if (Some(month), Some(col)) !in dayMap {
          MonthRowFailureStays(dayMap, year, month, y, rowHeight, render, col, DaysPerMonthMax);
          return Some(MissingDay(month, col));
        }
        var cellInfo := dayMap[(Some(month), Some(col))];
        if cellInfo.weekdayChar.None? {
          MonthRowFailureStays(dayMap, year, month, y, rowHeight, render, col, DaysPerMonthMax);
          return Some(MissingWeekdayLabel(month, col));
        }
        var bgColor := if cellInfo.isWeekend then weekendColor else weekdayColor;
        canvas.Draw(FillRect(x, y, x + cellWidth, y + rowHeight, bgColor));
        var request := ImageGenerationRequest(
          month := month,
          day := col,
          weekdayChar := cellInfo.weekdayChar.value,
          cellWidthPx := cellWidth,
          cellHeightPx := rowHeight,
          isWeekend := cellInfo.isWeekend);
        var cellImg := render(request);
        canvas.Draw(Paste(cellImg, x, y));
      } else {
        canvas.Draw(FillRect(x, y, x + cellWidth, y + rowHeight, weekdayColor));
      }
      canvas.Draw(BorderRect(x, y, x + cellWidth, y + rowHeight, borderColor, 1));
      assert canvas.ops == before + slot.ops;
    }
    return None;
  }

  /**
   * `render_year_image` up to `img.save`: a white image 31 slots wide and
   * as tall as the rows, and in it, row by row and slot by slot, the
   * commands of `YearOutcome` — or the error that stops the export.
   */
  method RenderYearImage(data: YearCalendarData, render: CellRenderer)
    returns (canvas: Canvas, error: Option<ExportError>, ghost heights: seq<int>)
    ensures fresh(canvas)
    ensures IsRowHeights(heights)
    ensures canvas.width == DaysPerMonthMax * GetDayCellWidthPx() && canvas.height == Sum(heights)
    ensures canvas.background == Rgb(255, 255, 255)
    ensures var outcome := YearOutcome(DayMapOf(data.months), data.year, heights, render, |heights|);
      && (outcome.Done? ==> error == None && canvas.ops == outcome.ops)
      && (outcome.Failed? ==> error == Some(outcome.error))
  {
    var dayMap := BuildDayMap(data);
    var colCount := DaysPerMonthMax;
    var rowHeights := GetRowHeights();
    heights := rowHeights;
    var totalWidth := colCount * GetDayCellWidthPx();
    var totalHeight := Sum(rowHeights);
    canvas := new Canvas(totalWidth, totalHeight, Rgb(255, 255, 255));

    var weekendColor, weekdayColor := SlotFills();

    var y := 0;
    for rowIndex := 1 to |rowHeights| + 1
      invariant y == Sum(rowHeights[..rowIndex - 1])
      invariant YearOutcome(dayMap, data.year, rowHeights, render, rowIndex - 1) == Done(canvas.ops)
    {
      var rowHeight := rowHeights[rowIndex - 1];
      var isMonthRow := rowIndex % 2 == 1;
      if isMonthRow {
        var month := (rowIndex + 1) / 2;
        ghost var row := MonthRowOutcome(dayMap, data.year, month, y, rowHeight, render, DaysPerMonthMax);
        ghost var before := canvas.ops;
        var rowError := DrawMonthRow(canvas, dayMap, data.year, month, y, rowHeight, weekendColor, weekdayColor, render);
        if rowError.Some? {
          assert YearOutcome(dayMap, data.year, rowHeights, render, rowIndex) == row;
          YearFailureStays(dayMap, data.year, rowHeights, render, rowIndex, |rowHeights|);
          return canvas, rowError, heights;
        }
        assert YearOutcome(dayMap, data.year, rowHeights, render, rowIndex) == Done(before + row.ops);
      } else {
        assert YearOutcome(dayMap, data.year, rowHeights, render, rowIndex) == Done(canvas.ops);
      }
      assert rowHeights[..rowIndex][..rowIndex - 1] == rowHeights[..rowIndex - 1];
      y := y + rowHeight;
    }
    assert rowHeights[..|rowHeights|] == rowHeights;
    error := None;
  }
}
