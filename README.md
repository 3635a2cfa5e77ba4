# Year-Calendar in Dafny

This project models the computational core of the Year-Calendar generator. For a given year, the program builds one record per day. It renders each day as a small cell image: the day number, a month banner on the first of the month, and a black corner triangle holding the weekday label. It then lays the cells out as a 31-column grid with a spacer row between months, and works out the names of its temporary and output files.

The model is split into modules that follow the repository:

- `PyNum` and `PyFormat` give Python's numeric and text primitives exact meanings: `int()` on a float, `round`, `str(n)` and `f"{n:02d}"`.
- `CalendarConfig` holds the configuration constants and the unit conversions: points, pixels and millimetres at 96 DPI, and the Excel column width approximation with a 7-pixel maximum digit width.
- `CalendarModels` holds the dataclass records.
- `Gregorian` holds proleptic Gregorian month lengths and weekdays, with Monday as 0.
- `CalendarService` builds the per-month day cells. Its methods are proved against `IsServiceMonth` and `IsServiceYear`.
- `Raster` is a drawing surface. A `Canvas` class records its drawing commands in order, and pasted bitmaps are opaque values.
- `CellImageService` covers:
  - font path resolution;
  - the font-fitting binary search against a text-measuring oracle;
  - the layout geometry;
  - the three drawing steps;
  - the supersampling rewrite;
  - the choice between the SVG and the raster backend.
- `FullImageExporter` covers the ARGB colour parser, the row heights, the day map, and the row-by-row and slot-by-slot composition of the year image.
- `FileManager` covers the per-day temporary path and the output file name.

Choices the model makes:

- Reals are exact. Python's `int(x)` on a float truncates toward zero (`PyNum.Trunc`); every value it is applied to here is non-negative, where this equals the floor.
- `round` is modelled as round-half-to-even, which is what Python's `round` does.
- The raster backend renders at `RENDER_SCALE` (4) times the cell size and returns that bitmap without scaling it back down. The exporter then pastes it into a slot of the original size. The model keeps this behaviour as written. `CellImageService.FallbackSizeMismatch` states the size mismatch. `FullImageExporter.FallbackExportOverflows` shows its effect: the image pasted for 31 December reaches past the right and bottom edges of the year image. Only the SVG backend returns an image of the requested size, and the in-band results of the exporter assume such a renderer.

## Model

| member | source | states |
|---|---|---|
| PyNum.Trunc | calendar_app/config/calendar_config.py:92-93 | `int(x)` on a float: for `x >= 0` the result is the largest integer not above `x`; for negative `x` it is the smallest integer not below it |
| PyNum.RoundHalfEven | calendar_app/config/calendar_config.py:112-113 | `round(x)` is within 1/2 of `x`, and at an exact tie it is even |
| PyNum.Round2 | calendar_app/config/calendar_config.py:139-140 | `round(x, 2)` is within 0.005 of `x` |
| PyNum.RoundNearest | calendar_app/config/calendar_config.py:118 | an integer closer than 1/2 to `x` is `round(x)` |
| PyNum.RoundInteger | calendar_app/services/full_image_exporter.py:83 | rounding an integral value gives it back |
| PyNum.TruncMonotonic | calendar_app/config/calendar_config.py:92-104 | `int()` is monotone |
| PyFormat.Decimal | calendar_app/services/cell_image_service.py:167 | decimal digits of a natural: non-empty, all digits, one digit below 10, two from 10 to 99, no leading zero |
| PyFormat.DecimalRoundTrip | calendar_app/services/cell_image_service.py:167 | reading the digits back gives the number |
| PyFormat.Str | calendar_app/services/cell_image_service.py:167 | `str(n)` is non-empty and consists of digits only exactly when `n >= 0` |
| PyFormat.StrInjective | calendar_app/services/cell_image_service.py:167 | different integers have different `str` texts |
| PyFormat.Pad2 | calendar_app/services/file_manager.py:42 | `f"{n:02d}"` has at least two characters, exactly two for 0..99, is all digits exactly for `n >= 0`, and reads back as `n` |
| PyFormat.Pad2Injective | calendar_app/services/file_manager.py:42 | different integers give different padded texts |
| CalendarConfig.GetDateFontSize | calendar_app/config/calendar_config.py:89-93 | the date font size is `int(0.45 H)` and lies in `0..H` |
| CalendarConfig.GetWeekdayFontSize | calendar_app/config/calendar_config.py:95-99 | the weekday font size is between 0 and `int(0.35 H)` |
| CalendarConfig.GetMonthLabelFontSize | calendar_app/config/calendar_config.py:101-104 | the month label font size is between 0 and a quarter of `H` |
| CalendarConfig.FontSizesMonotonic | calendar_app/config/calendar_config.py:89-104 | a taller cell never gets smaller fonts |
| CalendarConfig.DefaultCellFontSizes | calendar_app/config/calendar_config.py:89-104 | a 160-pixel cell gets sizes 72, 53 and 33 |
| CalendarConfig.ExcelColumnWidthToPixels | calendar_app/config/calendar_config.py:106-113 | 0 for widths up to 0; at most 12 for widths in (0, 1]; at least 12 above 1; never negative |
| CalendarConfig.ExcelWidthBranchesAgreeAtOne | calendar_app/config/calendar_config.py:109-113 | both formulas give 12 at width 1, so the conversion is continuous there |
| CalendarConfig.PixelsToExcelColumnWidth | calendar_app/config/calendar_config.py:135-140 | the width is within 0.005 of `px/12` up to 12 pixels, and of `(px-5)/7` above |
| CalendarConfig.ColumnWidthRoundTrip | calendar_app/config/calendar_config.py:106-140 | converting a non-negative pixel count to a column width and back gives the same count |
| CalendarConfig.PointsToPixels | calendar_app/config/calendar_config.py:115-118 | the pixel count is within 1/2 of `points * 4/3` |
| CalendarConfig.PixelsToPoints | calendar_app/config/calendar_config.py:120-123 | the points are exactly three quarters of the pixels |
| CalendarConfig.PixelsPointsRoundTrip | calendar_app/config/calendar_config.py:115-123 | pixels to points and back gives every integer pixel count unchanged |
| CalendarConfig.PointsPixelsRoundTrip | calendar_app/config/calendar_config.py:115-123 | points to pixels and back moves a value by at most 0.375 |
| CalendarConfig.MmToPoints | calendar_app/config/calendar_config.py:125-128 | `points * 25.4 == mm * 72` |
| CalendarConfig.MmToPixels | calendar_app/config/calendar_config.py:130-133 | the pixel count is within 1/2 of `mm * 96 / 25.4` |
| CalendarConfig.MmToPixelsViaPoints | calendar_app/config/calendar_config.py:115-133 | millimetres to pixels equals millimetres to points to pixels |
| CalendarConfig.GetDayCellWidthPx | calendar_app/config/calendar_config.py:152-155 | the day cell is 159 pixels wide, derived from column width 22 and not from `CELL_WIDTH_PX` (165) |
| CalendarConfig.GetDayCellHeightPx | calendar_app/config/calendar_config.py:157-160 | the day cell is 160 pixels tall, from the 120-point row height |
| CalendarConfig.GetMonthCellWidthPx | calendar_app/config/calendar_config.py:162-165 | the month cell is as wide as the day cell, 159 pixels |
| CalendarModels.CellCount | calendar_app/models/calendar_models.py:47-50 | the total is 0 for no months and at least each month's cell count |
| CalendarModels.CellCountAppend | calendar_app/models/calendar_models.py:47-50 | the total over two month lists joined is the sum of their totals |
| CalendarModels.CellInfoDefaults | calendar_app/models/calendar_models.py:9-27 | a cell built from kind, row and column has no month, day or weekday label, is not a weekend, and is 165 x 160 |
| CalendarModels.RequestWeekendDefault | calendar_app/models/calendar_models.py:53-62 | a request is a weekday request unless told otherwise |
| Gregorian.DaysInMonth | calendar_app/services/calendar_service.py:48 | month lengths are 28 to 31; February has 29 days exactly in leap years; of the other months, exactly April, June, September and November have 30 |
| Gregorian.MonthsFillYear | calendar_app/services/calendar_service.py:48 | the twelve month lengths add up to the year's length |
| Gregorian.Weekday | calendar_app/services/calendar_service.py:58 | the weekday index is in 0..6 |
| Gregorian.WeekdayNextDay | calendar_app/services/calendar_service.py:56-58 | the next day of a month is one weekday later, modulo 7 |
| Gregorian.WeekdayNextMonth | calendar_app/services/calendar_service.py:56-58 | the first of a month is one weekday after the last day of the previous month |
| Gregorian.YearLength | calendar_app/services/calendar_service.py:48 | the days before next year are the days before this year plus this year's length |
| Gregorian.WeekdayNextYear | calendar_app/services/calendar_service.py:58 | 1 January is one weekday after the previous 31 December |
| Gregorian.Weekdays2026 | calendar_app/services/calendar_service.py:58-60 | 1 January 2026 is a Thursday (index 3), and 3 January 2026 a Saturday (index 5) |
| CalendarService.DayCell | calendar_app/services/calendar_service.py:56-74 | a day cell has kind "day", its month and day, column = day, odd row `2m-1`, the weekday's label, the weekend flag exactly on Saturday and Sunday, and the day cell's pixel size |
| CalendarService.GenerateMonthData | calendar_app/services/calendar_service.py:36-81 | a month has the right year, month and length, and cell i is the day cell of day i+1 |
| CalendarService.GenerateYearData | calendar_app/services/calendar_service.py:18-34 | the year's data carries the year and twelve service months, months 1 to 12 in order |
| CalendarService.ServiceMonthsInOrder | calendar_app/services/calendar_service.py:28-34 | month i+1 sits at position i with the year; its `days` equals its cell count; February has 29 days exactly in leap years |
| CalendarService.ServiceWeekdaysConsecutive | calendar_app/services/calendar_service.py:56-60 | consecutive days of a month carry consecutive weekday labels |
| CalendarService.ServiceCellCountPrefix | calendar_app/models/calendar_models.py:47-50 | the first k months hold as many cells as there are days before month k+1 |
| CalendarService.ServiceTotalCells | calendar_app/models/calendar_models.py:47-50 | `total_cells` of a generated year is 365, or 366 in a leap year |
| Raster.Canvas.constructor | calendar_app/services/full_image_exporter.py:31 | a new image has its size and background colour and nothing drawn on it |
| Raster.Canvas.Draw | calendar_app/services/full_image_exporter.py:49 | a drawing command is appended to the image, after the earlier ones |
| Raster.Canvas.Snapshot | calendar_app/services/cell_image_service.py:148 | the image handed back has the canvas's size, background and commands |
| CellImageService.FirstUsableUnique | calendar_app/services/cell_image_service.py:34-40 | the first usable font path is unique |
| CellImageService.ResolveFontPath | calendar_app/services/cell_image_service.py:34-40 | the result is the first non-empty existing path among the configured font and its fallbacks, in order, or `None` when none exists |
| CellImageService.Log2Monotonic | calendar_app/services/cell_image_service.py:211-224 | the halving count used to bound the number of probes grows with the range |
| CellImageService.MeasureFits | calendar_app/services/cell_image_service.py:213-219 | one probe answers whether the measured box fits the width, the height and the area budget |
| CellImageService.FitFont | calendar_app/services/cell_image_service.py:200-226 | without a font file: the default font and no probes. Otherwise, a font of the path whose size is in `[4, max(8, max_height)]` and is 4 or a probed size that fits. If fitting is downward closed, nothing larger up to the ceiling fits. At most `log2(ceiling-3)+1` probes |
| CellImageService.ContentMargin | calendar_app/services/cell_image_service.py:168 | the content margin is between 0 and a 25th of the shorter side |
| CellImageService.DateFitBounds | calendar_app/services/cell_image_service.py:166-179 | the date fitter gets a width and height of at least 1, no larger than the date area, and an area budget no larger than their product and 2.5% of the cell |
| CellImageService.WeekdayInnerMargin | calendar_app/services/cell_image_service.py:185 | the weekday inner margin is at least 1 |
| CellImageService.WeekdayFitBounds | calendar_app/services/cell_image_service.py:181-198 | the weekday fitter gets a width and height of at least 1, within the triangle less twice the inner margin, and an area budget no larger than their product and 1.875% of the cell |
| CellImageService.FitFontForDate | calendar_app/services/cell_image_service.py:166-179 | the date font is the fitted font for the date's bounds |
| CellImageService.FitFontForWeekday | calendar_app/services/cell_image_service.py:181-198 | the weekday font is the fitted font for the triangle's bounds |
| CellImageService.DefaultCellFitBounds | calendar_app/services/cell_image_service.py:166-198 | for a 159 x 160 cell: margins 6 and 3; date limits 65 x 66 with area budget 636; triangle from (88, 104) to (159, 160) with centre 123; weekday limits 33 x 24 with area budget 477 |
| CellImageService.GetTriangleBounds | calendar_app/services/cell_image_service.py:155-164 | `right = W - margin`, `bottom = H - margin`, width `int(0.45 W)`, height `int(0.35 H)`, and the centre lies between left and right |
| CellImageService.TriangleInsideCell | calendar_app/services/cell_image_service.py:155-164 | with the configured zero margin, the triangle fills the bottom-right corner and stays within its right and bottom halves |
| CellImageService.DatePosition | calendar_app/services/cell_image_service.py:265-267 | the date's right edge sits one margin in from the right side, and its top one margin down |
| CellImageService.DateTextInsideCell | calendar_app/services/cell_image_service.py:265-267 | a date box within the fitting limits is drawn inside the cell |
| CellImageService.WeekdayPosition | calendar_app/services/cell_image_service.py:330-331 | the weekday box is centred on the anchor, 38% of the triangle's height in from its corner |
| CellImageService.WeekdayAnchorInsideTriangle | calendar_app/services/cell_image_service.py:330-331 | when the triangle is no flatter than 38:62, the anchor lies inside it |
| CellImageService.DefaultWeekdayAnchorInside | calendar_app/services/cell_image_service.py:330-331 | in the default cell the anchor is 21 pixels in and inside the triangle |
| CellImageService.GetMonthEnglish | calendar_app/services/cell_image_service.py:241-244 | months 1 to 12 give their (non-empty) English name; any other month gives "" |
| CellImageService.MonthEnglishInjective | calendar_app/services/cell_image_service.py:241-244 | different months have different English names |
| CellImageService.MonthEnglishFont | calendar_app/services/cell_image_service.py:234-239 | the English month font is never smaller than 6 |
| CellImageService.DrawDate | calendar_app/services/cell_image_service.py:246-271 | exactly one command is appended: the day number, in the fitted font and date colour, right-aligned at the margin |
| CellImageService.DrawMonthLabel | calendar_app/services/cell_image_service.py:273-297 | the two-digit month with stroke 2 is appended, then the English name with stroke 1 below it |
| CellImageService.DrawWeekdayWithTriangle | calendar_app/services/cell_image_service.py:299-334 | the black corner triangle is appended, then the weekday label in the fitted font centred on the anchor |
| CellImageService.RenderPil | calendar_app/services/cell_image_service.py:133-148 | a fresh transparent cell-sized image holds the date, then the month banner only on day 1, then the triangle and the weekday label |
| CellImageService.RgbColor | calendar_app/services/cell_image_service.py:150-153 | the colour text has the form `rgb(...)` |
| CellImageService.RgbColorInjective | calendar_app/services/cell_image_service.py:150-153 | for non-negative components, the text determines red, green and blue |
| CellImageService.PilScale | calendar_app/services/cell_image_service.py:119 | the supersampling factor is at least 1, namely 4 |
| CellImageService.ScaledRequest | calendar_app/services/cell_image_service.py:120-131 | the rewritten request keeps month, day, label and weekend flag, and multiplies width and height by the scale; scale 1 leaves the request unchanged |
| CellImageService.CreatePilImage | calendar_app/services/cell_image_service.py:117-131 | the raster backend draws the scaled request and returns an image `scale` times the cell's width and height |
| CellImageService.SvgAttempt | calendar_app/services/cell_image_service.py:52-55 | the SVG attempt gives an image exactly when it succeeds, and then at the requested size |
| CellImageService.CreateImage | calendar_app/services/cell_image_service.py:42-57 | when cairosvg is present and the SVG attempt succeeds, the SVG image; otherwise the raster rendering of the scaled request; never an error |
| CellImageService.FallbackSizeMismatch | calendar_app/services/cell_image_service.py:117-131 | the raster fallback's image is four times wider and taller than the requested cell |
| FullImageExporter.HexDigitValue | calendar_app/services/full_image_exporter.py:94 | a hexadecimal digit's value is in 0..15 |
| FullImageExporter.HexValue | calendar_app/services/full_image_exporter.py:94 | one digit is below 16; two digits are below 256 |
| FullImageExporter.StripLeading | calendar_app/services/full_image_exporter.py:94 | `int()` ignores leading whitespace: the result is a suffix of the text, everything removed is whitespace, and the result does not start with whitespace |
| FullImageExporter.StripTrailing | calendar_app/services/full_image_exporter.py:94 | `int()` ignores trailing whitespace: the result is a prefix of the text, everything removed is whitespace, and the result does not end with whitespace |
| FullImageExporter.RemoveUnderscores | calendar_app/services/full_image_exporter.py:94 | dropping the digit separators leaves exactly the digits: the same characters with every `_` removed and nothing else, and a plain digit string unchanged |
| FullImageExporter.RemoveUnderscoresAppend | calendar_app/services/full_image_exporter.py:94 | separators are removed piece by piece, so the digits keep their original order |
| FullImageExporter.ParseHexDigits | calendar_app/services/full_image_exporter.py:94 | `int(s, 16)` of a non-empty run of hexadecimal digits is its value |
| FullImageExporter.ParseHexBlank | calendar_app/services/full_image_exporter.py:94 | `int("", 16)` and blank texts raise `ValueError` |
| FullImageExporter.HexToRgb | calendar_app/services/full_image_exporter.py:91-94 | a parsed colour is an RGB triple; strings of four characters or fewer do not parse |
| FullImageExporter.HexToRgbRgbRoundTrip | calendar_app/services/full_image_exporter.py:91-94 | six hexadecimal digits written from bytes r, g, b read back as (r, g, b) |
| FullImageExporter.HexToRgbArgbRoundTrip | calendar_app/services/full_image_exporter.py:91-94 | an eight-digit ARGB string loses its alpha pair and reads back as (r, g, b) |
| FullImageExporter.MonthBgColor | calendar_app/config/calendar_config.py:30 | "FF2E5AA2" reads as (46, 90, 162) |
| FullImageExporter.WeekendBgColor | calendar_app/services/full_image_exporter.py:34 | the weekend colour "FFE8F4FF" reads as (232, 244, 255) |
| FullImageExporter.WeekdayBgColor | calendar_app/services/full_image_exporter.py:35 | the weekday colour "FFFFFFFF" reads as (255, 255, 255) |
| FullImageExporter.SpacerHeight | calendar_app/services/full_image_exporter.py:83 | the spacer row is `round(160 * 0.25)` = 40 pixels tall |
| FullImageExporter.GetRowHeights | calendar_app/services/full_image_exporter.py:81-89 | 23 rows: the 1-based odd rows are 160 pixels tall (months), the even rows 40 (spacers) |
| FullImageExporter.RowTop | calendar_app/services/full_image_exporter.py:38-68 | the first k rows are `ceil(k/2)` month rows and `floor(k/2)` spacer rows tall |
| FullImageExporter.MonthRowTop | calendar_app/services/full_image_exporter.py:26-42 | month m's row starts at `200 (m-1)`, and the image is 2360 pixels tall |
| FullImageExporter.BuildDayMap | calendar_app/services/full_image_exporter.py:73-79 | the map stores every "day" cell under (month, day), month by month and cell by cell, a later cell replacing an earlier one |
| FullImageExporter.ServiceDayMapPrefix | calendar_app/services/full_image_exporter.py:73-79 | after the first k generated months, the keys are exactly the dates of those months, each mapped to its day cell |
| FullImageExporter.ServiceDayMap | calendar_app/services/full_image_exporter.py:47 | for a generated year, every lookup `day_map[(month, col)]` with `col <= days_in_month` is defined and gives that date's cell |
| FullImageExporter.MonthRowFailureStays | calendar_app/services/full_image_exporter.py:44-67 | once a slot fails, the month row's outcome is that failure |
| FullImageExporter.YearFailureStays | calendar_app/services/full_image_exporter.py:39-68 | once a row fails, the export's outcome is that failure |
| FullImageExporter.PasteCountAppend | calendar_app/services/full_image_exporter.py:59 | pastes in two command lists add up |
| FullImageExporter.MonthRowComplete | calendar_app/services/full_image_exporter.py:44-67 | when every date of the month has a labelled cell, the row is drawn and pastes exactly one image per day of the month |
| FullImageExporter.YearComplete | calendar_app/services/full_image_exporter.py:39-68 | when every date has a labelled cell, the first r rows are drawn and paste one image per date of the months they cover |
| FullImageExporter.MonthRowInBand | calendar_app/services/full_image_exporter.py:44-67 | with a renderer returning images of the requested size, every command of a month row, including each pasted image as a whole, lies within the 31 slots' width (`31 * 159` pixels) and between the row's top and bottom |
| FullImageExporter.YearInBand | calendar_app/services/full_image_exporter.py:26-68 | with positive row heights and a renderer returning images of the requested size, every command, including each pasted image as a whole, lies inside the image |
| FullImageExporter.SlotOfLabelledCell | calendar_app/services/full_image_exporter.py:47-67 | a date slot with a labelled cell is filled with the cell's colour, then gets the rendered cell pasted, then the border |
| FullImageExporter.ServiceSlot | calendar_app/services/full_image_exporter.py:47-67 | in a generated year, a date's slot is filled with the weekend colour exactly on Saturday and Sunday, and gets the image rendered for that date's request |
| FullImageExporter.ServiceExportComplete | calendar_app/services/full_image_exporter.py:22-68 | exporting a generated year never fails and pastes 365 or 366 images (one per date); with a renderer returning images of the requested size, nothing, including the pasted images, reaches outside the 4929 x 2360 image |
| FullImageExporter.SvgRendererFitsSlot | calendar_app/services/cell_image_service.py:52-55 | a renderer that always succeeds with the SVG backend returns images of the requested size |
| FullImageExporter.FallbackRendererScales | calendar_app/services/cell_image_service.py:117-131 | a renderer that always takes the raster fallback returns images four times the requested width and height |
| FullImageExporter.FallbackPasteExceedsSlot | calendar_app/services/full_image_exporter.py:45-59 | with the fallback's images, every date's pasted image starts at its slot's corner and reaches three slot widths past the slot's right edge and four row heights down |
| FullImageExporter.FallbackExportOverflows | calendar_app/services/full_image_exporter.py:22-68 | with the fallback's images, the export of a generated year pastes the 31 December image at (4770, 2200), reaching (5406, 2840), outside the 4929 x 2360 image |
| FullImageExporter.SlotFills | calendar_app/services/full_image_exporter.py:34-35 | the weekend and weekday fills are the parsed configured colours |
| FullImageExporter.DrawMonthRow | calendar_app/services/full_image_exporter.py:44-67 | the month row's commands are appended, or the first error is reported and the image holds the commands before it |
| FullImageExporter.RenderYearImage | calendar_app/services/full_image_exporter.py:22-69 | a fresh white image, 31 day cells wide and as tall as the 23 rows, with the year's commands row by row, or the first error |
| FileManager.PathJoin | calendar_app/services/file_manager.py:43 | `os.path.join`: an absolute second part replaces the first; otherwise the first part, a `/` if it does not end with one, then the second part |
| FileManager.PathJoinInjective | calendar_app/services/file_manager.py:43 | joining relative names onto the same directory keeps them apart |
| FileManager.NextPiece | calendar_app/services/file_manager.py:70 | each step of `str.format` consumes at least one character of the pattern |
| FileManager.FormatPlainPrefix | calendar_app/services/file_manager.py:70 | `str.format` copies text without braces unchanged |
| FileManager.FormatYearField | calendar_app/services/file_manager.py:70 | the `{year}` field becomes `str(year)` |
| FileManager.OutputPatternFormats | calendar_app/services/file_manager.py:60-70 | "yearly_calendar_{year}.xlsx" formats to "yearly_calendar_" + `str(year)` + ".xlsx" |
| FileManager.TempImageName | calendar_app/services/file_manager.py:42 | the name is "day_", the padded month, "_", the padded day and ".png"; for values 0..99 it is exactly 13 characters |
| FileManager.TempImageNameInjective | calendar_app/services/file_manager.py:42 | different (month, day) pairs in 0..99 give different names |
| FileManager.FileManager.constructor | calendar_app/services/file_manager.py:15-17 | the temporary directory comes from the configuration; it is a constant field and nothing changes it |
| FileManager.FileManager.GetTempImagePath | calendar_app/services/file_manager.py:31-43 | the path is the temporary directory, `/`, then the day's file name |
| FileManager.FileManager.GetOutputFilename | calendar_app/services/file_manager.py:60-70 | the output name is "yearly_calendar_" + `str(year)` + ".xlsx" |
| FileManager.TempPathsDistinct | calendar_app/services/file_manager.py:42-43 | different dates never share a temporary image path, so per-day images do not overwrite each other |
| FileManager.DefaultTempImagePath | calendar_app/services/file_manager.py:42-43 | with the configured directory, 5 January goes to "./temp_calendar_images/day_01_05.png" |
| FileManager.OutputFilenamesDistinct | calendar_app/services/file_manager.py:60-70 | different years give different output names |
| FileManager.Str2026 | calendar_app/services/file_manager.py:70 | `str(2026)` is "2026", so the 2026 workbook is "yearly_calendar_2026.xlsx" |

## Left out

- Rasterisation, font loading and shaping are foreign library calls whose behaviour is not visible. Drawing commands are recorded, not turned into pixels. This covers PIL's rectangle, text and polygon pixel semantics and the alpha compositing of `paste`.
- `textbbox` is a function parameter (an oracle) from a font and a text to a box; `os.path.exists` is a predicate parameter.
- `ImageFont.load_default()` is a font value whose size is taken as 10. This only affects where the English month name goes when no font file exists.
- `_create_svg_image` is left out: its SVG templating, `cairosvg.svg2png` and `Image.open`. Only its outcome is kept, an image of the requested size or an exception, as a predicate parameter (`SvgAttempt`). Whether `cairosvg` imported is a boolean parameter. `_rgb_color`, which it uses, is modelled.
- `FullImageExporter.RenderYearImage` takes the cell renderer as a function parameter rather than calling `CreateImage` with its oracles.
- A day cell without a weekday label is treated as an export error, whichever backend renders it. The program passes `None` on to the renderer. The raster backend then fails when it measures that text. The SVG backend instead writes the text `None` into the cell and succeeds. The model does not capture that SVG outcome.
- A missing day map entry (`KeyError`) is an export error.
- `img.save`, `FileManager.create_temp_dir` and `FileManager.cleanup_temp_files` are filesystem effects.
- `_load_fonts` only sets two fields to `None` and is never used for drawing.
- `_render_pil` computes a triangle line width that no drawing call uses. The model computes it too and does nothing with it.
- `calendar_app/integration/excel_builder.py` is not part of this model: it consists of openpyxl workbook and style calls and file saves. Its row arithmetic repeats the rules modelled in `CalendarService` and `FullImageExporter`.
- `calendar_app/app/calendar_generator.py` and `yearly_calendar.py` are not part of this model. They are orchestration, logging and the current date.
- Floats are modelled as exact reals, so binary floating-point rounding of ratios such as 0.45 and 0.208 is not reproduced.
- Python's `int(s, 16)` is modelled for ASCII text only: Unicode whitespace and non-ASCII digits are not recognised.
- `str.format` is modelled for literal text, `{{`, `}}` and the `{year}` field only; other fields are a formatting error.
- The month banner colour `COLOR_MONTH_BG` is defined in the configuration but read nowhere in the program. `FullImageExporter.MonthBgColor` only shows how the colour parser reads it.
- CalendarConfig.GetWeekdayFontSize: states only the bound `0 <= size <= int(0.35 H)`, not the exact `int(int(0.35 H) * 0.95)`; `DefaultCellFontSizes` gives 53 for the default cell.
- CalendarConfig.GetMonthLabelFontSize: states `0 <= size <= H/4` rather than the exact `int(0.208 H)`; `DefaultCellFontSizes` gives 33 for the default cell.
- CalendarModels.CellCount: states only that the total is at least each month's count and 0 for no months; the sum itself is pinned down by `CellCountAppend` and `ServiceTotalCells`.
- CellImageService.FitFont: maximality (nothing larger fits) is proved only when fitting is downward closed, which a measuring oracle need not be.
- CellImageService.MonthEnglishFont: states the lower bound 6 only, not the exact `max(6, int(0.385 * size))`.
- CellImageService.RgbColor: states the `rgb(...)` shape; which numbers it carries is given by `RgbColorInjective`.
- FullImageExporter.HexToRgb: states the shape of the result; the values are given by the round-trip lemmas and the colour lemmas.
- PyNum.Round2: states the distance to `x` (at most 0.005), not that the result has two decimals.
