/**
 * `CalendarService`: builds the year's calendar data, twelve months of day
 * cells, each cell knowing its Excel position, weekday label and weekend flag.
 */
module CalendarService {
  import opened Wrappers
  import opened CalendarConfig
  import opened CalendarModels
  import opened Gregorian

  /** The cell `_generate_month_data` builds for one day of a month. */
  function DayCell(year: int, month: int, day: int): (c: CellInfo)
    requires 1 <= month <= 12 && 1 <= day <= DaysInMonth(year, month)
    ensures c.kind == "day" && c.month == Some(month) && c.day == Some(day)
    ensures c.col == day && c.row == 2 * month - 1 && c.row % 2 == 1
    ensures c.weekdayChar == Some(WeekdayNames[Weekday(year, month, day)])
    ensures c.isWeekend <==> Weekday(year, month, day) in {5, 6}
    ensures c.widthPx == GetDayCellWidthPx() && c.heightPx == GetDayCellHeightPx()
  {
    var weekdayIndex := Weekday(year, month, day);
    CellInfo(
      kind := "day",
      row := month + (month - 1),
      col := day,
      day := Some(day),
      month := Some(month),
      weekdayChar := Some(WeekdayNames[weekdayIndex]),
      isWeekend := weekdayIndex >= 5,
      widthPx := GetDayCellWidthPx(),
      heightPx := GetDayCellHeightPx())
  }

  /** What the service produces for month `month` of `year`: one cell per day, in order. */
  ghost predicate IsServiceMonth(md: MonthData, year: int, month: int)
    requires 1 <= month <= 12
  {
    && md.year == year
    && md.month == month
    && md.days == DaysInMonth(year, month)
    && |md.cells| == md.days
    && forall i :: 0 <= i < |md.cells| ==> md.cells[i] == DayCell(year, month, i + 1)
  }

  /** Calendar data as `generate_year_data` builds it: months 1 to 12 in order. */
  ghost predicate IsServiceYear(data: YearCalendarData) {
    && |data.months| == 12
    && forall i :: 0 <= i < 12 ==> IsServiceMonth(data.months[i], data.year, i + 1)
  }

  /** `_generate_month_data`: appends the cell of each day 1..num_days. */
  method GenerateMonthData(year: int, month: int) returns (md: MonthData)
    requires 1 <= month <= 12
    ensures IsServiceMonth(md, year, month)
  {
    var numDays := DaysInMonth(year, month);
    var cells: seq<CellInfo> := [];
    var day := 1;
    while day <= numDays
      invariant 1 <= day <= numDays + 1
      invariant |cells| == day - 1
      invariant forall i :: 0 <= i < |cells| ==> cells[i] == DayCell(year, month, i + 1)
    {
      cells := cells + [DayCell(year, month, day)];
      day := day + 1;
    }
    md := MonthData(year, month, numDays, cells);
  }

  /** `generate_year_data`: appends the data of months 1 to 12. */
  method GenerateYearData(year: int) returns (data: YearCalendarData)
    ensures data.year == year
    ensures IsServiceYear(data)
  {
    var months: seq<MonthData> := [];
    var month := 1;
    while month <= 12
      invariant 1 <= month <= 13
      invariant |months| == month - 1
      invariant forall i :: 0 <= i < |months| ==> IsServiceMonth(months[i], year, i + 1)
    {
      var md := GenerateMonthData(year, month);
      months := months + [md];
      month := month + 1;
    }
    data := YearCalendarData(year, months);
  }

  /** Service-built months hold their month numbers 1..12 in order, and as many cells as days. */
  lemma ServiceMonthsInOrder(data: YearCalendarData, i: int)
    requires IsServiceYear(data) && 0 <= i < 12
    ensures data.months[i].month == i + 1 && data.months[i].year == data.year
    ensures data.months[i].days == |data.months[i].cells|
    ensures data.months[1].days == 29 <==> IsLeapYear(data.year)
  {
  }

  /** Consecutive day cells of a month carry consecutive weekday labels. */
  lemma ServiceWeekdaysConsecutive(year: int, month: int, day: int)
    requires 1 <= month <= 12 && 1 <= day < DaysInMonth(year, month)
    ensures DayCell(year, month, day + 1).weekdayChar ==
      Some(WeekdayNames[(Weekday(year, month, day) + 1) % 7])
  {
    WeekdayNextDay(year, month, day);
  }

  /** The cells of the first `k` service-built months are the days before month `k + 1`. */
  lemma {:induction false} ServiceCellCountPrefix(data: YearCalendarData, k: int)
    requires IsServiceYear(data) && 0 <= k <= 12
    ensures CellCount(data.months[..k]) == DaysBeforeMonth(data.year, k + 1)
  {
    if k > 0 {
      assert data.months[..k][..k - 1] == data.months[..k - 1];
      ServiceCellCountPrefix(data, k - 1);
      assert IsServiceMonth(data.months[k - 1], data.year, k);
    }
  }

  /** A service-built year has 365 cells, or 366 in a leap year. */
  lemma ServiceTotalCells(data: YearCalendarData)
    requires IsServiceYear(data)
    ensures data.TotalCells() == DaysInYear(data.year)
    ensures data.TotalCells() == if IsLeapYear(data.year) then 366 else 365
  {
    ServiceCellCountPrefix(data, 12);
    assert data.months[..12] == data.months;
    MonthsFillYear(data.year);
  }
}
