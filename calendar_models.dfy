/**
 * The records the calendar passes between its services: one cell of the
 * calendar, one month of cells, a whole year, and a request to draw one cell.
 */
module CalendarModels {
  import opened Wrappers

  /**
   * `CellInfo`: a cell of kind 'month' or 'day' at an Excel row and column.
   * The optional fields are Python `None` until set; the pixel size defaults
   * to the nominal 165 x 160.
   */
  datatype CellInfo = CellInfo(
    kind: string,
    row: int,
    col: int,
    month: Option<int> := None,
    day: Option<int> := None,
    weekdayChar: Option<string> := None,
    isWeekend: bool := false,
    widthPx: int := 165,
    heightPx: int := 160)

  /** `MonthData`: the cells of one month and its number of days. */
  datatype MonthData = MonthData(year: int, month: int, days: int, cells: seq<CellInfo>)

  /** `YearCalendarData`: the months of one year. */
  datatype YearCalendarData = YearCalendarData(year: int, months: seq<MonthData>) {

    /** `total_cells`: the number of cells over all months. */
    function TotalCells(): nat {
      CellCount(months)
    }
  }

  /** The number of cells in a list of months, summed month by month. */
  function CellCount(months: seq<MonthData>): (n: nat)
    ensures forall i :: 0 <= i < |months| ==> |months[i].cells| <= n
    ensures |months| == 0 ==> n == 0
  {
    if |months| == 0 then 0
    else CellCount(months[..|months| - 1]) + |months[|months| - 1].cells|
  }

  /** Counting cells is additive over concatenated lists of months. */
  lemma {:induction false} CellCountAppend(a: seq<MonthData>, b: seq<MonthData>)
    ensures CellCount(a + b) == CellCount(a) + CellCount(b)
  {
    if |b| == 0 {
      assert a + b == a;
    } else {
      assert (a + b)[..|a + b| - 1] == a + b[..|b| - 1];
      CellCountAppend(a, b[..|b| - 1]);
    }
  }

  /** A cell built from its kind, row and column alone has the dataclass defaults. */
  lemma CellInfoDefaults(kind: string, row: int, col: int)
    ensures var c := CellInfo(kind, row, col);
      c.month == None && c.day == None && c.weekdayChar == None &&
      !c.isWeekend && c.widthPx == 165 && c.heightPx == 160
  {
  }

  /**
   * `ImageGenerationRequest`: what the cell renderer needs to draw one day
   * (month 1-12, day 1-31, weekday label, pixel size); not a weekend unless said.
   */
  datatype ImageGenerationRequest = ImageGenerationRequest(
    month: int,
    day: int,
    weekdayChar: string,
    cellWidthPx: int,
    cellHeightPx: int,
    isWeekend: bool := false)

  /** A request built without a weekend flag is a weekday request. */
  lemma RequestWeekendDefault(month: int, day: int, weekdayChar: string, w: int, h: int)
    ensures !ImageGenerationRequest(month, day, weekdayChar, w, h).isWeekend
  {
  }
}
