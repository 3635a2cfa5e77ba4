/**
 * `FileManager`: names of the per-day temporary images and of the output
 * workbook. Creating and removing the temporary directory is left out.
 */
module FileManager {
  import opened Wrappers
  import opened PyFormat
  import opened CalendarConfig

  // ===== `os.path.join` =====

  /** `posixpath.join(a, b)`: an absolute `b` replaces `a`; otherwise one `/` separates them. */
  function PathJoin(a: string, b: string): (p: string)
    ensures |b| > 0 && b[0] == '/' ==> p == b
    ensures !(|b| > 0 && b[0] == '/') ==> |a| + |b| <= |p| && p[..|a|] == a && p[|p| - |b|..] == b
    ensures !(|b| > 0 && b[0] == '/') && a != "" && a[|a| - 1] != '/' ==> |p| == |a| + 1 + |b| && p[|a|] == '/'
  {
    if |b| > 0 && b[0] == '/' then b
    else if a == "" || a[|a| - 1] == '/' then a + b
    else a + "/" + b
  }

  /** Joining onto the same directory keeps file names that are not absolute apart. */
  lemma PathJoinInjective(a: string, b1: string, b2: string)
    requires !(|b1| > 0 && b1[0] == '/') && !(|b2| > 0 && b2[0] == '/')
    requires PathJoin(a, b1) == PathJoin(a, b2)
    ensures b1 == b2
  {
    var p := PathJoin(a, b1);
    var sep := if a == "" || a[|a| - 1] == '/' then 0 else 1;
    assert p == a + (if sep == 1 then "/" else "") + b1;
    assert |PathJoin(a, b2)| == |a| + sep + |b2|;
    assert p == a + (if sep == 1 then "/" else "") + b2;
    assert b1 == p[|a| + sep..];
    assert b2 == p[|a| + sep..];
  }

  // ===== `str.format` with a `year` field =====

  /** A pattern piece with no replacement fields and no braces. */
  predicate NoBraces(s: string) {
    forall i :: 0 <= i < |s| ==> s[i] != '{' && s[i] != '}'
  }

  /**
   * One step of `str.format`: the text the front of `pattern` produces and
   * what is left after it; `None` for a brace that opens no known field.
   */
  function NextPiece(pattern: string, year: int): (step: (Option<string>, string))
    requires |pattern| > 0
    ensures |step.1| < |pattern|
  {
    if pattern[0] == '{' then
      if |pattern| >= 2 && pattern[1] == '{' then (Some("{"), pattern[2..])
      else if |pattern| >= 6 && pattern[..6] == "{year}" then (Some(Str(year)), pattern[6..])
      else (None, pattern[1..])
    else if pattern[0] == '}' then
      if |pattern| >= 2 && pattern[1] == '}' then (Some("}"), pattern[2..])
      else (None, pattern[1..])
    else (Some([pattern[0]]), pattern[1..])
  }

  /**
   * `pattern.format(year=year)`: `{year}` becomes the year in decimal,
   * `{{` and `}}` become single braces; any other brace is an error
   * (`None`), as an unknown field or a stray brace raises in Python.
   */
  function FormatYear(pattern: string, year: int): Option<string>
    decreases |pattern|
  {
    if |pattern| == 0 then Some("")
    else
      var step := NextPiece(pattern, year);
      if step.0.None? then None
      else
        var tail := FormatYear(step.1, year);
        if tail.None? then None else Some(step.0.value + tail.value)
  }

  /** A character other than a brace is copied through. */
  lemma FormatPlainChar(pattern: string, year: int)
    requires |pattern| > 0 && pattern[0] != '{' && pattern[0] != '}'
    ensures var tail := FormatYear(pattern[1..], year);
      FormatYear(pattern, year) == if tail.None? then None else Some([pattern[0]] + tail.value)
  {
  }

  /** Text without braces passes through `format` unchanged in front of the rest. */
  lemma {:induction false} FormatPlainPrefix(plain: string, rest: string, year: int)
    requires NoBraces(plain)
    ensures FormatYear(plain + rest, year) ==
      if FormatYear(rest, year).Some? then Some(plain + FormatYear(rest, year).value) else None
  {
    if |plain| > 0 {
      var p := plain + rest;
      assert p[0] == plain[0] && p[1..] == plain[1..] + rest;
      FormatPlainChar(p, year);
      FormatPlainPrefix(plain[1..], rest, year);
      var tail := FormatYear(rest, year);
      if tail.Some? {
        assert [plain[0]] + (plain[1..] + tail.value) == plain + tail.value by {
          assert plain == [plain[0]] + plain[1..];
        }
      }
    } else {
      assert plain + rest == rest;
      if FormatYear(rest, year).Some? {
        assert plain + FormatYear(rest, year).value == FormatYear(rest, year).value;
      }
    }
  }

  /** `{year}` followed by plain text. */
  lemma FormatYearField(suffix: string, year: int)
    requires NoBraces(suffix)
    ensures FormatYear("{year}" + suffix, year) == Some(Str(year) + suffix)
  {
    var p := "{year}" + suffix;
    assert p[..2] == "{y";
    assert p[..6] == "{year}";
    assert p[6..] == suffix;
    FormatPlainPrefix(suffix, "", year);
    assert suffix + "" == suffix;
  }

  /** The configured workbook pattern always formats, to the year between a fixed prefix and suffix. */
  lemma OutputPatternFormats(year: int)
    ensures FormatYear(OutputFilenamePattern, year) == Some("yearly_calendar_" + Str(year) + ".xlsx")
  {
    var prefix, field, suffix := "yearly_calendar_", "{year}", ".xlsx";
    assert OutputFilenamePattern == prefix + (field + suffix);
    assert FormatYear(field + suffix, year) == Some(Str(year) + suffix) by {
      FormatYearField(suffix, year);
    }
    assert FormatYear(prefix + (field + suffix), year) == Some(prefix + (Str(year) + suffix)) by {
      FormatPlainPrefix(prefix, field + suffix, year);
    }
    assert prefix + (Str(year) + suffix) == prefix + Str(year) + suffix;
  }

  // ===== The file manager =====

  /** `day_MM_DD.png`. */
  function TempImageName(month: int, day: int): (name: string)
    ensures |name| >= 12 && name[..4] == "day_" && name[|name| - 4..] == ".png"
    ensures 0 <= month < 100 && 0 <= day < 100 ==>
      |name| == 13 && name[4..6] == Pad2(month) && name[6] == '_' && name[7..9] == Pad2(day)
  {
    "day_" + Pad2(month) + "_" + Pad2(day) + ".png"
  }

  /** Two dates in range never share a file name. */
  lemma TempImageNameInjective(m1: int, d1: int, m2: int, d2: int)
    requires 0 <= m1 < 100 && 0 <= d1 < 100 && 0 <= m2 < 100 && 0 <= d2 < 100
    requires TempImageName(m1, d1) == TempImageName(m2, d2)
    ensures m1 == m2 && d1 == d2
  {
    Pad2Injective(m1, m2);
    Pad2Injective(d1, d2);
  }

  class FileManager {
    /** Fixed when the manager is made; nothing changes it afterwards. */
    const tempDir: string

    /** `FileManager(config)`: keeps the configured temporary directory. */
    constructor (configTempDir: string)
      ensures tempDir == configTempDir
    {
      tempDir := configTempDir;
    }

    /** `get_temp_image_path`: the day's file name inside the temporary directory. */
    function GetTempImagePath(month: int, day: int): (path: string)
      ensures |tempDir| + |TempImageName(month, day)| <= |path|
      ensures path[..|tempDir|] == tempDir && path[|path| - |TempImageName(month, day)|..] == TempImageName(month, day)
      ensures tempDir != "" && tempDir[|tempDir| - 1] != '/' ==>
        path == tempDir + "/" + TempImageName(month, day)
    {
      PathJoin(tempDir, TempImageName(month, day))
    }

    /** `get_output_filename`: the configured pattern with the year filled in. */
    function GetOutputFilename(year: int): (name: string)
      ensures name == "yearly_calendar_" + Str(year) + ".xlsx"
    {
      OutputPatternFormats(year);
      FormatYear(OutputFilenamePattern, year).value
    }
  }

  /** Per-day images of different dates never overwrite each other. */
  lemma TempPathsDistinct(fm: FileManager, m1: int, d1: int, m2: int, d2: int)
    requires 1 <= m1 <= 12 && 1 <= d1 <= 31 && 1 <= m2 <= 12 && 1 <= d2 <= 31
    requires (m1, d1) != (m2, d2)
    ensures fm.GetTempImagePath(m1, d1) != fm.GetTempImagePath(m2, d2)
  {
    if fm.GetTempImagePath(m1, d1) == fm.GetTempImagePath(m2, d2) {
      PathJoinInjective(fm.tempDir, TempImageName(m1, d1), TempImageName(m2, d2));
      TempImageNameInjective(m1, d1, m2, d2);
    }
  }

  /** With the default configuration, 5 January goes to `./temp_calendar_images/day_01_05.png`. */
  lemma DefaultTempImagePath(fm: FileManager)
    requires fm.tempDir == TempDir
    ensures fm.GetTempImagePath(1, 5) == "./temp_calendar_images/day_01_05.png"
  {
    assert Pad2(1) == "01" && Pad2(5) == "05";
  }

  /** Different years give different workbook names. */
  lemma OutputFilenamesDistinct(fm: FileManager, y1: int, y2: int)
    requires y1 != y2
    ensures fm.GetOutputFilename(y1) != fm.GetOutputFilename(y2)
  {
    var n1, n2 := fm.GetOutputFilename(y1), fm.GetOutputFilename(y2);
    if n1 == n2 {
      var prefix, suffix := "yearly_calendar_", ".xlsx";
      assert n1 == prefix + Str(y1) + suffix && n2 == prefix + Str(y2) + suffix;
      assert n1[|prefix|..|n1| - |suffix|] == Str(y1);
      assert n2[|prefix|..|n2| - |suffix|] == Str(y2);
      StrInjective(y1, y2);
    }
  }

  /** `str(2026)`: the digits of the 2026 workbook name, `yearly_calendar_2026.xlsx`. */
  lemma Str2026()
    ensures Str(2026) == "2026"
  {
    assert Decimal(2) == "2";
    assert Decimal(20) == "20";
    assert Decimal(202) == "202";
    assert Decimal(2026) == "2026";
  }
}
