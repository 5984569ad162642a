/**
 * `src/etl/transform.py`: the cleaning of the 2014 match file. The columns
 * kept by the configuration are renamed, a compact day-first date column is
 * added, stage and team names are harmonised (the team columns are scanned
 * for anomalies first), rows are sorted by date, numbered from 1, and the
 * nine canonical columns are returned in their fixed order.
 */
module Transform {
  import opened Wrappers
  import opened Text
  import opened Cells
  import opened Dates
  import opened Sorting
  import opened Tables
  import Utils

  /* ---------------------------------------------------------------------- */
  /* normalize_datetime (day-first copy)                                      */
  /* ---------------------------------------------------------------------- */

  /** A value as `YYYYMMDDhhmmss`, parsed day-first only; None when missing or unparseable. */
  function NormalizeDatetimeDayFirst(c: Cell, parse: DateParser): (r: Option<string>)
    ensures r.Some? ==> |r.value| == 14 && AllDigits(r.value)
    ensures r.None? <==> c.Null? || parse(c, DayFirst).None?
    ensures r.Some? ==> parse(c, DayFirst).Some? && r.value == FormatStamp(parse(c, DayFirst).value)
  {
    if c.Null? then None
    else match parse(c, DayFirst)
      case Some(st) => Some(FormatStamp(st))
      case None => None
  }

  /**
   * The day-first copy agrees with the general normaliser wherever the latter
   * falls back to day-first, and on every value both read the same way.
   */
  lemma DayFirstAgreesWithFallback(c: Cell, parse: DateParser)
    ensures parse(c, MonthFirst).None? ==> NormalizeDatetimeDayFirst(c, parse) == Utils.NormalizeDatetime(c, parse)
    ensures parse(c, MonthFirst) == parse(c, DayFirst) ==> NormalizeDatetimeDayFirst(c, parse) == Utils.NormalizeDatetime(c, parse)
  {
  }

  /**
   * Where both readings of a value succeed and disagree (`06/12/2014`), the
   * copy returns the day-first instant and so differs from the general
   * normaliser, which keeps the month-first one.
   */
  lemma DayFirstWhereReadingsDiffer(c: Cell, parse: DateParser)
    requires !c.Null? && parse(c, MonthFirst).Some? && parse(c, DayFirst).Some?
    requires parse(c, MonthFirst) != parse(c, DayFirst)
    ensures NormalizeDatetimeDayFirst(c, parse) == Some(FormatStamp(parse(c, DayFirst).value))
    ensures NormalizeDatetimeDayFirst(c, parse) != Utils.NormalizeDatetime(c, parse)
  {
    FormatOrder(parse(c, MonthFirst).value, parse(c, DayFirst).value);
  }

  /** Compact dates compare as strings exactly as the instants compare in time. */
  lemma DayFirstChronological(a: Cell, b: Cell, parse: DateParser)
    requires NormalizeDatetimeDayFirst(a, parse).Some? && NormalizeDatetimeDayFirst(b, parse).Some?
    ensures LexLt(NormalizeDatetimeDayFirst(a, parse).value, NormalizeDatetimeDayFirst(b, parse).value)
        <==> Before(parse(a, DayFirst).value, parse(b, DayFirst).value)
  {
    FormatOrder(parse(a, DayFirst).value, parse(b, DayFirst).value);
  }

  /** `df["datetime"].apply(normalize_datetime)`: a string, or a missing value. */
  function DateCells(cells: seq<Cell>, parse: DateParser): (r: seq<Cell>)
    ensures |r| == |cells|
    ensures forall i :: 0 <= i < |cells| ==> !r[i].Int?
    ensures forall i :: 0 <= i < |cells| ==>
      (r[i].Null? <==> NormalizeDatetimeDayFirst(cells[i], parse).None?)
    ensures forall i :: 0 <= i < |cells| && r[i].Str? ==> |r[i].s| == 14 && AllDigits(r[i].s)
    ensures forall i :: 0 <= i < |cells| && r[i].Str? ==>
      parse(cells[i], DayFirst).Some? && r[i].s == FormatStamp(parse(cells[i], DayFirst).value)
  {
    seq(|cells|, i requires 0 <= i < |cells| =>
      match NormalizeDatetimeDayFirst(cells[i], parse)
      case Some(s) => Str(s)
      case None => Null)
  }

  /* ---------------------------------------------------------------------- */
  /* test_country_column (copy)                                               */
  /* ---------------------------------------------------------------------- */

  /** The module's own copy of the anomaly scan; it behaves as the shared one. */
  method CheckCountryColumn(df: Frame, column: string) returns (r: Result<Utils.Issues, Error>)
    requires df.Valid()
    ensures Utils.ScanOutcome(df.Value(), column, r)
  {
    r := Utils.CheckCountryColumn(df, column);
  }

  /** The error the scan of a column raises, if any. */
  function ScanError(t: Table, column: string): (r: Option<Error>)
    ensures r.None? <==> Has(t, column) && Utils.Scan(Utils.ScannedTexts(Get(t, column))).Some?
  {
    if !Has(t, column) then Some(MissingColumn(column))
    else if Utils.Scan(Utils.ScannedTexts(Get(t, column))).None? then Some(BlankValue(column))
    else None
  }

  /** Any outcome the scan's contract allows raises exactly the error above. */
  lemma ScanOutcomeError(t: Table, column: string, r: Result<Utils.Issues, Error>)
    requires Utils.ScanOutcome(t, column, r)
    ensures r.Failure? <==> ScanError(t, column).Some?
    ensures r.Failure? ==> r.error == ScanError(t, column).value
  {
  }

  /* ---------------------------------------------------------------------- */
  /* trf_file_wcup_2014                                                       */
  /* ---------------------------------------------------------------------- */

  /** `.str.lower().str.replace(" ", "_")` on a column label. */
  function NormalizeColumnName(n: string): (r: string)
    ensures |r| == |n|
  {
    var l := Lower(n);
    seq(|l|, k requires 0 <= k < |l| => if l[k] == ' ' then '_' else l[k])
  }

  /** Normalised labels hold no space and no upper-case letter, so normalising again changes nothing. */
  lemma NormalizeColumnNameClean(n: string)
    ensures forall k :: 0 <= k < |n| ==> NormalizeColumnName(n)[k] != ' ' && !IsUpperChar(NormalizeColumnName(n)[k])
    ensures NormalizeColumnName(NormalizeColumnName(n)) == NormalizeColumnName(n)
  {
    var r := NormalizeColumnName(n);
    forall k | 0 <= k < |n|
      ensures r[k] != ' ' && !IsUpperChar(r[k])
    {
      assert r[k] == if Lower(n)[k] == ' ' then '_' else Lower(n)[k];
    }
    forall k | 0 <= k < |n|
      ensures NormalizeColumnName(r)[k] == r[k]
    {
      assert Lower(r)[k] == r[k];
    }
  }

  /** The `trf_file_wcup_2014` section of the configuration. */
  datatype Config2014 = Config2014(
    keep: seq<string>,                      // colonnes_retenues
    newsColumns: map<string, string>,       // news_columns
    stageMapping: map<string, string>,      // stage_mapping
    teamMapping: map<string, string>)       // correction_team_mapping

  /** The columns of the result, in order. */
  const Canonical: seq<string> :=
    ["match_id", "date", "home_team", "away_team", "home_result", "away_result", "stage", "edition", "city"]

  /** Every date is a 14-digit compact timestamp or missing. */
  predicate CompactDates(cells: seq<Cell>) {
    forall k :: 0 <= k < |cells| ==> cells[k].Null? || (cells[k].Str? && |cells[k].s| == 14 && AllDigits(cells[k].s))
  }

  /** A column of compact dates mixes no integers with strings, so it can be sorted. */
  lemma CompactDatesComparable(cells: seq<Cell>)
    requires CompactDates(cells)
    ensures Comparable(cells)
  {
  }

  /** No value of the column is renamed by the mapping any more. */
  predicate Settled(cells: seq<Cell>, m: map<string, string>) {
    forall k :: 0 <= k < |cells| ==> Utils.HarmonizeCell(cells[k], m) == cells[k]
  }

  /** With a closed mapping, harmonised values are settled. */
  lemma HarmonizedSettled(cells: seq<Cell>, m: map<string, string>)
    ensures Utils.Closed(m) ==> Settled(Utils.HarmonizeCells(cells, m), m)
  {
    if Utils.Closed(m) {
      Utils.HarmonizeIdempotent(cells, m);
      var r := Utils.HarmonizeCells(cells, m);
      forall k | 0 <= k < |r|
        ensures Utils.HarmonizeCell(r[k], m) == r[k]
      {
        assert Utils.HarmonizeCells(r, m)[k] == r[k];
      }
    }
  }

  /** The column names the transformation treats specially are pairwise different. */
  lemma ColumnNamesDiffer()
    ensures "date" != "stage" && "date" != "home_team" && "date" != "away_team" && "date" != "datetime"
    ensures "stage" != "home_team" && "stage" != "away_team" && "home_team" != "away_team"
  {
    assert |"date"| == 4 && |"stage"| == 5 && |"datetime"| == 8 && |"home_team"| == 9 && |"away_team"| == 9;
    assert "home_team"[0] != "away_team"[0];
  }

  /** Only the first canonical column is `match_id`. */
  lemma CanonicalIds()
    ensures |Canonical| == 9 && Canonical[0] == "match_id" && Canonical[1] == "date"
    ensures Canonical[2] == "home_team" && Canonical[3] == "away_team"
    ensures forall c :: 1 <= c < |Canonical| ==> Canonical[c] != "match_id"
    ensures forall c :: 0 <= c < |Canonical| && c != 1 ==> Canonical[c] != "date"
  {
    forall c | 0 <= c < |Canonical| && c != 1
      ensures Canonical[c] != "date"
    {
      assert |Canonical[c]| != 4 || Canonical[c][0] == 'c';
    }
  }

  /** Selection of the configured columns, label normalisation, then renaming. */
  function Selected(df: Table, cfg: Config2014): (r: Result<Table, Error>)
    requires WellFormed(df)
    ensures r.Success? <==> forall i :: 0 <= i < |cfg.keep| ==> Has(df, cfg.keep[i])
    ensures r.Failure? ==> exists i :: 0 <= i < |cfg.keep| && r.error == MissingColumn(cfg.keep[i]) && !Has(df, cfg.keep[i])
    ensures r.Success? ==> WellFormed(r.value) && r.value.height == df.height && |r.value.cols| == |cfg.keep|
    ensures r.Success? ==> forall i :: 0 <= i < |cfg.keep| ==>
      r.value.cols[i] == Column(MapOr(cfg.newsColumns, NormalizeColumnName(cfg.keep[i])), Get(df, cfg.keep[i]))
  {
    var kept :- Project(df, cfg.keep);
    Success(Rename(MapNames(kept, NormalizeColumnName), cfg.newsColumns))
  }

  /** `df["date"] = df["datetime"].apply(normalize_datetime)` */
  function WithDate(t: Table, parse: DateParser): (r: Result<Table, Error>)
    requires WellFormed(t)
    ensures r.Success? <==> Has(t, "datetime")
    ensures r.Failure? ==> r.error == MissingColumn("datetime")
    ensures r.Success? ==> WellFormed(r.value) && r.value.height == t.height
    ensures r.Success? ==> Has(r.value, "date") && CompactDates(Get(r.value, "date"))
    ensures r.Success? ==> Get(r.value, "date") == DateCells(Get(t, "datetime"), parse)
    ensures r.Success? ==> forall n :: n != "date" ==>
      (Has(r.value, n) <==> Has(t, n)) && (Has(t, n) ==> Get(r.value, n) == Get(t, n))
  {
    if !Has(t, "datetime") then Failure(MissingColumn("datetime"))
    else
      GetLength(t, "datetime");
      Success(Put(t, "date", DateCells(Get(t, "datetime"), parse)))
  }

  /**
   * Replace a column's values through a mapping, keeping unmapped values:
   * `df[col].map(m).fillna(df[col])`.
   */
  function Harmonized(t: Table, column: string, m: map<string, string>): (r: Table)
    requires WellFormed(t) && Has(t, column)
    ensures WellFormed(r) && r.height == t.height && Names(r.cols) == Names(t.cols)
    ensures forall n :: n != column && Has(t, n) ==> Has(r, n) && Get(r, n) == Get(t, n)
    ensures Has(r, column) && Get(r, column) == Utils.HarmonizeCells(Get(t, column), m)
    ensures Utils.Closed(m) ==> Settled(Get(r, column), m)
  {
    HarmonizedSettled(Get(t, column), m);
    GetLength(t, column);
    Put(t, column, Utils.HarmonizeCells(Get(t, column), m))
  }

  /** Scan a team column for anomalies, then correct its names through the mapping. */
  function CorrectTeams(t: Table, column: string, m: map<string, string>): (r: Result<Table, Error>)
    requires WellFormed(t)
    ensures r.Failure? <==> ScanError(t, column).Some?
    ensures r.Failure? ==> r.error == ScanError(t, column).value
    ensures r.Success? ==> WellFormed(r.value) && r.value.height == t.height
    ensures r.Success? ==> forall n :: n != column && Has(t, n) ==> Has(r.value, n) && Get(r.value, n) == Get(t, n)
    ensures r.Success? ==> Names(r.value.cols) == Names(t.cols)
    ensures r.Success? ==> Has(t, column) && Has(r.value, column) && Get(r.value, column) == Utils.HarmonizeCells(Get(t, column), m)
    ensures r.Success? ==> (Utils.Closed(m) ==> Settled(Get(r.value, column), m))
  {
    match ScanError(t, column)
    case Some(e) => Failure(e)
    case None => Success(Harmonized(t, column, m))
  }

  /** Both team columns, home first. */
  function CorrectBothTeams(t: Table, m: map<string, string>): (r: Result<Table, Error>)
    requires WellFormed(t)
    ensures r.Success? ==> WellFormed(r.value) && r.value.height == t.height
    ensures r.Success? ==> Names(r.value.cols) == Names(t.cols)
    ensures r.Success? ==> forall n :: n != "home_team" && n != "away_team" && Has(t, n) ==>
      Has(r.value, n) && Get(r.value, n) == Get(t, n)
    ensures r.Success? ==> Has(t, "home_team") && Has(r.value, "home_team")
    ensures r.Success? ==> Get(r.value, "home_team") == Utils.HarmonizeCells(Get(t, "home_team"), m)
    ensures r.Success? ==> Has(t, "away_team") && Has(r.value, "away_team")
    ensures r.Success? ==> Get(r.value, "away_team") == Utils.HarmonizeCells(Get(t, "away_team"), m)
  {
    var home :- CorrectTeams(t, "home_team", m);
    ColumnNamesDiffer();
    IndexOfSameNames(home.cols, t.cols, "away_team");
    CorrectTeams(home, "away_team", m)
  }

  /** The normalised stage names, then both team columns. */
  function Corrected(t: Table, cfg: Config2014): (r: Result<Table, Error>)
    requires WellFormed(t)
    ensures r.Success? ==> WellFormed(r.value) && r.value.height == t.height
    ensures r.Success? ==> Names(r.value.cols) == Names(t.cols)
    ensures r.Success? ==> forall n :: n != "stage" && n != "home_team" && n != "away_team" && Has(t, n) ==>
      Has(r.value, n) && Get(r.value, n) == Get(t, n)
    ensures r.Success? ==> Has(t, "stage") && Has(r.value, "stage")
    ensures r.Success? ==> Get(r.value, "stage") == Utils.HarmonizeCells(Get(t, "stage"), cfg.stageMapping)
    ensures r.Success? ==> Has(t, "home_team") && Has(r.value, "home_team")
    ensures r.Success? ==> Get(r.value, "home_team") == Utils.HarmonizeCells(Get(t, "home_team"), cfg.teamMapping)
    ensures r.Success? ==> Has(t, "away_team") && Has(r.value, "away_team")
    ensures r.Success? ==> Get(r.value, "away_team") == Utils.HarmonizeCells(Get(t, "away_team"), cfg.teamMapping)
  {
    if !Has(t, "stage") then Failure(MissingColumn("stage"))
    else
      ColumnNamesDiffer();
      CorrectBothTeams(Harmonized(t, "stage", cfg.stageMapping), cfg.teamMapping)
  }

  /** Everything the transformation does before the sort. */
  function Prepared(df: Table, cfg: Config2014, parse: DateParser): (r: Result<Table, Error>)
    requires WellFormed(df)
    ensures r.Success? ==> WellFormed(r.value) && r.value.height == df.height
    ensures r.Success? ==> Has(r.value, "date") && CompactDates(Get(r.value, "date"))
  {
    var named :- Selected(df, cfg);
    var dated :- WithDate(named, parse);
    var r := Corrected(dated, cfg);
    ColumnNamesDiffer();
    assert r.Success? ==> Has(r.value, "date") && Get(r.value, "date") == Get(dated, "date");
    r
  }

  /** `range(1, n + 1)` as a column. */
  function Ids(n: nat): (r: seq<Cell>)
    ensures |r| == n && forall i :: 0 <= i < n ==> r[i] == Int(i + 1)
  {
    seq(n, i requires 0 <= i < n => Int(i + 1))
  }

  /** Sort the rows by date, then number them from 1 in that order. */
  function Rekey(t: Table): (r: Table)
    requires WellFormed(t) && Has(t, "date") && Comparable(Get(t, "date"))
    ensures WellFormed(r) && r.height == t.height
  {
    var sorted := SortRows(t, "date").value;
    Put(sorted, "match_id", Ids(sorted.height))
  }

  /**
   * After the sort and the numbering, `match_id` runs 1, 2, ... and the date
   * column is in ascending order (and can still be sorted).
   */
  lemma RekeyNumbersSorted(t: Table)
    requires WellFormed(t) && Has(t, "date") && Comparable(Get(t, "date"))
    ensures Has(Rekey(t), "match_id") && Get(Rekey(t), "match_id") == Ids(t.height)
    ensures Has(Rekey(t), "date") && Sorted(Get(Rekey(t), "date")) && Comparable(Get(Rekey(t), "date"))
  {
    var keys := Get(t, "date");
    GetLength(t, "date");
    var p := SortOrder(keys);
    SortOrderCorrect(keys);
    var sorted := Reorder(t, p);
    assert SortRows(t, "date").value == sorted;
    GetReorder(t, p, "date");
    var dates := Get(sorted, "date");
    forall i, j | 0 <= i < j < |dates|
      ensures KeyLe(dates[i], dates[j])
    {
      assert dates[i] == keys[p[i]] && dates[j] == keys[p[j]];
    }
    assert Get(Rekey(t), "date") == dates;
  }

  /**
   * Every column but `match_id` keeps its name and holds its rows in the
   * order the sort chose, a permutation of the original rows.
   */
  lemma RekeyColumn(t: Table, n: string)
    requires WellFormed(t) && Has(t, "date") && Comparable(Get(t, "date")) && n != "match_id"
    ensures Has(Rekey(t), n) <==> Has(t, n)
    ensures Has(t, n) ==> |Get(t, n)| == t.height && Get(Rekey(t), n) == Permute(Get(t, n), SortOrder(Get(t, "date")))
  {
    var keys := Get(t, "date");
    GetLength(t, "date");
    var p := SortOrder(keys);
    SortOrderCorrect(keys);
    var sorted := Reorder(t, p);
    assert SortRows(t, "date").value == sorted;
    IndexOfSameNames(sorted.cols, t.cols, n);
    if Has(t, n) {
      GetReorder(t, p, n);
    }
  }

  /** A table already sorted by date and numbered in that order is left as it is. */
  lemma RekeyStable(u: Table)
    requires WellFormed(u) && Has(u, "date") && Comparable(Get(u, "date")) && Sorted(Get(u, "date"))
    requires Has(u, "match_id") && Get(u, "match_id") == Ids(u.height)
    ensures Rekey(u) == u
  {
    GetLength(u, "date");
    SortOrderCorrect(Get(u, "date"));
    assert SortRows(u, "date").value == Reorder(u, Range(u.height));
    ReorderIdentity(u);
    PutSame(u, "match_id", Ids(u.height));
  }

  /** Sorting and numbering a second time changes nothing. */
  lemma RekeyIdempotent(t: Table)
    requires WellFormed(t) && Has(t, "date") && Comparable(Get(t, "date"))
    ensures Has(Rekey(t), "date") && Comparable(Get(Rekey(t), "date"))
    ensures Rekey(Rekey(t)) == Rekey(t)
  {
    RekeyNumbersSorted(t);
    RekeyStable(Rekey(t));
  }

  /** Sort, number, and keep the canonical columns in their order. */
  function Finish(pre: Table): (r: Result<Table, Error>)
    requires WellFormed(pre) && Has(pre, "date") && CompactDates(Get(pre, "date"))
  {
    CompactDatesComparable(Get(pre, "date"));
    Project(Rekey(pre), Canonical)
  }

  /** The table the 2014 transformation returns, or the exception it raises. */
  function Wcup2014Spec(df: Table, cfg: Config2014, parse: DateParser): (r: Result<Table, Error>)
    requires WellFormed(df)
  {
    var pre :- Prepared(df, cfg, parse);
    Finish(pre)
  }

  /** With a closed correction mapping, both corrected team columns are settled. */
  lemma CorrectBothTeamsSettled(t: Table, m: map<string, string>)
    requires WellFormed(t) && CorrectBothTeams(t, m).Success? && Utils.Closed(m)
    ensures Has(CorrectBothTeams(t, m).value, "home_team") && Settled(Get(CorrectBothTeams(t, m).value, "home_team"), m)
    ensures Has(CorrectBothTeams(t, m).value, "away_team") && Settled(Get(CorrectBothTeams(t, m).value, "away_team"), m)
  {
    var home := CorrectTeams(t, "home_team", m).value;
    assert CorrectBothTeams(t, m) == CorrectTeams(home, "away_team", m);
  }

  /** With a closed correction mapping, no team name of the prepared table is renamed again. */
  lemma PreparedTeamsSettled(df: Table, cfg: Config2014, parse: DateParser)
    requires WellFormed(df) && Prepared(df, cfg, parse).Success? && Utils.Closed(cfg.teamMapping)
    ensures Has(Prepared(df, cfg, parse).value, "home_team") && Has(Prepared(df, cfg, parse).value, "away_team")
    ensures Settled(Get(Prepared(df, cfg, parse).value, "home_team"), cfg.teamMapping)
    ensures Settled(Get(Prepared(df, cfg, parse).value, "away_team"), cfg.teamMapping)
  {
    var dated := WithDate(Selected(df, cfg).value, parse).value;
    var staged := Harmonized(dated, "stage", cfg.stageMapping);
    assert Prepared(df, cfg, parse) == CorrectBothTeams(staged, cfg.teamMapping);
    CorrectBothTeamsSettled(staged, cfg.teamMapping);
  }

  /** The team steps raise only for a missing or blank team column. */
  lemma CorrectBothTeamsErrors(t: Table, m: map<string, string>)
    requires WellFormed(t) && CorrectBothTeams(t, m).Failure?
    ensures CorrectBothTeams(t, m).error in
      {MissingColumn("home_team"), BlankValue("home_team"), MissingColumn("away_team"), BlankValue("away_team")}
  {
    var home := CorrectTeams(t, "home_team", m);
    if home.Success? {
      assert CorrectBothTeams(t, m) == CorrectTeams(home.value, "away_team", m);
    }
  }

  /** Preparation raises only a missing column or a blank team name. */
  lemma PreparedErrors(df: Table, cfg: Config2014, parse: DateParser)
    requires WellFormed(df) && Prepared(df, cfg, parse).Failure?
    ensures Prepared(df, cfg, parse).error.MissingColumn? || Prepared(df, cfg, parse).error in {BlankValue("home_team"), BlankValue("away_team")}
  {
    var sel := Selected(df, cfg);
    if sel.Success? {
      var dated := WithDate(sel.value, parse);
      if dated.Success? && Has(dated.value, "stage") {
        var staged := Harmonized(dated.value, "stage", cfg.stageMapping);
        assert Prepared(df, cfg, parse) == CorrectBothTeams(staged, cfg.teamMapping);
        CorrectBothTeamsErrors(staged, cfg.teamMapping);
      }
    }
  }

  /**
   * The transformation raises only a missing column or a blank team name:
   * the sort on the compact dates never fails.
   */
  lemma Wcup2014Errors(df: Table, cfg: Config2014, parse: DateParser)
    requires WellFormed(df) && Wcup2014Spec(df, cfg, parse).Failure?
    ensures var e := Wcup2014Spec(df, cfg, parse).error;
      e.MissingColumn? || e == BlankValue("home_team") || e == BlankValue("away_team")
  {
    if Prepared(df, cfg, parse).Failure? {
      PreparedErrors(df, cfg, parse);
    }
  }

  /**
   * The finished table has exactly the nine columns, one row per prepared
   * row, `match_id` numbering the rows from 1, and the compact dates ascending.
   */
  lemma FinishShape(pre: Table)
    requires WellFormed(pre) && Has(pre, "date") && CompactDates(Get(pre, "date")) && Finish(pre).Success?
    ensures Names(Finish(pre).value.cols) == Canonical
    ensures WellFormed(Finish(pre).value) && Finish(pre).value.height == pre.height
    ensures Finish(pre).value.cols[0].cells == Ids(pre.height)
    ensures Sorted(Finish(pre).value.cols[1].cells) && CompactDates(Finish(pre).value.cols[1].cells)
  {
    CompactDatesComparable(Get(pre, "date"));
    RekeyNumbersSorted(pre);
    RekeyColumn(pre, "date");
    var out := Finish(pre).value;
    assert out.cols[1].cells == Get(Rekey(pre), "date");
    var dates := out.cols[1].cells;
    forall k | 0 <= k < |dates|
      ensures dates[k].Null? || (dates[k].Str? && |dates[k].s| == 14 && AllDigits(dates[k].s))
    {
      assert dates[k] == Get(pre, "date")[SortOrder(Get(pre, "date"))[k]];
    }
  }

  /**
   * Every finished column after `match_id` is the prepared column of that
   * name, its rows permuted by the date sort.
   */
  lemma FinishColumn(pre: Table, c: nat)
    requires WellFormed(pre) && Has(pre, "date") && CompactDates(Get(pre, "date")) && Finish(pre).Success?
    requires 1 <= c < |Canonical|
    ensures multiset(SortOrder(Get(pre, "date"))) == multiset(Range(pre.height))
    ensures |Finish(pre).value.cols| == |Canonical|
    ensures Has(pre, Canonical[c]) && |Get(pre, Canonical[c])| == pre.height
    ensures Finish(pre).value.cols[c].cells == Permute(Get(pre, Canonical[c]), SortOrder(Get(pre, "date")))
  {
    CompactDatesComparable(Get(pre, "date"));
    GetLength(pre, "date");
    SortOrderCorrect(Get(pre, "date"));
    var n := Canonical[c];
    CanonicalIds();
    RekeyColumn(pre, n);
    assert Has(Rekey(pre), n) && Finish(pre).value.cols[c].cells == Get(Rekey(pre), n);
  }

  /** The shape of the 2014 result (see FinishShape). */
  lemma Wcup2014Shape(df: Table, cfg: Config2014, parse: DateParser)
    requires WellFormed(df) && Wcup2014Spec(df, cfg, parse).Success?
    ensures Names(Wcup2014Spec(df, cfg, parse).value.cols) == Canonical
    ensures WellFormed(Wcup2014Spec(df, cfg, parse).value) && Wcup2014Spec(df, cfg, parse).value.height == df.height
    ensures Wcup2014Spec(df, cfg, parse).value.cols[0].cells == Ids(df.height)
    ensures Sorted(Wcup2014Spec(df, cfg, parse).value.cols[1].cells)
    ensures CompactDates(Wcup2014Spec(df, cfg, parse).value.cols[1].cells)
  {
    FinishShape(Prepared(df, cfg, parse).value);
  }

  /** The rows of the 2014 result are the prepared rows in date order (see FinishRows). */
  lemma Wcup2014Rows(df: Table, cfg: Config2014, parse: DateParser)
    requires WellFormed(df) && Wcup2014Spec(df, cfg, parse).Success?
    ensures Prepared(df, cfg, parse).Success?
    ensures var pre := Prepared(df, cfg, parse).value;
      Has(pre, "date") && multiset(SortOrder(Get(pre, "date"))) == multiset(Range(df.height))
    ensures var pre := Prepared(df, cfg, parse).value;
      var out := Wcup2014Spec(df, cfg, parse).value;
      |out.cols| == |Canonical| &&
      forall c :: 1 <= c < |Canonical| ==>
        Has(pre, Canonical[c]) && |Get(pre, Canonical[c])| == df.height &&
        out.cols[c].cells == Permute(Get(pre, Canonical[c]), SortOrder(Get(pre, "date")))
  {
    var pre := Prepared(df, cfg, parse).value;
    FinishColumn(pre, 1);
    forall c | 1 <= c < |Canonical|
      ensures Has(pre, Canonical[c]) && |Get(pre, Canonical[c])| == df.height
      ensures Wcup2014Spec(df, cfg, parse).value.cols[c].cells == Permute(Get(pre, Canonical[c]), SortOrder(Get(pre, "date")))
    {
      FinishColumn(pre, c);
    }
  }

  /**
   * What the transformation puts in column `n` before the sort, read off the
   * selected and renamed table: `date` is the day-first conversion of
   * `datetime`, `stage` and the two team columns go through their mappings,
   * and any other column is carried as it is. None when the source column is
   * missing.
   */
  function Expected(named: Table, cfg: Config2014, parse: DateParser, n: string): Option<seq<Cell>> {
    if n == "date" then
      if Has(named, "datetime") then Some(DateCells(Get(named, "datetime"), parse)) else None
    else if !Has(named, n) then None
    else if n == "stage" then Some(Utils.HarmonizeCells(Get(named, n), cfg.stageMapping))
    else if n == "home_team" || n == "away_team" then Some(Utils.HarmonizeCells(Get(named, n), cfg.teamMapping))
    else Some(Get(named, n))
  }

  /** The `date` column, then the mapped and the carried columns, of the prepared table. */
  lemma PreparedDate(df: Table, cfg: Config2014, parse: DateParser)
    requires WellFormed(df) && Prepared(df, cfg, parse).Success?
    ensures Selected(df, cfg).Success? && WellFormed(Selected(df, cfg).value)
    ensures Has(Selected(df, cfg).value, "datetime") && Has(Prepared(df, cfg, parse).value, "date")
    ensures Expected(Selected(df, cfg).value, cfg, parse, "date") == Some(Get(Prepared(df, cfg, parse).value, "date"))
  {
    var named := Selected(df, cfg).value;
    var dated := WithDate(named, parse).value;
    var pre := Prepared(df, cfg, parse).value;
    assert Prepared(df, cfg, parse) == Corrected(dated, cfg);
    ColumnNamesDiffer();
    assert Get(pre, "date") == Get(dated, "date");
  }

  lemma PreparedColumn(df: Table, cfg: Config2014, parse: DateParser, n: string)
    requires WellFormed(df) && Prepared(df, cfg, parse).Success? && n != "date"
    ensures Selected(df, cfg).Success?
    ensures Has(Prepared(df, cfg, parse).value, n) ==>
      Expected(Selected(df, cfg).value, cfg, parse, n) == Some(Get(Prepared(df, cfg, parse).value, n))
  {
    var named := Selected(df, cfg).value;
    var dated := WithDate(named, parse).value;
    var pre := Prepared(df, cfg, parse).value;
    assert Prepared(df, cfg, parse) == Corrected(dated, cfg);
    ColumnNamesDiffer();
    if Has(pre, n) {
      IndexOfSameNames(pre.cols, dated.cols, n);
      assert Has(named, n) && Get(dated, n) == Get(named, n);
      if n == "stage" {
        assert Get(pre, n) == Utils.HarmonizeCells(Get(dated, n), cfg.stageMapping);
      } else if n == "home_team" || n == "away_team" {
        assert Get(pre, n) == Utils.HarmonizeCells(Get(dated, n), cfg.teamMapping);
      } else {
        assert Get(pre, n) == Get(dated, n);
      }
    }
  }

  /** A canonical column of the prepared table, and the order the sort will use, read off the selected table. */
  lemma PreparedCanonical(df: Table, cfg: Config2014, parse: DateParser, c: nat)
    requires WellFormed(df) && Prepared(df, cfg, parse).Success? && 1 <= c < |Canonical|
    ensures Selected(df, cfg).Success?
    ensures var named, pre := Selected(df, cfg).value, Prepared(df, cfg, parse).value;
      WellFormed(named) && named.height == df.height && Has(named, "datetime") &&
      Has(pre, "date") && SortOrder(Get(pre, "date")) == DateOrder(named, parse) &&
      (Has(pre, Canonical[c]) ==> Expected(named, cfg, parse, Canonical[c]) == Some(Get(pre, Canonical[c])))
  {
    var pre := Prepared(df, cfg, parse).value;
    PreparedDate(df, cfg, parse);
    CanonicalIds();
    if c != 1 {
      PreparedColumn(df, cfg, parse, Canonical[c]);
    }
  }

  /** The order the sort puts the rows in: by the converted `datetime` of the selected table. */
  function DateOrder(named: Table, parse: DateParser): (p: seq<nat>)
    requires WellFormed(named) && Has(named, "datetime")
    ensures |p| == named.height && InRange(p, named.height)
  {
    GetLength(named, "datetime");
    SortOrder(DateCells(Get(named, "datetime"), parse))
  }

  /**
   * Every column of the result after `match_id` is the column the
   * transformation derives from the selected table, permuted by the date
   * order.
   */
  lemma Wcup2014Column(df: Table, cfg: Config2014, parse: DateParser, c: nat)
    requires WellFormed(df) && Wcup2014Spec(df, cfg, parse).Success? && 1 <= c < |Canonical|
    ensures Selected(df, cfg).Success?
    ensures var named := Selected(df, cfg).value;
      WellFormed(named) && named.height == df.height && Has(named, "datetime") &&
      Expected(named, cfg, parse, Canonical[c]).Some? && |Expected(named, cfg, parse, Canonical[c]).value| == df.height
    ensures |Wcup2014Spec(df, cfg, parse).value.cols| == |Canonical|
    ensures var named := Selected(df, cfg).value;
      Wcup2014Spec(df, cfg, parse).value.cols[c].cells == Permute(Expected(named, cfg, parse, Canonical[c]).value, DateOrder(named, parse))
  {
    var pre := Prepared(df, cfg, parse).value;
    assert Wcup2014Spec(df, cfg, parse) == Finish(pre);
    PreparedCanonical(df, cfg, parse, c);
    FinishColumn(pre, c);
  }

  /** Reordering rows keeps a column settled. */
  lemma PermuteSettled(cells: seq<Cell>, p: seq<nat>, m: map<string, string>)
    requires InRange(p, |cells|) && Settled(cells, m)
    ensures Settled(Permute(cells, p), m)
  {
    var r := Permute(cells, p);
    forall k | 0 <= k < |r|
      ensures Utils.HarmonizeCell(r[k], m) == r[k]
    {
      assert r[k] == cells[p[k]];
    }
  }

  /** Settled team columns stay settled through the sort. */
  lemma FinishTeamsSettled(pre: Table, m: map<string, string>)
    requires WellFormed(pre) && Has(pre, "date") && CompactDates(Get(pre, "date")) && Finish(pre).Success?
    requires Has(pre, "home_team") && Settled(Get(pre, "home_team"), m)
    requires Has(pre, "away_team") && Settled(Get(pre, "away_team"), m)
    ensures |Finish(pre).value.cols| == |Canonical|
    ensures Settled(Finish(pre).value.cols[2].cells, m) && Settled(Finish(pre).value.cols[3].cells, m)
  {
    CanonicalIds();
    FinishColumn(pre, 2);
    FinishColumn(pre, 3);
    var p := SortOrder(Get(pre, "date"));
    PermuteSettled(Get(pre, "home_team"), p, m);
    PermuteSettled(Get(pre, "away_team"), p, m);
  }

  /** With a closed correction mapping, the team columns of the result need no further correction. */
  lemma Wcup2014TeamsSettled(df: Table, cfg: Config2014, parse: DateParser)
    requires WellFormed(df) && Wcup2014Spec(df, cfg, parse).Success? && Utils.Closed(cfg.teamMapping)
    ensures |Wcup2014Spec(df, cfg, parse).value.cols| == |Canonical|
    ensures Settled(Wcup2014Spec(df, cfg, parse).value.cols[2].cells, cfg.teamMapping)
    ensures Settled(Wcup2014Spec(df, cfg, parse).value.cols[3].cells, cfg.teamMapping)
  {
    PreparedTeamsSettled(df, cfg, parse);
    FinishTeamsSettled(Prepared(df, cfg, parse).value, cfg.teamMapping);
  }

  /** The new `date` column; raises when there is no `datetime` column. */
  method AddDate(news: Frame, parse: DateParser) returns (err: Option<Error>)
    requires news.Valid()
    modifies news
    ensures news.Valid()
    ensures err.None? <==> WithDate(old(news.Value()), parse).Success?
    ensures err.Some? ==> err.value == WithDate(old(news.Value()), parse).error
    ensures err.None? ==> news.Value() == WithDate(old(news.Value()), parse).value
  {
    if !Has(news.Value(), "datetime") {
      return Some(MissingColumn("datetime"));
    }
    GetLength(news.Value(), "datetime");
    news.Assign("date", DateCells(Get(news.Value(), "datetime"), parse));
    err := None;
  }

  /** The anomaly scan of one team column, then its correction. */
  method CorrectTeamColumn(news: Frame, column: string, m: map<string, string>) returns (err: Option<Error>)
    requires news.Valid()
    modifies news
    ensures news.Valid()
    ensures err.None? <==> CorrectTeams(old(news.Value()), column, m).Success?
    ensures err.Some? ==> err.value == CorrectTeams(old(news.Value()), column, m).error
    ensures err.None? ==> news.Value() == CorrectTeams(old(news.Value()), column, m).value
  {
    var issues := CheckCountryColumn(news, column);
    ScanOutcomeError(news.Value(), column, issues);
    if issues.Failure? {
      return Some(issues.error);
    }
    GetLength(news.Value(), column);
    news.Assign(column, Utils.HarmonizeCells(Get(news.Value(), column), m));
    err := None;
  }

  /** Stage names, then the home and away teams. */
  method CorrectColumns(news: Frame, cfg: Config2014) returns (err: Option<Error>)
    requires news.Valid()
    modifies news
    ensures news.Valid()
    ensures err.None? <==> Corrected(old(news.Value()), cfg).Success?
    ensures err.Some? ==> err.value == Corrected(old(news.Value()), cfg).error
    ensures err.None? ==> news.Value() == Corrected(old(news.Value()), cfg).value
  {
    if !Has(news.Value(), "stage") {
      return Some(MissingColumn("stage"));
    }
    GetLength(news.Value(), "stage");
    news.Assign("stage", Utils.HarmonizeCells(Get(news.Value(), "stage"), cfg.stageMapping));
    ghost var staged := news.Value();
    err := CorrectTeamColumn(news, "home_team", cfg.teamMapping);
    if err.Some? {
      return;
    }
    err := CorrectTeamColumn(news, "away_team", cfg.teamMapping);
  }

  /** `sort_values("date", inplace=True)`, then `match_id` from 1. */
  method Renumber(news: Frame)
    requires news.Valid() && Has(news.Value(), "date") && Comparable(Get(news.Value(), "date"))
    modifies news
    ensures news.Valid() && news.Value() == Rekey(old(news.Value()))
  {
    var err := news.SortValues("date");
    news.Assign("match_id", Ids(news.height));
  }

  /** `trf_file_wcup_2014`, step by step on one data frame. */
  method Wcup2014(df: Table, cfg: Config2014, parse: DateParser) returns (r: Result<Table, Error>)
    requires WellFormed(df)
    ensures r == Wcup2014Spec(df, cfg, parse)
  {
    var kept := Project(df, cfg.keep);
    if kept.Failure? {
      return Failure(kept.error);
    }
    var news := new Frame(kept.value);
    news.Relabel(NormalizeColumnName);
    news.RenameColumns(cfg.newsColumns);
    var err := AddDate(news, parse);
    if err.Some? {
      return Failure(err.value);
    }
    err := CorrectColumns(news, cfg);
    if err.Some? {
      return Failure(err.value);
    }
    assert Prepared(df, cfg, parse) == Success(news.Value());
    CompactDatesComparable(Get(news.Value(), "date"));
    Renumber(news);
    r := Project(news.Value(), Canonical);
  }
}
