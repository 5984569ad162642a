/**
 * The field and column normalisers of `src/etl/utils.py`: the country-name
 * anomaly scan, the trim-and-case column cleaners, the compact timestamp
 * column with its all-nines failure value, the edition year, the unique stage
 * name, the final projection with renaming, and dictionary harmonisation.
 */
module Utils {
  import opened Wrappers
  import opened Text
  import opened Cells
  import opened Dates
  import opened Tables

  /* ---------------------------------------------------------------------- */
  /* normalize_datetime                                                       */
  /* ---------------------------------------------------------------------- */

  /**
   * A value as `YYYYMMDDhhmmss`, parsed month-first and, when that fails,
   * day-first; None when the value is missing or neither parse succeeds.
   */
  function NormalizeDatetime(c: Cell, parse: DateParser): (r: Option<string>)
    ensures r.Some? ==> |r.value| == 14 && AllDigits(r.value)
    ensures r.None? <==> c.Null? || (parse(c, MonthFirst).None? && parse(c, DayFirst).None?)
  {
    if c.Null? then None
    else match parse(c, MonthFirst)
      case Some(st) => Some(FormatStamp(st))
      case None =>
        match parse(c, DayFirst)
        case Some(st) => Some(FormatStamp(st))
        case None => None
  }

  /** Month-first wins whenever it succeeds; day-first is only the fallback. */
  lemma NormalizeDatetimeOrder(c: Cell, parse: DateParser)
    requires !c.Null?
    ensures parse(c, MonthFirst).Some? ==> NormalizeDatetime(c, parse) == Some(FormatStamp(parse(c, MonthFirst).value))
    ensures parse(c, MonthFirst).None? && parse(c, DayFirst).Some? ==>
      NormalizeDatetime(c, parse) == Some(FormatStamp(parse(c, DayFirst).value))
  {
  }

  /* ---------------------------------------------------------------------- */
  /* test_country_column                                                      */
  /* ---------------------------------------------------------------------- */

  /** The three lists the scan reports. */
  datatype Issues = Issues(notCapitalized: seq<string>, specialChars: seq<string>, extraSpaces: seq<string>)

  /** `column.dropna().unique()`: the present values, each once, in order of first appearance. */
  function Distinct(cells: seq<Cell>): (r: seq<Cell>)
    ensures NoDup(r)
    ensures forall c :: c in r <==> c in cells && !c.Null?
  {
    if cells == [] then []
    else
      var init, last := cells[..|cells| - 1], cells[|cells| - 1];
      assert cells == init + [last];
      var p := Distinct(init);
      if last.Null? || last in p then p else p + [last]
  }

  /** Position of the first occurrence of `x` in `s`. */
  function FirstIndex(s: seq<Cell>, x: Cell): (k: nat)
    requires x in s
    ensures k < |s| && s[k] == x && forall j :: 0 <= j < k ==> s[j] != x
  {
    if s[0] == x then 0 else 1 + FirstIndex(s[1..], x)
  }

  /** Appending a value does not move the first occurrence of one already present. */
  lemma FirstIndexAppend(s: seq<Cell>, y: Cell, x: Cell)
    requires x in s
    ensures x in s + [y] && FirstIndex(s + [y], x) == FirstIndex(s, x)
  {
    var k, k' := FirstIndex(s, x), FirstIndex(s + [y], x);
    assert (s + [y])[k] == x;
    assert k' < |s| ==> s[k'] == x;
  }

  /**
   * `unique()` lists the values in the order in which they first appear:
   * an earlier value of the result first occurs earlier in the column.
   */
  lemma {:induction false} DistinctOrder(cells: seq<Cell>)
    ensures forall i, j :: 0 <= i < j < |Distinct(cells)| ==>
      FirstIndex(cells, Distinct(cells)[i]) < FirstIndex(cells, Distinct(cells)[j])
  {
    if cells != [] {
      var init, last := cells[..|cells| - 1], cells[|cells| - 1];
      assert cells == init + [last];
      var p, r := Distinct(init), Distinct(cells);
      DistinctOrder(init);
      forall i, j | 0 <= i < j < |r|
        ensures FirstIndex(cells, r[i]) < FirstIndex(cells, r[j])
      {
        assert r[i] == p[i] && r[i] in init;
        FirstIndexAppend(init, last, r[i]);
        if j < |p| {
          assert r[j] == p[j] && r[j] in init;
          FirstIndexAppend(init, last, r[j]);
        } else {
          assert r[j] == last && last !in init;
        }
      }
    }
  }

  /** `str(val)` of each value. */
  function Texts(vals: seq<Cell>): (r: seq<string>)
    requires forall v :: v in vals ==> !v.Null?
    ensures |r| == |vals| && forall i :: 0 <= i < |vals| ==> r[i] == CellText(vals[i])
  {
    seq(|vals|, i requires 0 <= i < |vals| => CellText(vals[i]))
  }

  /** The texts the scan visits for a column. */
  function ScannedTexts(cells: seq<Cell>): seq<string> {
    Texts(Distinct(cells))
  }

  /** The elements of `s` satisfying `p`, in order. */
  function Filter<T(!new)>(s: seq<T>, p: T -> bool): (r: seq<T>)
    ensures |r| <= |s|
    ensures forall x :: x in r <==> x in s && p(x)
  {
    if s == [] then []
    else
      assert s == s[..|s| - 1] + [s[|s| - 1]];
      Filter(s[..|s| - 1], p) + (if p(s[|s| - 1]) then [s[|s| - 1]] else [])
  }

  predicate HasSpace(s: string) {
    exists k :: 0 <= k < |s| && IsSpace(s[k])
  }

  /** A value whose strip is empty: `val_strip[0]` raises IndexError. */
  predicate Blank(t: string) {
    Strip(t) == []
  }

  /** `val_strip[0].isupper()` is false. */
  predicate NotCapitalized(t: string) {
    Strip(t) == [] || !IsUpperChar(Strip(t)[0])
  }

  /** Surrounding whitespace, or two spaces in a row. */
  predicate ExtraSpaces(t: string) {
    t != Strip(t) || HasDoubleSpace(t)
  }

  /** The class `[A-Za-zÀ-ÖØ-öø-ÿ\s\-]` of characters the scan accepts. */
  predicate Accepted(c: char) {
    ('A' <= c <= 'Z') || ('a' <= c <= 'z') || ('\U{c0}' <= c <= '\U{d6}') || ('\U{d8}' <= c <= '\U{f6}')
    || ('\U{f8}' <= c <= '\U{ff}') || IsSpace(c) || c == '-'
  }

  /** The regular-expression search for a character outside the accepted class succeeds. */
  predicate HasSpecialChar(s: string) {
    exists k :: 0 <= k < |s| && !Accepted(s[k])
  }

  predicate HasQuote(s: string) {
    exists k :: 0 <= k < |s| && (s[k] == '"' || s[k] == '\'')
  }

  /** An unaccepted character after stripping, or a quote anywhere. */
  predicate SpecialChars(t: string) {
    HasSpecialChar(Strip(t)) || HasQuote(t)
  }

  /** The capital check of the loop body: appends unconditionally. */
  function VisitNotCapitalized(list: seq<string>, valStr: string): seq<string> {
    if NotCapitalized(valStr) then list + [valStr] else list
  }

  /** The two space checks: the first appends as is, the second only when not already there. */
  function VisitExtraSpaces(list: seq<string>, valStr: string): seq<string> {
    var extra1 := if valStr != Strip(valStr) then list + [valStr] else list;
    if HasDoubleSpace(valStr) then AddOnce(extra1, valStr) else extra1
  }

  /** The two special-character checks, each appending only when not already there. */
  function VisitSpecialChars(list: seq<string>, valStr: string): seq<string> {
    var special1 := if HasSpecialChar(Strip(valStr)) then AddOnce(list, valStr) else list;
    if HasQuote(valStr) then AddOnce(special1, valStr) else special1
  }

  /** One pass of the loop body for a value that is not blank. */
  function Visit(acc: Issues, valStr: string): Issues {
    Issues(
      VisitNotCapitalized(acc.notCapitalized, valStr),
      VisitSpecialChars(acc.specialChars, valStr),
      VisitExtraSpaces(acc.extraSpaces, valStr))
  }

  /** `if x not in s: s.append(x)` */
  function AddOnce(s: seq<string>, x: string): (r: seq<string>)
    ensures forall t :: t in r <==> t in s || t == x
    ensures NoDup(s) ==> NoDup(r)
  {
    if x in s then s else s + [x]
  }

  /** The lists after visiting `texts` in order, or None once a blank value raises. */
  function Scan(texts: seq<string>): Option<Issues> {
    if texts == [] then Some(Issues([], [], []))
    else
      var prev := Scan(texts[..|texts| - 1]);
      if prev.None? || Blank(texts[|texts| - 1]) then None
      else Some(Visit(prev.value, texts[|texts| - 1]))
  }

  /** The outcome of the scan for a column, as the contract of both copies states it. */
  predicate ScanOutcome(t: Table, column: string, r: Result<Issues, Error>) {
    (r.Failure? <==> !Has(t, column) || Scan(ScannedTexts(Get(t, column))).None?)
    && (r.Failure? ==> r.error == if Has(t, column) then BlankValue(column) else MissingColumn(column))
    && (r.Success? ==> Has(t, column) && Some(r.value) == Scan(ScannedTexts(Get(t, column))))
  }

  /** The scan raises exactly when some visited value is blank. */
  lemma {:induction false} ScanRaisesOnBlank(texts: seq<string>)
    ensures Scan(texts).None? <==> exists t :: t in texts && Blank(t)
  {
    if texts != [] {
      var init, v := texts[..|texts| - 1], texts[|texts| - 1];
      assert texts == init + [v];
      ScanRaisesOnBlank(init);
    }
  }

  /** One more value: the scan raises on a blank one and otherwise visits it. */
  lemma ScanStep(texts: seq<string>, i: nat)
    requires i < |texts|
    ensures Scan(texts[..i + 1]) ==
      if Scan(texts[..i]).None? || Blank(texts[i]) then None else Some(Visit(Scan(texts[..i]).value, texts[i]))
  {
    assert texts[..i + 1][..i] == texts[..i];
  }

  /** Once a prefix has raised, so has the whole scan. */
  lemma {:induction false} ScanPrefixRaises(texts: seq<string>, k: nat)
    requires k <= |texts| && Scan(texts[..k]).None?
    ensures Scan(texts).None?
    decreases |texts| - k
  {
    if k < |texts| {
      assert texts[..k + 1][..k] == texts[..k];
      ScanPrefixRaises(texts, k + 1);
    } else {
      assert texts[..k] == texts;
    }
  }

  /** Equal texts at two positions can only be texts without whitespace. */
  predicate SpacedUnique(texts: seq<string>) {
    forall i, j :: 0 <= j < i < |texts| && texts[j] == texts[i] ==> !HasSpace(texts[i])
  }

  /** A repeated last text has no whitespace, and the rest keeps the property. */
  lemma SpacedUniqueLast(texts: seq<string>)
    requires SpacedUnique(texts) && texts != []
    ensures texts[|texts| - 1] in texts[..|texts| - 1] ==> !HasSpace(texts[|texts| - 1])
    ensures SpacedUnique(texts[..|texts| - 1])
  {
    var n := |texts|;
    if texts[n - 1] in texts[..n - 1] {
      var j :| 0 <= j < n - 1 && texts[..n - 1][j] == texts[n - 1];
      assert texts[j] == texts[n - 1];
    }
  }

  lemma HasSpaceStrip(s: string)
    ensures !HasSpace(s) ==> Strip(s) == s
    ensures HasDoubleSpace(s) ==> HasSpace(s)
  {
    if !HasSpace(s) {
      StripNoSpaces(s);
    }
  }

  /** Two distinct present values print alike only when neither is a string with whitespace. */
  lemma ScannedTextsSpacedUnique(cells: seq<Cell>)
    ensures SpacedUnique(ScannedTexts(cells))
  {
    var vals := Distinct(cells);
    forall i, j | 0 <= j < i < |vals|
      ensures CellText(vals[j]) == CellText(vals[i]) ==> !HasSpace(CellText(vals[i]))
    {
      if vals[i].Str? && vals[j].Str? {
        assert vals[j] != vals[i];
      }
    }
  }

  /** Every value that is not capitalised is reported, in visiting order, duplicates included. */
  lemma {:induction false} ScanNotCapitalized(texts: seq<string>)
    requires Scan(texts).Some?
    ensures Scan(texts).value.notCapitalized == Filter(texts, NotCapitalized)
  {
    if texts != [] {
      ScanNotCapitalized(texts[..|texts| - 1]);
    }
  }

  /**
   * Exactly the values with surrounding or doubled spaces are reported, in
   * visiting order: the membership test before the second append never
   * fires, because such a value is never visited twice.
   */
  lemma {:induction false} ScanExtraSpaces(texts: seq<string>)
    requires SpacedUnique(texts) && Scan(texts).Some?
    ensures Scan(texts).value.extraSpaces == Filter(texts, ExtraSpaces)
  {
    if texts != [] {
      var n := |texts| - 1;
      SpacedUniqueLast(texts);
      ScanStep(texts, n);
      assert texts[..n + 1] == texts;
      var prev := Scan(texts[..n]).value;
      assert Scan(texts) == Some(Visit(prev, texts[n]));
      ScanExtraSpaces(texts[..n]);
      ExtraSpacesStep(texts, n);
      assert VisitExtraSpaces(prev.extraSpaces, texts[n]) == Filter(texts, ExtraSpaces);
    }
  }

  /** One more visited value: the extra-space list is the filter of one more text. */
  lemma ExtraSpacesStep(texts: seq<string>, n: nat)
    requires n < |texts|
    requires texts[n] in texts[..n] ==> !HasSpace(texts[n])
    ensures forall list :: list == Filter(texts[..n], ExtraSpaces) ==>
      VisitExtraSpaces(list, texts[n]) == Filter(texts[..n + 1], ExtraSpaces)
  {
    var seen, v := texts[..n], texts[n];
    HasSpaceStrip(v);
    assert texts[..n + 1] == seen + [v];
    assert (seen + [v])[..|seen|] == seen;
  }

  /** Filtering keeps no duplicate when no repeated element passes the filter. */
  lemma {:induction false} FilterNoRepeats<T(!new)>(s: seq<T>, p: T -> bool)
    requires forall i, j :: 0 <= j < i < |s| && s[j] == s[i] ==> !p(s[i])
    ensures NoDup(Filter(s, p))
  {
    if s != [] {
      var init, v := s[..|s| - 1], s[|s| - 1];
      FilterNoRepeats(init, p);
      assert forall j :: 0 <= j < |init| && init[j] == v ==> !p(v) by {
        assert forall j :: 0 <= j < |init| ==> init[j] == s[j];
      }
    }
  }

  /** No value with extra spaces is reported twice. */
  lemma ExtraSpacesNoDup(texts: seq<string>)
    requires SpacedUnique(texts)
    ensures NoDup(Filter(texts, ExtraSpaces))
  {
    forall i, j | 0 <= j < i < |texts| && texts[j] == texts[i]
      ensures !ExtraSpaces(texts[i])
    {
      HasSpaceStrip(texts[i]);
    }
    FilterNoRepeats(texts, ExtraSpaces);
  }

  /** Exactly the values with an unaccepted character or a quote are reported, each once. */
  lemma {:induction false} ScanSpecialChars(texts: seq<string>)
    requires Scan(texts).Some?
    ensures forall t :: t in Scan(texts).value.specialChars <==> t in texts && SpecialChars(t)
    ensures NoDup(Scan(texts).value.specialChars)
  {
    if texts != [] {
      var n := |texts| - 1;
      ScanStep(texts, n);
      assert texts[..n + 1] == texts;
      var prev := Scan(texts[..n]).value;
      assert Scan(texts) == Some(Visit(prev, texts[n]));
      ScanSpecialChars(texts[..n]);
      SpecialCharsStep(prev.specialChars, texts[..n], texts[n]);
      PrefixAppend(texts, n);
    }
  }

  /** The prefix before the last element, plus that element, is the whole sequence. */
  lemma PrefixAppend(texts: seq<string>, n: nat)
    requires n + 1 == |texts|
    ensures texts[..n] + [texts[n]] == texts
  {
  }

  lemma SpecialCharsStep(list: seq<string>, seen: seq<string>, v: string)
    requires forall t :: t in list <==> t in seen && SpecialChars(t)
    requires NoDup(list)
    ensures forall t :: t in VisitSpecialChars(list, v) <==> t in seen + [v] && SpecialChars(t)
    ensures NoDup(VisitSpecialChars(list, v))
  {
  }

  /** The three lists of a completed scan of a column, stated together. */
  lemma ScanReportsColumn(cells: seq<Cell>)
    requires Scan(ScannedTexts(cells)).Some?
    ensures Scan(ScannedTexts(cells)).value.notCapitalized == Filter(ScannedTexts(cells), NotCapitalized)
    ensures Scan(ScannedTexts(cells)).value.extraSpaces == Filter(ScannedTexts(cells), ExtraSpaces)
    ensures NoDup(Scan(ScannedTexts(cells)).value.extraSpaces)
    ensures forall t :: t in Scan(ScannedTexts(cells)).value.specialChars <==> t in ScannedTexts(cells) && SpecialChars(t)
    ensures NoDup(Scan(ScannedTexts(cells)).value.specialChars)
  {
    var texts := ScannedTexts(cells);
    ScannedTextsSpacedUnique(cells);
    ScanNotCapitalized(texts);
    ScanExtraSpaces(texts);
    ExtraSpacesNoDup(texts);
    ScanSpecialChars(texts);
  }

  /** The checks of the loop body for one value whose strip is not empty. */
  method Classify(notCapitalized0: seq<string>, specialChars0: seq<string>, extraSpaces0: seq<string>, valStr: string)
    returns (notCapitalized: seq<string>, specialChars: seq<string>, extraSpaces: seq<string>)
    requires !Blank(valStr)
    ensures Issues(notCapitalized, specialChars, extraSpaces) == Visit(Issues(notCapitalized0, specialChars0, extraSpaces0), valStr)
  {
    notCapitalized, specialChars, extraSpaces := notCapitalized0, specialChars0, extraSpaces0;
    var valStrip := Strip(valStr);
    if !IsUpperChar(valStrip[0]) {
      notCapitalized := notCapitalized + [valStr];
    }
    if valStr != valStrip {
      extraSpaces := extraSpaces + [valStr];
    }
    if HasDoubleSpace(valStr) {
      if valStr !in extraSpaces {
        extraSpaces := extraSpaces + [valStr];
      }
    }
    if HasSpecialChar(valStrip) {
      if valStr !in specialChars {
        specialChars := specialChars + [valStr];
      }
    }
    if HasQuote(valStr) {
      if valStr !in specialChars {
        specialChars := specialChars + [valStr];
      }
    }
  }

  /** `test_country_column`: classifies the distinct present values of a column; the table is only read. */
  method CheckCountryColumn(df: Frame, column: string) returns (r: Result<Issues, Error>)
    requires df.Valid()
    ensures ScanOutcome(df.Value(), column, r)
  {
    if !Has(df.Value(), column) {
      return Failure(MissingColumn(column));
    }
    var vals := Distinct(Get(df.Value(), column));
    r := ScanValues(vals, column);
  }

  /** The loop over the distinct values; the first blank one raises. */
  method ScanValues(vals: seq<Cell>, column: string) returns (r: Result<Issues, Error>)
    requires forall v :: v in vals ==> !v.Null?
    ensures r.Failure? <==> Scan(Texts(vals)).None?
    ensures r.Failure? ==> r.error == BlankValue(column)
    ensures r.Success? ==> Some(r.value) == Scan(Texts(vals))
  {
    ghost var texts := Texts(vals);
    var notCapitalized, specialChars, extraSpaces := [], [], [];
    var i := 0;
    while i < |vals|
      invariant 0 <= i <= |vals|
      invariant Scan(texts[..i]) == Some(Issues(notCapitalized, specialChars, extraSpaces))
    {
      var valStr := CellText(vals[i]);
      var valStrip := Strip(valStr);
      ScanStep(texts, i);
      if valStrip == [] {
        ScanPrefixRaises(texts, i + 1);
        return Failure(BlankValue(column));
      }
      notCapitalized, specialChars, extraSpaces := Classify(notCapitalized, specialChars, extraSpaces, valStr);
      i := i + 1;
    }
    assert texts[..i] == texts;
    return Success(Issues(notCapitalized, specialChars, extraSpaces));
  }

  lemma {:induction false} FilterNoDup<T(!new)>(s: seq<T>, p: T -> bool)
    requires NoDup(s)
    ensures NoDup(Filter(s, p))
  {
    if s != [] {
      var init := s[..|s| - 1];
      assert NoDup(init);
      FilterNoDup(init, p);
      assert s[|s| - 1] !in init;
    }
  }

  /**
   * In a column of strings (no integers beside them) the visited texts are
   * distinct, so `not_capitalized` lists no value twice either.
   */
  lemma ScanNoDuplicates(cells: seq<Cell>)
    requires forall c :: c in cells ==> !c.Int?
    ensures NoDup(ScannedTexts(cells))
    ensures NoDup(Filter(ScannedTexts(cells), NotCapitalized))
  {
    var vals := Distinct(cells);
    var texts := Texts(vals);
    forall i, j | 0 <= i < j < |texts|
      ensures texts[i] != texts[j]
    {
      assert vals[i] in cells && vals[j] in cells;
      assert vals[i] != vals[j];
    }
    FilterNoDup(texts, NotCapitalized);
  }

  /* ---------------------------------------------------------------------- */
  /* fct_capitalize / upper / lower_string_columns                            */
  /* ---------------------------------------------------------------------- */

  datatype CaseMode = CapitalizeMode | UpperMode | LowerMode

  /** `.str.capitalize()`, `.str.upper()` or `.str.lower()`. */
  function CaseChange(mode: CaseMode, t: string): (r: string)
    ensures |r| == |t| && forall k :: 0 <= k < |t| ==> (IsSpace(r[k]) <==> IsSpace(t[k]))
    ensures mode == CapitalizeMode && r != [] ==>
      r[0] == ToUpperChar(t[0]) && forall k :: 1 <= k < |r| ==> r[k] == ToLowerChar(t[k])
    ensures mode == UpperMode ==> forall k :: 0 <= k < |r| ==> r[k] == ToUpperChar(t[k])
    ensures mode == LowerMode ==> forall k :: 0 <= k < |r| ==> r[k] == ToLowerChar(t[k])
  {
    match mode
    case CapitalizeMode => Capitalize(t)
    case UpperMode => Upper(t)
    case LowerMode => Lower(t)
  }

  /** `.str.strip()` followed by `.str.capitalize()`, `.str.upper()` or `.str.lower()`. */
  function CleanText(mode: CaseMode, s: string): (r: string)
    ensures |r| == |Strip(s)|
    ensures Strip(r) == r
    ensures mode == CapitalizeMode && r != [] ==>
      r[0] == ToUpperChar(Strip(s)[0]) && forall k :: 1 <= k < |r| ==> r[k] == ToLowerChar(Strip(s)[k])
    ensures mode == UpperMode ==> forall k :: 0 <= k < |r| ==> r[k] == ToUpperChar(Strip(s)[k])
    ensures mode == LowerMode ==> forall k :: 0 <= k < |r| ==> r[k] == ToLowerChar(Strip(s)[k])
  {
    var t := Strip(s);
    var r := CaseChange(mode, t);
    SameEndsStripped(t, r);
    r
  }

  /** One cell after `astype("string")` and the clean-up; missing values stay missing. */
  function CleanCell(mode: CaseMode, c: Cell): (r: Cell)
    ensures r.Null? <==> c.Null?
    ensures !c.Null? ==> r == Str(CleanText(mode, CellText(c)))
  {
    if c.Null? then Null else Str(CleanText(mode, CellText(c)))
  }

  function CleanCells(mode: CaseMode, cells: seq<Cell>): (r: seq<Cell>)
    ensures |r| == |cells| && forall i :: 0 <= i < |cells| ==> r[i] == CleanCell(mode, cells[i])
  {
    seq(|cells|, i requires 0 <= i < |cells| => CleanCell(mode, cells[i]))
  }

  /**
   * The upper-case cleaner leaves no lower-case letter and the lower-case
   * cleaner no upper-case one; the capitalising cleaner leaves at most its
   * first letter upper case.
   */
  lemma CleanTextCase(mode: CaseMode, s: string)
    ensures mode == UpperMode ==> forall k :: 0 <= k < |CleanText(mode, s)| ==> !IsLowerChar(CleanText(mode, s)[k])
    ensures mode == LowerMode ==> forall k :: 0 <= k < |CleanText(mode, s)| ==> !IsUpperChar(CleanText(mode, s)[k])
    ensures mode == CapitalizeMode ==> forall k :: 1 <= k < |CleanText(mode, s)| ==> !IsUpperChar(CleanText(mode, s)[k])
  {
    var t, r := Strip(s), CleanText(mode, s);
    forall k | 0 <= k < |r|
      ensures mode == UpperMode ==> !IsLowerChar(r[k])
      ensures mode != UpperMode && (mode == LowerMode || k >= 1) ==> !IsUpperChar(r[k])
    {
      CaseMapsLeaveClass(t[k]);
    }
  }

  /** Cleaning a cleaned value changes nothing. */
  lemma CleanTextIdempotent(mode: CaseMode, s: string)
    ensures CleanText(mode, CleanText(mode, s)) == CleanText(mode, s)
  {
    var t := Strip(s);
    CaseIdempotent(t);
  }

  lemma CleanCellsIdempotent(mode: CaseMode, cells: seq<Cell>)
    ensures CleanCells(mode, CleanCells(mode, cells)) == CleanCells(mode, cells)
  {
    forall i | 0 <= i < |cells|
      ensures CleanCell(mode, CleanCell(mode, cells[i])) == CleanCell(mode, cells[i])
    {
      if !cells[i].Null? {
        CleanTextIdempotent(mode, CellText(cells[i]));
      }
    }
  }

  /** The table after the loop over `cols` has cleaned each listed column that exists. */
  function CleanColumns(t: Table, cols: seq<string>, mode: CaseMode): (r: Table)
    requires WellFormed(t)
    ensures WellFormed(r) && r.height == t.height
  {
    if cols == [] then t
    else
      var u := CleanColumns(t, cols[..|cols| - 1], mode);
      var col := cols[|cols| - 1];
      if Has(u, col) then Put(u, col, CleanCells(mode, Get(u, col))) else u
  }

  /** One more listed column: cleaned when present, skipped otherwise. */
  lemma CleanColumnsStep(t: Table, cols: seq<string>, i: nat, mode: CaseMode)
    requires WellFormed(t) && i < |cols|
    ensures var u := CleanColumns(t, cols[..i], mode);
      CleanColumns(t, cols[..i + 1], mode) == if Has(u, cols[i]) then Put(u, cols[i], CleanCells(mode, Get(u, cols[i]))) else u
  {
    assert cols[..i + 1][..i] == cols[..i];
  }

  lemma SameNamesSameColumns(a: Table, b: Table)
    requires Names(a.cols) == Names(b.cols)
    ensures forall n :: IndexOf(a.cols, n) == IndexOf(b.cols, n)
  {
    forall n {
      IndexOfSameNames(a.cols, b.cols, n);
    }
  }

  /**
   * Every listed column that exists is cleaned once (listing it twice is the
   * same as once), the column set and order stay, and every other column is
   * untouched.
   */
  lemma {:induction false} CleanColumnsEffect(t: Table, cols: seq<string>, mode: CaseMode)
    requires WellFormed(t)
    ensures Names(CleanColumns(t, cols, mode).cols) == Names(t.cols)
    ensures forall n :: Has(t, n) ==>
      Get(CleanColumns(t, cols, mode), n) == if n in cols then CleanCells(mode, Get(t, n)) else Get(t, n)
  {
    if cols != [] {
      var init, col := cols[..|cols| - 1], cols[|cols| - 1];
      assert cols == init + [col];
      var u := CleanColumns(t, init, mode);
      CleanColumnsEffect(t, init, mode);
      SameNamesSameColumns(u, t);
      if Has(u, col) {
        CleanCellsIdempotent(mode, Get(t, col));
      }
    }
  }

  /**
   * The shared body of the three cleaners: no column list leaves the table
   * as it is; otherwise each listed column present in the table is cleaned.
   */
  method NormalizeStringColumns(df: Frame, cols: Option<seq<string>>, mode: CaseMode)
    requires df.Valid()
    modifies df
    ensures df.Valid()
    ensures cols.None? || cols.value == [] ==> df.Value() == old(df.Value())
    ensures cols.Some? ==> df.Value() == CleanColumns(old(df.Value()), cols.value, mode)
  {
    if cols.None? || cols.value == [] {
      return;
    }
    var names := cols.value;
    ghost var t := df.Value();
    for i := 0 to |names|
      invariant df.Valid() && df.Value() == CleanColumns(t, names[..i], mode)
    {
      CleanColumnsStep(t, names, i, mode);
      CleanColumn(df, names[i], mode);
    }
    assert names[..|names|] == names;
  }

  /** The loop body: `if col in df.columns: df[col] = <cleaned>`. */
  method CleanColumn(df: Frame, col: string, mode: CaseMode)
    requires df.Valid()
    modifies df
    ensures df.Valid()
    ensures df.Value() == if Has(old(df.Value()), col) then Put(old(df.Value()), col, CleanCells(mode, Get(old(df.Value()), col))) else old(df.Value())
  {
    if Has(df.Value(), col) {
      GetLength(df.Value(), col);
      df.Assign(col, CleanCells(mode, Get(df.Value(), col)));
    }
  }

  /** `fct_capitalize_string_columns` */
  method CapitalizeStringColumns(df: Frame, cols: Option<seq<string>>)
    requires df.Valid()
    modifies df
    ensures df.Valid()
    ensures df.Value() == CleanColumns(old(df.Value()), cols.GetOr([]), CapitalizeMode)
  {
    NormalizeStringColumns(df, cols, CapitalizeMode);
  }

  /** `fct_upper_string_columns` */
  method UpperStringColumns(df: Frame, cols: Option<seq<string>>)
    requires df.Valid()
    modifies df
    ensures df.Valid()
    ensures df.Value() == CleanColumns(old(df.Value()), cols.GetOr([]), UpperMode)
  {
    NormalizeStringColumns(df, cols, UpperMode);
  }

  /** `fct_lower_string_columns` */
  method LowerStringColumns(df: Frame, cols: Option<seq<string>>)
    requires df.Valid()
    modifies df
    ensures df.Valid()
    ensures df.Value() == CleanColumns(old(df.Value()), cols.GetOr([]), LowerMode)
  {
    NormalizeStringColumns(df, cols, LowerMode);
  }

  /**
   * A capitalised value that starts with a letter passes the scan's
   * capitalisation and surrounding-space checks.
   */
  lemma CapitalizedPassesScan(s: string)
    requires Strip(s) != [] && (IsLowerChar(Strip(s)[0]) || IsUpperChar(Strip(s)[0]))
    ensures !NotCapitalized(CleanText(CapitalizeMode, s))
    ensures CleanText(CapitalizeMode, s) == Strip(CleanText(CapitalizeMode, s))
  {
  }

  /* ---------------------------------------------------------------------- */
  /* fct_iso_to_yyyymmddhhmmss                                                */
  /* ---------------------------------------------------------------------- */

  /**
   * `safe_convert`: the zero-padded fields of the UTC timestamp, or the
   * all-nines value when the value is missing or does not parse. The
   * failure value is distinct from, and sorts after, every converted one.
   */
  function IsoCompact(c: Cell, parse: DateParser): (r: string)
    ensures |r| == 14
    ensures r == Sentinel <==> c.Null? || parse(c, Utc).None?
    ensures r != Sentinel ==> AllDigits(r) && LexLt(r, Sentinel)
    ensures r != Sentinel ==> parse(c, Utc).Some? && r == FormatStamp(parse(c, Utc).value)
  {
    if c.Null? then SentinelSortsLast(Stamp(1970, 1, 1, 0, 0, 0)); Sentinel
    else match parse(c, Utc)
      case None => SentinelSortsLast(Stamp(1970, 1, 1, 0, 0, 0)); Sentinel
      case Some(st) =>
        SentinelSortsLast(st);
        LexLtIrreflexive(Sentinel);
        FormatStamp(st)
  }

  function IsoCells(cells: seq<Cell>, parse: DateParser): (r: seq<Cell>)
    ensures |r| == |cells| && forall i :: 0 <= i < |cells| ==> r[i] == Str(IsoCompact(cells[i], parse))
  {
    seq(|cells|, i requires 0 <= i < |cells| => Str(IsoCompact(cells[i], parse)))
  }

  /** Converted values sort exactly as their timestamps. */
  lemma IsoCompactOrder(a: Cell, b: Cell, parse: DateParser)
    requires !a.Null? && !b.Null? && parse(a, Utc).Some? && parse(b, Utc).Some?
    ensures LexLt(IsoCompact(a, parse), IsoCompact(b, parse)) <==> Before(parse(a, Utc).value, parse(b, Utc).value)
  {
    FormatOrder(parse(a, Utc).value, parse(b, Utc).value);
  }

  /** `fct_iso_to_yyyymmddhhmmss`: writes the compact column to `new_col`, or over `col` itself. */
  method IsoToYyyymmddhhmmss(df: Frame, col: string, newCol: Option<string>, parse: DateParser) returns (err: Option<Error>)
    requires df.Valid()
    modifies df
    ensures df.Valid()
    ensures !Has(old(df.Value()), col) ==> err == Some(MissingColumn(col)) && df.Value() == old(df.Value())
    ensures Has(old(df.Value()), col) ==>
      err.None? && df.Value() == Put(old(df.Value()), newCol.GetOr(col), IsoCells(Get(old(df.Value()), col), parse))
  {
    var target := if newCol.None? then col else newCol.value;
    if !Has(df.Value(), col) {
      return Some(MissingColumn(col));
    }
    df.Assign(target, IsoCells(Get(df.Value(), col), parse));
    err := None;
  }

  /* ---------------------------------------------------------------------- */
  /* fct_extract_edition                                                      */
  /* ---------------------------------------------------------------------- */

  /** Python `int(s)` on decimal text: surrounding whitespace, an optional sign, then digits. */
  function ParseInt(s: string): Option<int> {
    var t := Strip(s);
    if t != [] && AllDigits(t) then
      Some(DigitsValue(t))
    else if |t| > 1 && (t[0] == '-' || t[0] == '+') && AllDigits(t[1..]) then
      var v: int := DigitsValue(t[1..]);
      Some(if t[0] == '-' then -v else v)
    else
      None
  }

  /** Plain digits read as their decimal value. */
  lemma ParseIntDigits(s: string)
    requires s != [] && AllDigits(s)
    ensures ParseInt(s) == Some(DigitsValue(s))
  {
    StripNoSpaces(s);
  }

  /** `.str[:4].astype(int)` on one value; anything but a string cannot become an integer. */
  function EditionOf(c: Cell): Option<int> {
    if c.Str? then ParseInt(c.s[..if |c.s| < 4 then |c.s| else 4]) else None
  }

  predicate AllEditions(cells: seq<Cell>) {
    forall i :: 0 <= i < |cells| ==> EditionOf(cells[i]).Some?
  }

  function Editions(cells: seq<Cell>): (r: seq<Cell>)
    requires AllEditions(cells)
    ensures |r| == |cells| && forall i :: 0 <= i < |cells| ==> r[i] == Int(EditionOf(cells[i]).value)
  {
    seq(|cells|, i requires 0 <= i < |cells| => Int(EditionOf(cells[i]).value))
  }

  /** The edition read back from a converted date is its year; from the failure value it is 9999. */
  lemma EditionOfCompact(c: Cell, parse: DateParser)
    ensures EditionOf(Str(IsoCompact(c, parse))) == Some(if c.Null? || parse(c, Utc).None? then 9999 else parse(c, Utc).value.year)
  {
    if c.Null? || parse(c, Utc).None? {
      assert Pad(9999, 4) == "9999" by {
        assert Pad(9, 1) == "9";
        assert Pad(99, 2) == "99";
        assert Pad(999, 3) == "999";
      }
      assert Sentinel[..4] == "9999";
      PadValue(9999, 4);
      ParseIntDigits("9999");
    } else {
      var st := parse(c, Utc).value;
      FormatYear(st);
      ParseIntDigits(Pad(st.year, 4));
    }
  }

  /** The same holds for the output of `normalize_datetime`. */
  lemma EditionOfNormalized(c: Cell, parse: DateParser)
    requires NormalizeDatetime(c, parse).Some?
    ensures EditionOf(Str(NormalizeDatetime(c, parse).value)) == Some(
      if parse(c, MonthFirst).Some? then parse(c, MonthFirst).value.year else parse(c, DayFirst).value.year)
  {
    var st := if parse(c, MonthFirst).Some? then parse(c, MonthFirst).value else parse(c, DayFirst).value;
    FormatYear(st);
    ParseIntDigits(Pad(st.year, 4));
  }

  /** `fct_extract_edition`: the `edition` column, or the exception the conversion raises. */
  method ExtractEdition(df: Frame, col: string) returns (err: Option<Error>)
    requires df.Valid()
    modifies df
    ensures df.Valid()
    ensures !Has(old(df.Value()), col) ==> err == Some(MissingColumn(col)) && df.Value() == old(df.Value())
    ensures Has(old(df.Value()), col) && !AllEditions(Get(old(df.Value()), col)) ==>
      err == Some(NotAnInteger(col)) && df.Value() == old(df.Value())
    ensures Has(old(df.Value()), col) && AllEditions(Get(old(df.Value()), col)) ==>
      err.None? && df.Value() == Put(old(df.Value()), "edition", Editions(Get(old(df.Value()), col)))
  {
    if !Has(df.Value(), col) {
      return Some(MissingColumn(col));
    }
    var cells := Get(df.Value(), col);
    if !AllEditions(cells) {
      return Some(NotAnInteger(col));
    }
    df.Assign("edition", Editions(cells));
    err := None;
  }

  /* ---------------------------------------------------------------------- */
  /* fct_generate_unique_stage                                                */
  /* ---------------------------------------------------------------------- */

  /** The three columns the select reads, whatever names the caller passes. */
  const StageInputs: seq<string> := ["stage", "group_id", "round_id"]

  /** `np.select` on the lower-cased, trimmed stage, with `'notdefined'` by default. */
  function StageName(stage: Cell, groupId: Cell, roundId: Cell): Cell {
    if stage.Str? && Strip(Lower(stage.s)) == "group" then groupId
    else if stage.Str? && Strip(Lower(stage.s)) == "knockout" then roundId
    else Str("notdefined")
  }

  function StageNames(stage: seq<Cell>, groupId: seq<Cell>, roundId: seq<Cell>): (r: seq<Cell>)
    requires |groupId| == |stage| && |roundId| == |stage|
    ensures |r| == |stage| && forall i :: 0 <= i < |stage| ==> r[i] == StageName(stage[i], groupId[i], roundId[i])
  {
    seq(|stage|, i requires 0 <= i < |stage| => StageName(stage[i], groupId[i], roundId[i]))
  }

  /** Trimming and re-casing the stage column (any of the three cleaners) never changes the stage name. */
  lemma StageNameIgnoresCleaning(mode: CaseMode, s: string, groupId: Cell, roundId: Cell)
    ensures StageName(Str(CleanText(mode, s)), groupId, roundId) == StageName(Str(s), groupId, roundId)
  {
    CleanedStageKey(mode, s);
  }

  /** The key the select compares is the same before and after cleaning. */
  lemma CleanedStageKey(mode: CaseMode, s: string)
    ensures Strip(Lower(CleanText(mode, s))) == Strip(Lower(s))
  {
    var t, c := Strip(s), CleanText(mode, s);
    assert Lower(c) == Lower(t) by {
      LowerAfterCase(t);
      match mode
      case CapitalizeMode => assert c == Capitalize(t);
      case UpperMode => assert c == Upper(t);
      case LowerMode => assert c == Lower(t);
    }
    StripLower(c);
    StripLower(s);
  }

  /** `fct_generate_unique_stage`: the `stage_name` column from `stage`, `group_id` and `round_id`. */
  method GenerateUniqueStage(df: Frame, colStage: string, colRound: string, colGroup: string) returns (err: Option<Error>)
    requires df.Valid()
    modifies df
    ensures df.Valid()
    ensures Project(old(df.Value()), StageInputs).Failure? ==>
      err == Some(Project(old(df.Value()), StageInputs).error) && df.Value() == old(df.Value())
    ensures Has(old(df.Value()), "stage") && Has(old(df.Value()), "group_id") && Has(old(df.Value()), "round_id") ==>
      err.None? && df.Value() == Put(old(df.Value()), "stage_name",
        StageNames(Get(old(df.Value()), "stage"), Get(old(df.Value()), "group_id"), Get(old(df.Value()), "round_id")))
  {
    var projected := Project(df.Value(), StageInputs);
    assert StageInputs[0] == "stage" && StageInputs[1] == "group_id" && StageInputs[2] == "round_id";
    if projected.Failure? {
      return Some(projected.error);
    }
    var inputs := projected.value;
    var stage, groupId, roundId := inputs.cols[0].cells, inputs.cols[1].cells, inputs.cols[2].cells;
    df.Assign("stage_name", StageNames(stage, groupId, roundId));
    err := None;
  }

  /* ---------------------------------------------------------------------- */
  /* fct_final_columns_to_keep                                                */
  /* ---------------------------------------------------------------------- */

  function Min(a: nat, b: nat): nat {
    if a < b then a else b
  }

  /** The pairs of two lists of equal length as a dictionary; a repeated key keeps its last partner. */
  function Pairs(keys: seq<string>, values: seq<string>): (m: map<string, string>)
    requires |keys| == |values|
    ensures forall k :: k in m <==> k in keys
  {
    if keys == [] then map[]
    else
      var n := |keys|;
      assert keys == keys[..n - 1] + [keys[n - 1]];
      Pairs(keys[..n - 1], values[..n - 1])[keys[n - 1] := values[n - 1]]
  }

  /** A key's partner is the value at its last occurrence. */
  lemma {:induction false} PairsLast(keys: seq<string>, values: seq<string>, i: nat)
    requires |keys| == |values| && i < |keys|
    requires forall j :: i < j < |keys| ==> keys[j] != keys[i]
    ensures Pairs(keys, values)[keys[i]] == values[i]
  {
    var n := |keys|;
    if i < n - 1 {
      PairsLast(keys[..n - 1], values[..n - 1], i);
    }
  }

  /** `dict(zip(orig, final))`: pairs up to the shorter list. */
  function ZipMap(orig: seq<string>, final: seq<string>): map<string, string> {
    var n := Min(|orig|, |final|);
    Pairs(orig[..n], final[..n])
  }

  /** `fct_final_columns_to_keep`: `df[orig]`, renamed through the zipped pairs. */
  function FinalColumnsToKeep(t: Table, orig: seq<string>, final: seq<string>): (r: Result<Table, Error>)
    ensures r.Success? <==> forall i :: 0 <= i < |orig| ==> Has(t, orig[i])
    ensures r.Failure? ==> exists i :: 0 <= i < |orig| && r.error == MissingColumn(orig[i]) && !Has(t, orig[i])
    ensures r.Success? ==>
      r.value.height == t.height && |r.value.cols| == |orig| && forall i :: 0 <= i < |orig| ==> r.value.cols[i] == Column(MapOr(ZipMap(orig, final), orig[i]), Get(t, orig[i]))
  {
    var kept :- Project(t, orig);
    Success(Rename(kept, ZipMap(orig, final)))
  }

  /**
   * With distinct original names and enough final names, the kept columns
   * carry exactly the final names, pairwise, in list order.
   */
  lemma FinalColumnsPairwise(t: Table, orig: seq<string>, final: seq<string>)
    requires NoDup(orig) && |final| >= |orig|
    requires forall i :: 0 <= i < |orig| ==> Has(t, orig[i])
    ensures FinalColumnsToKeep(t, orig, final).Success?
    ensures Names(FinalColumnsToKeep(t, orig, final).value.cols) == final[..|orig|]
  {
    var m := ZipMap(orig, final);
    assert orig[..Min(|orig|, |final|)] == orig;
    forall i | 0 <= i < |orig|
      ensures MapOr(m, orig[i]) == final[i]
    {
      PairsLast(orig, final[..|orig|], i);
    }
  }

  /* ---------------------------------------------------------------------- */
  /* fct_harmonize_column_values                                              */
  /* ---------------------------------------------------------------------- */

  /** `mapping.get(x, x)` for a present value; a missing value stays missing. */
  function HarmonizeCell(c: Cell, m: map<string, string>): (r: Cell)
    ensures c.Null? ==> r.Null?
  {
    if c.Str? && c.s in m then Str(m[c.s]) else c
  }

  function HarmonizeCells(cells: seq<Cell>, m: map<string, string>): (r: seq<Cell>)
    ensures |r| == |cells| && forall i :: 0 <= i < |cells| ==> r[i] == HarmonizeCell(cells[i], m)
  {
    seq(|cells|, i requires 0 <= i < |cells| => HarmonizeCell(cells[i], m))
  }

  /** A mapping whose targets map to themselves. */
  predicate Closed(m: map<string, string>) {
    forall k :: k in m && m[k] in m ==> m[m[k]] == m[k]
  }

  /** With such a mapping, harmonising twice is harmonising once. */
  lemma HarmonizeIdempotent(cells: seq<Cell>, m: map<string, string>)
    requires Closed(m)
    ensures HarmonizeCells(HarmonizeCells(cells, m), m) == HarmonizeCells(cells, m)
  {
    forall i | 0 <= i < |cells|
      ensures HarmonizeCell(HarmonizeCell(cells[i], m), m) == HarmonizeCell(cells[i], m)
    {
      var c := cells[i];
      if c.Str? && c.s in m {
        assert m[c.s] in m ==> m[m[c.s]] == m[c.s];
      }
    }
  }

  /** Values the mapping does not name come out as they went in. */
  lemma HarmonizePassesMisses(cells: seq<Cell>, m: map<string, string>)
    ensures forall i :: 0 <= i < |cells| && !(cells[i].Str? && cells[i].s in m) ==> HarmonizeCells(cells, m)[i] == cells[i]
    ensures forall i :: 0 <= i < |cells| && cells[i].Str? && cells[i].s in m ==> HarmonizeCells(cells, m)[i] == Str(m[cells[i].s])
  {
  }

  /** `fct_harmonize_column_values`: a missing column leaves the table as it is. */
  method HarmonizeColumnValues(df: Frame, col: string, m: map<string, string>)
    requires df.Valid()
    modifies df
    ensures df.Valid()
    ensures !Has(old(df.Value()), col) ==> df.Value() == old(df.Value())
    ensures Has(old(df.Value()), col) ==> df.Value() == Put(old(df.Value()), col, HarmonizeCells(Get(old(df.Value()), col), m))
  {
    if !Has(df.Value(), col) {
      return;
    }
    df.Assign(col, HarmonizeCells(Get(df.Value(), col), m));
  }
}
