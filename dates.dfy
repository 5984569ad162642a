/**
 * Timestamps and their fixed-width `YYYYMMDDhhmmss` rendering.
 *
 * Parsing a free-form date (pandas `to_datetime`) is library code and is a
 * parameter here: a `DateParser` maps a cell and a parse mode to a timestamp
 * or to nothing. Only what the pipeline does with the parser's answer is
 * modelled.
 */
module Dates {
  import opened Wrappers
  import opened Text
  import opened Cells

  datatype Stamp = Stamp(year: int, month: int, day: int, hour: int, minute: int, second: int) {
    /** The range of a pandas Timestamp, field by field. */
    predicate Valid() {
      1677 <= year <= 2262 && 1 <= month <= 12 && 1 <= day <= 31
      && 0 <= hour < 24 && 0 <= minute < 60 && 0 <= second < 60
    }
  }

  type ValidStamp = st: Stamp | st.Valid() witness Stamp(1970, 1, 1, 0, 0, 0)

  /** `dayfirst=False`, `dayfirst=True`, and `utc=True` calls of the parser. */
  datatype ParseMode = MonthFirst | DayFirst | Utc

  type DateParser = (Cell, ParseMode) -> Option<ValidStamp>

  /** Chronological order of timestamps. */
  predicate Before(a: Stamp, b: Stamp) {
    a.year < b.year || (a.year == b.year &&
    (a.month < b.month || (a.month == b.month &&
    (a.day < b.day || (a.day == b.day &&
    (a.hour < b.hour || (a.hour == b.hour &&
    (a.minute < b.minute || (a.minute == b.minute && a.second < b.second)))))))))
  }

  /** The six fields written one after the other. */
  function Compact(year: string, month: string, day: string, hour: string, minute: string, second: string): string {
    year + (month + (day + (hour + (minute + second))))
  }

  /** `strftime("%Y%m%d%H%M%S")`, or the `:04d`/`:02d` f-string fields. */
  function FormatStamp(st: ValidStamp): (r: string)
    ensures |r| == 14 && AllDigits(r)
  {
    Compact(Pad(st.year, 4), Pad(st.month, 2), Pad(st.day, 2), Pad(st.hour, 2), Pad(st.minute, 2), Pad(st.second, 2))
  }

  /** The value written for a date that could not be converted: year 9999, every other field 99. */
  const Sentinel: string := Compact("9999", "99", "99", "99", "99", "99")

  lemma ConcatEq(x: string, y: string, u: string, v: string)
    requires |x| == |u|
    ensures x + y == u + v <==> x == u && y == v
  {
    if x + y == u + v {
      assert x == (x + y)[..|x|] && u == (u + v)[..|u|];
      assert y == (x + y)[|x|..] && v == (u + v)[|u|..];
    }
  }

  /** The compact form sorts as the timestamps do, and tells them apart. */
  lemma FormatOrder(a: ValidStamp, b: ValidStamp)
    ensures LexLt(FormatStamp(a), FormatStamp(b)) <==> Before(a, b)
    ensures FormatStamp(a) == FormatStamp(b) <==> a == b
  {
    var a1, a2, a3, a4, a5, a6 := Pad(a.year, 4), Pad(a.month, 2), Pad(a.day, 2), Pad(a.hour, 2), Pad(a.minute, 2), Pad(a.second, 2);
    var b1, b2, b3, b4, b5, b6 := Pad(b.year, 4), Pad(b.month, 2), Pad(b.day, 2), Pad(b.hour, 2), Pad(b.minute, 2), Pad(b.second, 2);
    PadOrder(a.year, b.year, 4);
    PadOrder(a.month, b.month, 2);
    PadOrder(a.day, b.day, 2);
    PadOrder(a.hour, b.hour, 2);
    PadOrder(a.minute, b.minute, 2);
    PadOrder(a.second, b.second, 2);
    LexConcat(a5, a6, b5, b6);
    ConcatEq(a5, a6, b5, b6);
    LexConcat(a4, a5 + a6, b4, b5 + b6);
    ConcatEq(a4, a5 + a6, b4, b5 + b6);
    LexConcat(a3, a4 + (a5 + a6), b3, b4 + (b5 + b6));
    ConcatEq(a3, a4 + (a5 + a6), b3, b4 + (b5 + b6));
    LexConcat(a2, a3 + (a4 + (a5 + a6)), b2, b3 + (b4 + (b5 + b6)));
    ConcatEq(a2, a3 + (a4 + (a5 + a6)), b2, b3 + (b4 + (b5 + b6)));
    LexConcat(a1, a2 + (a3 + (a4 + (a5 + a6))), b1, b2 + (b3 + (b4 + (b5 + b6))));
    ConcatEq(a1, a2 + (a3 + (a4 + (a5 + a6))), b1, b2 + (b3 + (b4 + (b5 + b6))));
  }

  /** The failure value sorts after every converted date. */
  lemma SentinelSortsLast(st: ValidStamp)
    ensures |Sentinel| == 14 && LexLt(FormatStamp(st), Sentinel)
  {
    assert Pad(9999, 4) == "9999" by {
      assert Pad(9, 1) == "9";
      assert Pad(99, 2) == "99";
      assert Pad(999, 3) == "999";
    }
    PadOrder(st.year, 9999, 4);
    var rest := Compact(Pad(st.year, 4), Pad(st.month, 2), Pad(st.day, 2), Pad(st.hour, 2), Pad(st.minute, 2), Pad(st.second, 2))[4..];
    var srest := Sentinel[4..];
    assert FormatStamp(st) == Pad(st.year, 4) + rest;
    assert Sentinel == "9999" + srest;
    LexConcat(Pad(st.year, 4), rest, "9999", srest);
  }

  /** The first four characters of the compact form are the year. */
  lemma FormatYear(st: ValidStamp)
    ensures FormatStamp(st)[..4] == Pad(st.year, 4)
    ensures AllDigits(Pad(st.year, 4)) && DigitsValue(Pad(st.year, 4)) == st.year
  {
    PadValue(st.year, 4);
  }
}
