/** The values a DataFrame cell can hold in this pipeline. */
module Cells {
  import opened Text

  /** A missing value (None, NaN, pd.NA), a string, or an integer. */
  datatype Cell = Null | Str(s: string) | Int(n: int)

  /** `str(val)` of a non-missing cell. */
  function CellText(c: Cell): (r: string)
    requires !c.Null?
    ensures c.Int? ==> forall k :: 0 <= k < |r| ==> !IsSpace(r[k]) && r[k] != '"' && r[k] != '\''
  {
    if c.Str? then c.s else IntText(c.n)
  }
}
