/**
 * The part of a pandas DataFrame the notification code looks at: an ordered
 * sequence of records and a column count, with `shape`, `empty` and `head`.
 */
module Frames {

  /** One record: its cell values as text. */
  type Row = seq<string>

  datatype Frame = Frame(rows: seq<Row>, columns: nat)

  /** `df.shape`, as the pair (records, columns). */
  datatype Shape = Shape(records: nat, columns: nat)

  /** The most records ever put into a notification. */
  const RowLimit: nat := 30

  /** `df.empty`: true when either axis has length 0. */
  predicate IsEmpty(df: Frame)
  {
    |df.rows| == 0 || df.columns == 0
  }

  function Min(a: nat, b: nat): nat
  {
    if a <= b then a else b
  }

  /** `df.head(n=n)`: the first `n` records, in order, or all of them when there are fewer. */
  function Head(df: Frame, n: nat): (r: Frame)
    ensures r.columns == df.columns
    ensures |r.rows| == Min(n, |df.rows|)
    ensures forall i :: 0 <= i < |r.rows| ==> r.rows[i] == df.rows[i]
  {
    Frame(df.rows[..Min(n, |df.rows|)], df.columns)
  }

  /** More records than the limit: the condition under which the code logs a warning and truncates. */
  predicate ExceedsLimit(df: Frame)
  {
    |df.rows| > RowLimit
  }

  /** The frame actually rendered: the first 30 records when there are more than 30, else the whole frame. */
  function Capped(df: Frame): (r: Frame)
    ensures r.columns == df.columns
    ensures |r.rows| == Min(|df.rows|, RowLimit)
    ensures r.rows == df.rows[..|r.rows|]
    ensures !ExceedsLimit(df) <==> r == df
  {
    if ExceedsLimit(df) then Head(df, RowLimit) else df
  }

  /** Capping twice is capping once. */
  lemma CappedIdempotent(df: Frame)
    ensures Capped(Capped(df)) == Capped(df)
    ensures !ExceedsLimit(Capped(df))
  {
  }

  /** Capping never turns an empty frame into a non-empty one or the reverse. */
  lemma CappedKeepsEmptiness(df: Frame)
    ensures IsEmpty(Capped(df)) <==> IsEmpty(df)
  {
  }
}
