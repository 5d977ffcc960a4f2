/**
 Raw table cells and the two number conversions the dashboard applies to them.

 The CSV loader delivers every record as an object from column name to cell
 text; a property that is absent reads as `undefined`. JavaScript has two
 distinct ways of turning cell text into a number, and the dashboard uses both:
 `parseFloat` when it classifies a column and unary `+` when it draws one. The
 model keeps both abstract: a conversion is a function from text to an optional
 number, where `None` stands for NaN.
 */
module Cells {

  datatype Option<+T> = None | Some(value: T)

  /** One CSV record: column name to raw cell text. */
  type Row = map<string, string>

  /** The loaded data, in file order. */
  type Dataset = seq<Row>

  /** A text-to-number conversion; `None` is NaN. */
  type Converter = string -> Option<real>

  /** `row[col]`: the cell text, or `None` for `undefined` when the row lacks the column. */
  function Lookup(row: Row, col: string): Option<string>
  {
    if col in row then Some(row[col]) else None
  }

  /** Applies a conversion to a cell; both `parseFloat(undefined)` and `+undefined` are NaN. */
  function Convert(conv: Converter, cell: Option<string>): Option<real>
  {
    match cell
    case None => None
    case Some(text) => conv(text)
  }

  /** The property name a cell becomes when used as an object key: `undefined` turns into "undefined". */
  function KeyOf(cell: Option<string>): string
  {
    match cell
    case None => "undefined"
    case Some(text) => text
  }

  /**
   What is known of `parseFloat`: it reads the longest numeric prefix, so an
   empty string and "abc" are NaN while "12abc" is 12.
   */
  predicate ParseFloatLaws(parseFloat: Converter)
  {
    && parseFloat("") == None
    && parseFloat("abc") == None
    && parseFloat("12") == Some(12.0)
    && parseFloat("12abc") == Some(12.0)
  }

  /**
   What is known of unary `+`: the whole string must be numeric after trimming,
   so an empty string is 0 while "abc" and "12abc" are NaN.
   */
  predicate UnaryPlusLaws(plus: Converter)
  {
    && plus("") == Some(0.0)
    && plus("abc") == None
    && plus("12") == Some(12.0)
    && plus("12abc") == None
  }
}
