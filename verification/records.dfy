/** Scalar values, named fields and one-row records: the shape of the dictionary
    the request handler assembles and the feature aligner consumes. */
module Records {

  /** The result of a read by name: the value found, or nothing. */
  datatype Option<+T> = None | Some(value: T) {

    /** The value found, falling back to `fallback` on a miss. */
    function GetOr(fallback: T): T {
      if Some? then value else fallback
    }
  }

  /** A scalar cell: an integer (a parsed form number or an integer CSV column)
      or a text value (a form string or a text CSV column). */
  datatype Value = Num(n: int) | Cat(text: string)

  /** One named entry of a record, a frame row or a display group. */
  datatype Field = Field(name: string, value: Value)

  /** A one-row record, in the insertion order of the dictionary it models. */
  type Record = seq<Field>

  /** The decimal digit for `d`. */
  function Digit(d: int): char
    requires 0 <= d < 10
  {
    "0123456789"[d]
  }

  /** Decimal spelling of a natural number, most significant digit first. */
  function NatText(n: nat): string
    decreases n
  {
    if n < 10 then [Digit(n)] else NatText(n / 10) + [Digit(n % 10)]
  }

  /** Decimal spelling of an integer, as Python's `str` writes it. */
  function DecimalText(n: int): string {
    if n < 0 then "-" + NatText(-n) else NatText(n)
  }

  /** The text a value contributes to a column label. */
  function ValueText(v: Value): string {
    match v
    case Num(n) => DecimalText(n)
    case Cat(s) => s
  }

  /** No two fields of the record share a name, as in a dictionary. */
  predicate DistinctNames(record: Record) {
    forall j, k :: 0 <= j < k < |record| ==> record[j].name != record[k].name
  }
}
