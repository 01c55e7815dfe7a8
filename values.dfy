/** The PHP values that flow through the database layer. */
module Values {
  import opened PhpArray

  datatype Scalar = Null | Bool(b: bool) | Int(i: int) | Str(s: string)

  /** A query parameter value: a scalar, or an array of values. Arrays used as
      parameter values are lists (keys 0, 1, ...), so they are kept as sequences. */
  datatype Value = Plain(scalar: Scalar) | List(elements: seq<Value>)

  /** The `$params` array of a query. */
  type Params = seq<Entry<Value>>

  /** A connection option: a scalar setting, or an array (such as
      `pdo_attributes`, keyed by PDO attribute constants). */
  datatype OptionValue = Setting(scalar: Scalar) | ArraySetting(entries: seq<Entry<Scalar>>)

  /** The `$options` array of a connection. */
  type Options = seq<Entry<OptionValue>>
}
