/** JSON values and the accessors the protocol code reads them through. */
module Json {
  import opened Text
  import opened Lexeme

  datatype Value =
    | Null
    | Bool(b: bool)
    | Number(num: Number)
    | String(s: string)
    | Array(items: seq<Value>)
    | Object(fields: map<string, Value>)

  /** The value without the spellings of its floats. */
  function Plain(v: Value): Value {
    match v
    case Number(n) => Number(PlainNumber(n))
    case Array(items) => Array(seq(|items|, i requires 0 <= i < |items| => Plain(items[i])))
    case Object(fields) => Object(map k | k in fields :: Plain(fields[k]))
    case _ => v
  }

  const I64_MIN: int := -0x8000_0000_0000_0000
  const I64_MAX: int := 0x7FFF_FFFF_FFFF_FFFF
  const U64_MAX: int := 0xFFFF_FFFF_FFFF_FFFF

  type i64 = x: int | I64_MIN <= x <= I64_MAX
  type u64 = x: int | 0 <= x <= U64_MAX

  function Get(fields: map<string, Value>, key: string): Option<Value> {
    if key in fields then Some(fields[key]) else None
  }

  function AsStr(v: Option<Value>): Option<string> {
    if v.Some? && v.value.String? then Some(v.value.s) else None
  }

  function AsU64(v: Value): Option<u64> {
    if v.Number? && v.num.Integer? && 0 <= v.num.n <= U64_MAX then Some(v.num.n) else None
  }

  /** `-0` is outside u64 but reads as the i64 zero. */
  function AsI64(v: Value): Option<i64> {
    if v.Number? && v.num.Integer? && I64_MIN <= v.num.n <= I64_MAX then Some(v.num.n)
    else if v.Number? && v.num.MinusZero? then Some(0)
    else None
  }
}
