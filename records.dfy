/** The documents the scripts build and publish: JSON objects whose fields
    hold numbers, strings or nothing (Python's None, JSON null). Python's int
    and float are both `Num` here. */
module Records {
  import opened Results
  import opened Strings
  import opened Numbers

  datatype Value = Num(n: real) | Str(s: string) | Null

  /** A flat document: field name to value. */
  type Record = map<string, Value>

  /** `d[key]`, raising KeyError when the key is absent. */
  function Get(d: Record, key: string): (r: Result<Value>)
    ensures r.Ok? <==> key in d
    ensures r.Ok? ==> r.value == d[key]
    ensures r.Fail? ==> r.error == KeyMissing
  {
    if key in d then Ok(d[key]) else Fail(KeyMissing)
  }

  /** `float(v)`: a number as it is, a string read as a decimal; None is a TypeError. */
  function FloatOf(v: Value): (r: Result<real>)
    ensures v.Num? ==> r == Ok(v.n)
    ensures v.Str? ==> (r.Ok? <==> ParseDecimal(v.s).Some?) && (r.Ok? ==> r.value == ParseDecimal(v.s).value)
    ensures v.Null? ==> r == Fail(TypeMismatch)
    ensures r.Fail? ==> r.error == (if v.Null? then TypeMismatch else NotANumber)
  {
    match v
    case Num(x) => Ok(x)
    case Str(s) => Need(ParseDecimal(s), NotANumber)
    case Null => Fail(TypeMismatch)
  }

  /** `int(v)`: a number truncated toward zero, a string read as an integer. */
  function IntOf(v: Value): (r: Result<int>)
    ensures v.Num? ==> r == Ok(Trunc(v.n))
    ensures v.Str? ==> (r.Ok? <==> ParseInt(v.s).Some?) && (r.Ok? ==> r.value == ParseInt(v.s).value)
    ensures v.Null? ==> r == Fail(TypeMismatch)
  {
    match v
    case Num(x) => Ok(Trunc(x))
    case Str(s) => Need(ParseInt(s), NotANumber)
    case Null => Fail(TypeMismatch)
  }

  /** An arithmetic operand: Python raises TypeError for a string there. */
  function NumberOf(v: Value): (r: Result<real>)
    ensures r.Ok? <==> v.Num?
  {
    match v
    case Num(x) => Ok(x)
    case _ => Fail(TypeMismatch)
  }
}
