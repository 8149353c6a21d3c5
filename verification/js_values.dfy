/**
  The slice of JavaScript's value semantics the booking service relies on:
  scalar JSON values, truthiness (`!x`, `x || d`), string interpolation
  (`${x}`) and property reads on a parsed JSON body.
 */
module JsValues {

  datatype Option<+T> = None | Some(value: T)

  /** A scalar JavaScript value as it can appear in a request or a store reply.
      Only integral numbers are represented. */
  datatype Value =
    | Undefined
    | Null
    | Bool(b: bool)
    | Num(n: int)
    | Str(s: string)

  /** JavaScript truthiness: `undefined`, `null`, `false`, `0` and `""` are falsy. */
  predicate Truthy(v: Value) {
    match v
    case Undefined => false
    case Null => false
    case Bool(b) => b
    case Num(n) => n != 0
    case Str(s) => s != ""
  }

  /** The expression `v || d`. */
  function OrElse(v: Value, d: Value): (r: Value)
    ensures Truthy(v) ==> r == v
    ensures !Truthy(v) ==> r == d
    ensures Truthy(r) <==> Truthy(v) || Truthy(d)
  {
    if Truthy(v) then v else d
  }

  function DigitChar(d: nat): char
    requires d < 10
  {
    "0123456789"[d]
  }

  function NatToDecimal(n: nat): string
    decreases n
  {
    if n < 10 then [DigitChar(n)] else NatToDecimal(n / 10) + [DigitChar(n % 10)]
  }

  /** `String(v)`, which is what a template literal `${v}` inserts. */
  function ToString(v: Value): string {
    match v
    case Undefined => "undefined"
    case Null => "null"
    case Bool(b) => if b then "true" else "false"
    case Num(n) => if n < 0 then "-" + NatToDecimal(-n) else NatToDecimal(n)
    case Str(s) => s
  }

  /** A truthy value never interpolates as the empty string. */
  lemma TruthyShowsNonEmpty(v: Value)
    requires Truthy(v)
    ensures ToString(v) != ""
  {
    if v.Num? {
      var n := if v.n < 0 then -v.n else v.n;
      assert NatToDecimal(n) != [];
    }
  }

  /** A parsed JSON body: an object with scalar members, or any other value. */
  datatype Body =
    | Object(fields: map<string, Value>)
    | NonObject(v: Value)

  /** The outcome of reading `body.key`: reading a property of `null` or
      `undefined` throws a TypeError. */
  datatype Read = Got(value: Value) | TypeError

  function ReadField(body: Body, key: string): (r: Read)
    ensures r.TypeError? <==> body.NonObject? && (body.v.Null? || body.v.Undefined?)
    ensures body.Object? && key in body.fields ==> r == Got(body.fields[key])
    ensures body.Object? && key !in body.fields ==> r == Got(Undefined)
    ensures body.NonObject? && !body.v.Null? && !body.v.Undefined? ==> r == Got(Undefined)
  {
    match body
    case Object(fields) => if key in fields then Got(fields[key]) else Got(Undefined)
    case NonObject(v) => if v.Null? || v.Undefined? then TypeError else Got(Undefined)
  }
}
