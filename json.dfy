/** JSON-like values as the dashboard receives them from the contacts API, with the
    JavaScript semantics the page relies on: truthiness (`||` fallbacks), property
    reads, and string conversion inside template literals. */
module Json {

  /** A decoded JSON body. JavaScript numbers are modelled by integers only. */
  datatype Value =
    | Undefined
    | Null
    | Bool(b: bool)
    | Num(n: int)
    | Str(s: string)
    | Arr(elems: seq<Value>)
    | Obj(fields: map<string, Value>)

  /** JavaScript truthiness: `undefined`, `null`, `false`, `0` and `""` are falsy;
      every array and object, even an empty one, is truthy. */
  predicate Truthy(v: Value) {
    match v
    case Undefined => false
    case Null => false
    case Bool(b) => b
    case Num(n) => n != 0
    case Str(s) => s != ""
    case Arr(_) => true
    case Obj(_) => true
  }

  /** Stands for the message of the TypeError the engine throws on a property read
      of `null`/`undefined` or a call of a missing method; its text is not fixed. */
  const TypeErrorMessage := "TypeError"

  /** `null` or `undefined`: reading a property of such a value throws a TypeError. */
  predicate Nullish(v: Value) {
    v.Undefined? || v.Null?
  }

  /** JavaScript `a || b`: the left operand when it is truthy, otherwise the right one. */
  function Or(a: Value, b: Value): (r: Value)
    ensures Truthy(a) ==> r == a
    ensures !Truthy(a) ==> r == b
    ensures Truthy(r) <==> Truthy(a) || Truthy(b)
  {
    if Truthy(a) then a else b
  }

  /** Property read `v.key` on a value that is not null or undefined. Only objects
      carry the keys the page reads; on any other value the read yields `undefined`. */
  function Prop(v: Value, key: string): (r: Value)
    requires !Nullish(v)
    ensures v.Obj? && key in v.fields ==> r == v.fields[key]
    ensures !(v.Obj? && key in v.fields) ==> r == Undefined
  {
    match v
    case Obj(fields) => if key in fields then fields[key] else Undefined
    case _ => Undefined
  }

  /** A string of decimal digits. */
  predicate AllDigits(s: string) {
    forall i :: 0 <= i < |s| ==> '0' <= s[i] <= '9'
  }

  /** The number a string of decimal digits denotes, most significant first. */
  function DecimalValue(s: string): (v: nat)
    requires AllDigits(s)
    decreases |s|
  {
    if s == [] then 0
    else DecimalValue(s[..|s| - 1]) * 10 + (s[|s| - 1] as int - '0' as int)
  }

  /** Decimal digits of a natural number, most significant first: they denote the
      number, and there is no leading zero except in "0" itself. */
  function Digits(n: nat): (r: string)
    ensures |r| >= 1
    ensures AllDigits(r)
    ensures DecimalValue(r) == n
    ensures r[0] == '0' ==> n == 0 && r == "0"
    decreases n
  {
    var d := [(('0' as int) + n % 10) as char];
    if n < 10 then d
    else
      var front := Digits(n / 10);
      assert (front + d)[..|front + d| - 1] == front;
      front + d
  }

  /** JavaScript `String(v)`, the conversion a template literal applies. An array is
      converted by joining its elements with commas, null and undefined elements
      becoming empty; a plain object converts to "[object Object]". */
  function Show(v: Value): (r: string)
    ensures v.Str? ==> r == v.s
    ensures v.Num? && v.n >= 0 ==> r == Digits(v.n)
    ensures v.Num? && v.n < 0 ==> r == "-" + Digits(-v.n)
    ensures v == Undefined ==> r == "undefined"
    ensures v == Null ==> r == "null"
    ensures v.Bool? ==> r == (if v.b then "true" else "false")
    ensures v.Obj? ==> r == "[object Object]"
    ensures v == Arr([]) ==> r == ""
    decreases v
  {
    match v
    case Undefined => "undefined"
    case Null => "null"
    case Bool(b) => if b then "true" else "false"
    case Num(n) => if n < 0 then "-" + Digits(-n) else Digits(n)
    case Str(s) => s
    case Arr(_) => ShowElems(v, 0)
    case Obj(_) => "[object Object]"
  }

  /** The comma-joined conversion of the elements of array `v` from index `i` on. */
  function ShowElems(v: Value, i: nat): (r: string)
    requires v.Arr? && i <= |v.elems|
    decreases v, |v.elems| - i
  {
    if i == |v.elems| then ""
    else
      var e := v.elems[i];
      assert e < v;
      (if i > 0 then "," else "") + (if Nullish(e) then "" else Show(e)) + ShowElems(v, i + 1)
  }
}
