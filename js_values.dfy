/**
 * The JavaScript values the bootstrap layer passes around: configuration values
 * parsed from JSON, URL parameters after coercion, and the outcomes of the
 * asynchronous steps. Only what the core reads is modelled.
 */
module JsValues {

  /** A property that may be missing; `None` stands for `undefined`. */
  datatype Option<+T> = None | Some(value: T) {
    function GetOr(default: T): T
    {
      match this
      case Some(v) => v
      case None => default
    }
  }

  /**
   * A JSON-like value. Numbers are integral (the core only ever reads
   * integral numbers such as `num: 9` or a wkid); floating point is not modelled.
   */
  datatype Value =
    | Null
    | Bool(b: bool)
    | Num(n: int)
    | Str(s: string)
    | List(items: seq<Value>)
    | Obj(fields: map<string, Value>)

  /** JavaScript truthiness of a value. */
  predicate Truthy(v: Value)
  {
    match v
    case Null => false
    case Bool(b) => b
    case Num(n) => n != 0
    case Str(s) => s != ""
    case List(_) => true
    case Obj(_) => true
  }

  /** Truthiness of a property read: `undefined` is falsy. */
  predicate IsSet(o: Option<Value>)
  {
    o.Some? && Truthy(o.value)
  }

  /** `_isDefined`: neither `undefined` nor `null`. */
  predicate IsDefined(o: Option<Value>)
  {
    o.Some? && !o.value.Null?
  }

  /** Reading `m[k]` from a plain object. */
  function Get(m: map<string, Value>, k: string): (r: Option<Value>)
    ensures r.Some? <==> k in m
    ensures r.Some? ==> r.value == m[k]
  {
    if k in m then Some(m[k]) else None
  }

  /** Reading `v.name` from a defined value; only objects carry named properties here. */
  function Field(v: Value, name: string): Option<Value>
  {
    if v.Obj? && name in v.fields then Some(v.fields[name]) else None
  }

  /** The guarded read `o && o.name`: a falsy `o` is the result itself. */
  function AndField(o: Option<Value>, name: string): (r: Option<Value>)
    ensures !IsSet(o) ==> r == o
    ensures IsSet(r) ==> IsSet(o) && o.value.Obj? && name in o.value.fields && r.value == o.value.fields[name]
  {
    if IsSet(o) then Field(o.value, name) else o
  }

  /** `a || b` on two property reads. */
  function Or(a: Option<Value>, b: Option<Value>): (r: Option<Value>)
    ensures IsSet(a) ==> r == a
    ensures !IsSet(a) ==> r == b
  {
    if IsSet(a) then a else b
  }

  /** `v.length > 0` for the values that have a length (strings and arrays). */
  predicate HasPositiveLength(v: Value)
  {
    (v.Str? && |v.s| > 0) || (v.List? && |v.items| > 0)
  }

  /** Decimal digits of a natural number, as JavaScript prints an integer. */
  function NatToDecimal(n: nat): (r: string)
    ensures |r| >= 1
    ensures forall i :: 0 <= i < |r| ==> '0' <= r[i] <= '9'
    decreases n
  {
    var d := [(('0' as int) + n % 10) as char];
    if n < 10 then d else NatToDecimal(n / 10) + d
  }

  /** `String(v)`, the text a value turns into when spliced into a string. */
  function JsString(v: Value): string
    decreases v
  {
    match v
    case Null => "null"
    case Bool(b) => if b then "true" else "false"
    case Num(n) => if n < 0 then "-" + NatToDecimal(-n) else NatToDecimal(n)
    case Str(s) => s
    case List(items) => JoinElements(items)
    case Obj(_) => "[object Object]"
  }

  /** `Array.prototype.join` with the default `,` separator; `null` elements print as "". */
  function JoinElements(items: seq<Value>): string
    decreases items
  {
    if |items| == 0 then ""
    else
      var first := if items[0].Null? then "" else JsString(items[0]);
      if |items| == 1 then first else first + "," + JoinElements(items[1..])
  }

  /** An `Error` object; `TypeError` is what the engine throws on a bad property access or call. */
  datatype Error = Error(message: string) | TypeError

  /** A synchronous computation that may throw. */
  datatype Result<+T> = Ok(value: T) | Threw(error: Error)

  /** A remote response: the loaded value, or a rejection whose reason may be falsy. */
  datatype Fetch<+T> = Loaded(value: T) | Failed(reason: Option<Error>)

  /** How one of the boilerplate's deferreds settles (or the exception raised while starting it). */
  datatype Outcome = Resolved | Rejected(error: Error) | Thrown(error: Error)

  /** `if (!error) { error = new Error(fallback); }` */
  function RejectionError(reason: Option<Error>, fallback: string): (e: Error)
    ensures reason.Some? ==> e == reason.value
    ensures reason.None? ==> e == Error(fallback)
  {
    reason.GetOr(Error(fallback))
  }
}
