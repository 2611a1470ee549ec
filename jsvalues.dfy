/** The JavaScript values the store handles, and the parts of the language's
    coercion rules that the store relies on: truthiness, strict equality,
    `String(v)`, `Number(v)`, `String.prototype.trim` and object spread. */
module JsValues {
  import opened Wrappers

  /** A JavaScript value as it can appear in a decoded JSON document or in a
      record built by the store. `NaN` only arises from `Number(...)`. */
  datatype Value =
    | Undefined
    | Null
    | Bool(b: bool)
    | Num(x: real)
    | NaN
    | Str(s: string)
    | Arr(items: seq<Value>)
    | Obj(fields: map<string, Value>)

  /** A plain object: property name to value. A key that maps to `Undefined`
      is present (it counts for `hasOwnProperty`); an absent key reads as
      `Undefined`. */
  type Record = map<string, Value>

  /** The three conversions the model leaves to the JavaScript engine:
      `Number(s)` on a string (None stands for NaN), `String(x)` on a finite
      number, and `JSON.parse(s)` (None stands for a thrown SyntaxError). */
  datatype Runtime = Runtime(
    numberOfString: string -> Option<real>,
    stringOfNumber: real -> string,
    parseJson: string -> Option<Value>)

  /** Property read `r.k`. */
  function Get(r: Record, k: string): Value {
    if k in r then r[k] else Undefined
  }

  /** The six values JavaScript treats as false (`-0` is `Num(0.0)` here). */
  const Falsy: set<Value> := {Undefined, Null, Bool(false), Num(0.0), NaN, Str("")}

  /** ToBoolean: what `&&`, `||` and `?:` test. */
  predicate Truthy(v: Value)
    ensures Truthy(v) <==> v !in Falsy
  {
    match v
    case Undefined => false
    case Null => false
    case Bool(b) => b
    case Num(x) => x != 0.0
    case NaN => false
    case Str(s) => s != ""
    case Arr(_) => true
    case Obj(_) => true
  }

  /** What `??` treats as missing. */
  predicate Nullish(v: Value) {
    v.Undefined? || v.Null?
  }

  /** The values `===` compares by content. Arrays and objects compare by
      reference, and the values compared by the store always come from
      different decoded documents, so they are never `===` to anything here. */
  predicate Primitive(v: Value) {
    v.Undefined? || v.Null? || v.Bool? || v.Num? || v.Str?
  }

  /** `a === b`. */
  predicate StrictEquals(a: Value, b: Value)
    ensures StrictEquals(a, b) <==> a == b && Primitive(a)
  {
    match (a, b)
    case (Undefined, Undefined) => true
    case (Null, Null) => true
    case (Bool(x), Bool(y)) => x == y
    case (Num(x), Num(y)) => x == y
    case (Str(x), Str(y)) => x == y
    case _ => false
  }

  /** `parts.join(sep)`. */
  function Join(parts: seq<string>, sep: string): (r: string)
    ensures parts == [] ==> r == ""
    ensures |parts| == 1 ==> r == parts[0]
  {
    if parts == [] then ""
    else if |parts| == 1 then parts[0]
    else parts[0] + sep + Join(parts[1..], sep)
  }

  /** `String(v)`. An array joins its elements with commas, writing null
      and undefined elements as empty strings. */
  function ToStr(js: Runtime, v: Value): (r: string)
    ensures v.Str? ==> r == v.s
    ensures v.Undefined? ==> r == "undefined"
    ensures v.Null? ==> r == "null"
    ensures v.NaN? ==> r == "NaN"
    ensures v.Bool? ==> r == (if v.b then "true" else "false")
    ensures v == Arr([]) ==> r == ""
    decreases v, 1
  {
    match v
    case Undefined => "undefined"
    case Null => "null"
    case Bool(b) => if b then "true" else "false"
    case Num(x) => js.stringOfNumber(x)
    case NaN => "NaN"
    case Str(s) => s
    case Arr(items) =>
      Join(seq(|items|, i requires 0 <= i < |items| => ElementText(js, items[i])), ",")
    case Obj(_) => "[object Object]"
  }

  /** How `join` writes one array element: null and undefined as "". */
  function ElementText(js: Runtime, v: Value): string
    decreases v, 2
  {
    if Nullish(v) then "" else ToStr(js, v)
  }

  /** `String` of a non-empty array is its first element's text, followed
      by a comma and the text of the rest when there is more. */
  lemma {:induction false} ArrayText(js: Runtime, items: seq<Value>)
    requires items != []
    ensures |items| == 1 ==> ToStr(js, Arr(items)) == ElementText(js, items[0])
    ensures |items| > 1 ==>
              ToStr(js, Arr(items)) == ElementText(js, items[0]) + "," + ToStr(js, Arr(items[1..]))
  {
    var parts := seq(|items|, i requires 0 <= i < |items| => ElementText(js, items[i]));
    var rest := seq(|items| - 1, i requires 0 <= i < |items| - 1 => ElementText(js, items[1..][i]));
    assert parts[1..] == rest;
  }

  /** `Number(v)`; None stands for NaN. Arrays and objects are first turned
      into their string form, as ToPrimitive does for plain data. */
  function ToNumber(js: Runtime, v: Value): (r: Option<real>)
    ensures v.Num? ==> r == Some(v.x)
    ensures v.Undefined? || v.NaN? ==> r == None
    ensures v.Null? ==> r == Some(0.0)
  {
    match v
    case Undefined => None
    case Null => Some(0.0)
    case Bool(b) => Some(if b then 1.0 else 0.0)
    case Num(x) => Some(x)
    case NaN => None
    case Str(s) => js.numberOfString(s)
    case Arr(_) => js.numberOfString(ToStr(js, v))
    case Obj(_) => js.numberOfString(ToStr(js, v))
  }

  /** The value `Number(v)` produces. */
  function NumberValue(n: Option<real>): Value {
    match n
    case Some(x) => Num(x)
    case None => NaN
  }

  /** White space and line terminators, the characters `trim` removes. */
  predicate IsJsSpace(c: char) {
    || c == '\t' || c == '\n' || c == '\U{000B}' || c == '\U{000C}' || c == '\r'
    || c == ' ' || c == '\U{00A0}' || c == '\U{1680}'
    || ('\U{2000}' <= c <= '\U{200A}')
    || c == '\U{2028}' || c == '\U{2029}' || c == '\U{202F}' || c == '\U{205F}'
    || c == '\U{3000}' || c == '\U{FEFF}'
  }

  /** The first index from `i` on that does not hold white space (`|s|`
      when there is none). */
  function SolidFrom(s: string, i: nat): (b: nat)
    requires i <= |s|
    ensures i <= b <= |s|
    ensures forall k :: i <= k < b ==> IsJsSpace(s[k])
    ensures b < |s| ==> !IsJsSpace(s[b])
    decreases |s| - i
  {
    if i < |s| && IsJsSpace(s[i]) then SolidFrom(s, i + 1) else i
  }

  /** The end of the text before index `j` once the white space right before
      `j` is dropped, never going below `i`. */
  function SolidUntil(s: string, i: nat, j: nat): (e: nat)
    requires i <= j <= |s|
    ensures i <= e <= j
    ensures forall k :: e <= k < j ==> IsJsSpace(s[k])
    ensures i < e ==> !IsJsSpace(s[e - 1])
    decreases j
  {
    if i < j && IsJsSpace(s[j - 1]) then SolidUntil(s, i, j - 1) else j
  }

  /** Only white space lies before index `i` and from index `j` on. */
  predicate Framed(s: string, i: int, j: int) {
    && 0 <= i <= j <= |s|
    && (forall k :: 0 <= k < i ==> IsJsSpace(s[k]))
    && (forall k :: j <= k < |s| ==> IsJsSpace(s[k]))
  }

  /** `s.trim()`: the piece of `s` left after removing white space at both
      ends. It is empty exactly when `s` is blank. */
  function Trim(s: string): (r: string)
    ensures exists i, j :: Framed(s, i, j) && r == s[i..j]
    ensures r != [] ==> !IsJsSpace(r[0]) && !IsJsSpace(r[|r| - 1])
    ensures r == [] <==> forall k :: 0 <= k < |s| ==> IsJsSpace(s[k])
  {
    var i := SolidFrom(s, 0);
    var j := SolidUntil(s, i, |s|);
    assert Framed(s, i, j);
    s[i..j]
  }

  /** Text that starts and ends with something other than white space is
      its own trim. */
  lemma TrimOfUnpadded(s: string)
    requires s != [] && !IsJsSpace(s[0]) && !IsJsSpace(s[|s| - 1])
    ensures Trim(s) == s
  {
    assert SolidFrom(s, 0) == 0;
    assert SolidUntil(s, 0, |s|) == |s|;
  }

  /** Trimming what is already trimmed changes nothing. */
  lemma TrimIdempotent(s: string)
    ensures Trim(Trim(s)) == Trim(s)
  {
    var t := Trim(s);
    if t != [] {
      TrimOfUnpadded(t);
    }
  }

  /** The decimal digits of `n`, as used for array-index property names. */
  function DecimalDigits(n: nat): (r: string)
    ensures r != []
    ensures forall k :: 0 <= k < |r| ==> '0' <= r[k] <= '9'
    ensures r[0] == '0' ==> n == 0 && r == "0"
  {
    var d := [(n % 10) as char + '0'];
    if n < 10 then d else DecimalDigits(n / 10) + d
  }

  /** The number a string of decimal digits denotes. */
  function DigitsValue(s: string): nat
    requires forall k :: 0 <= k < |s| ==> '0' <= s[k] <= '9'
  {
    if s == [] then 0
    else 10 * DigitsValue(s[..|s| - 1]) + (s[|s| - 1] as int - '0' as int)
  }

  /** An index name reads back as the index it was written from. */
  lemma {:induction false} DigitsRoundTrip(n: nat)
    ensures DigitsValue(DecimalDigits(n)) == n
  {
    if n >= 10 {
      DigitsRoundTrip(n / 10);
      var r := DecimalDigits(n);
      assert r[..|r| - 1] == DecimalDigits(n / 10);
    }
  }

  /** Distinct indices get distinct property names. */
  lemma DigitsInjective()
    ensures forall m: nat, n: nat :: DecimalDigits(m) == DecimalDigits(n) ==> m == n
  {
    forall m: nat, n: nat | DecimalDigits(m) == DecimalDigits(n)
      ensures m == n
    {
      DigitsRoundTrip(m);
      DigitsRoundTrip(n);
    }
  }

  /** `k` is the property name of an index below `n`. */
  predicate IndexName(k: string, n: nat) {
    && (forall c :: 0 <= c < |k| ==> '0' <= k[c] <= '9')
    && DigitsValue(k) < n
    && DecimalDigits(DigitsValue(k)) == k
  }

  /** The own properties of an array or string: index names to elements.
      Every index has its name as a key, holding its element, and no other
      key exists. */
  function Indexed(items: seq<Value>): (r: Record)
    ensures forall i :: 0 <= i < |items| ==> DecimalDigits(i) in r && r[DecimalDigits(i)] == items[i]
    ensures forall k :: k in r ==> IndexName(k, |items|)
  {
    DigitsInjective();
    var r := map i | 0 <= i < |items| :: DecimalDigits(i) := items[i];
    forall k | k in r ensures IndexName(k, |items|) {
      var i :| 0 <= i < |items| && DecimalDigits(i) == k;
      DigitsRoundTrip(i);
    }
    r
  }

  /** The properties `{...v}` copies: an object's fields, an array's or a
      string's indexed elements (one-character strings for a string), and
      nothing for any other value. */
  function SpreadOf(v: Value): (r: Record)
    ensures v.Obj? ==> r == v.fields
    ensures v.Arr? ==>
              && (forall i :: 0 <= i < |v.items| ==> DecimalDigits(i) in r && r[DecimalDigits(i)] == v.items[i])
              && (forall k :: k in r ==> IndexName(k, |v.items|))
    ensures v.Str? ==>
              && (forall i :: 0 <= i < |v.s| ==> DecimalDigits(i) in r && r[DecimalDigits(i)] == Str([v.s[i]]))
              && (forall k :: k in r ==> IndexName(k, |v.s|))
    ensures !(v.Obj? || v.Arr? || v.Str?) ==> r == map[]
  {
    match v
    case Obj(fields) => fields
    case Arr(items) => Indexed(items)
    case Str(s) => Indexed(seq(|s|, i requires 0 <= i < |s| => Str([s[i]])))
    case _ => map[]
  }
}
