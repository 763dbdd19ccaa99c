/** The JavaScript values a handler sees after `express.json()` has parsed the
    request body, and the few JavaScript operators the handlers apply to them. */
module JsValues {

  datatype Option<+T> = None | Some(value: T)

  /** A value read from a parsed JSON body or from a database row. JSON has no
      `undefined`; it is what reading an absent property gives. Numbers are
      reals: JSON cannot carry NaN, `-0` equals `0`, and a literal too large
      for a double (which JavaScript reads as Infinity) has no value here. */
  datatype JsValue =
    | Undefined
    | Null
    | Bool(b: bool)
    | Num(n: real)
    | Str(s: string)
    | Arr(elems: seq<JsValue>)
    | Obj(props: map<string, JsValue>)

  /** A parsed JSON object body, as `const { a, b } = req.body` destructures it. */
  type Payload = map<string, JsValue>

  /** Reading property `key` of a body or a row: absent properties are undefined. */
  function Get(p: map<string, JsValue>, key: string): (v: JsValue)
    ensures key !in p ==> v == Undefined
    ensures key in p ==> v == p[key]
  {
    if key in p then p[key] else Undefined
  }

  /** JavaScript's ToBoolean, the test behind `if (!x)`: the falsy values are
      exactly undefined, null, false, zero and the empty string. */
  predicate Truthy(v: JsValue)
    ensures Truthy(v) <==> !(v == Undefined || v == Null || v == Bool(false) || v == Num(0.0) || v == Str(""))
  {
    match v
    case Undefined => false
    case Null => false
    case Bool(b) => b
    case Num(n) => n != 0.0
    case Str(s) => |s| > 0
    case Arr(_) => true
    case Obj(_) => true
  }

  /** `a || b`: the first operand when it is truthy, otherwise the second. */
  function Or(a: JsValue, b: JsValue): (r: JsValue)
    ensures Truthy(a) ==> r == a
    ensures !Truthy(a) ==> r == b
  {
    if Truthy(a) then a else b
  }

  /** `!vs[0] || !vs[1] || ...`, evaluated left to right as the handlers'
      presence checks are: true exactly when some listed value is falsy. */
  predicate AnyFalsy(vs: seq<JsValue>)
    ensures AnyFalsy(vs) <==> exists i :: 0 <= i < |vs| && !Truthy(vs[i])
  {
    if |vs| == 0 then false
    else if !Truthy(vs[0]) then true
    else
      var rest := AnyFalsy(vs[1..]);
      assert rest <==> exists i :: 1 <= i < |vs| && !Truthy(vs[i]) by {
        if rest {
          var j :| 0 <= j < |vs[1..]| && !Truthy(vs[1..][j]);
          assert !Truthy(vs[j + 1]);
        }
        if exists i :: 1 <= i < |vs| && !Truthy(vs[i]) {
          var j :| 1 <= j < |vs| && !Truthy(vs[j]);
          assert vs[1..][j - 1] == vs[j];
        }
      }
      rest
  }

  predicate IsPrimitive(v: JsValue) {
    !v.Arr? && !v.Obj?
  }

  /** `a === b` where `a` comes from the request body and `b` from elsewhere
      (a literal or a database row): primitives compare by type and value;
      arrays and objects compare by identity, and an object parsed from the
      body is never the same object as any other. */
  predicate StrictEquals(a: JsValue, b: JsValue)
    ensures StrictEquals(a, b) <==> IsPrimitive(a) && a == b
  {
    match (a, b)
    case (Undefined, Undefined) => true
    case (Null, Null) => true
    case (Bool(x), Bool(y)) => x == y
    case (Num(x), Num(y)) => x == y
    case (Str(x), Str(y)) => x == y
    case _ => false
  }

  /** Whether converting `v` to a primitive throws a TypeError. Template
      literals (`${v}`) and `new Date(v)` both convert their argument. An
      object parsed from JSON inherits Object.prototype's `toString` unless the
      JSON gave it an own `toString` property. Such a property is never a
      function, and `valueOf` yields no primitive either (an own one is no
      function, the inherited one returns the object), so the conversion
      throws exactly then. An array converts by joining its elements, so it
      throws exactly when some element's conversion throws. Primitives never
      throw. */
  predicate ConversionThrows(v: JsValue)
    ensures ConversionThrows(v) ==> !IsPrimitive(v)
    ensures v.Obj? ==> (ConversionThrows(v) <==> "toString" in v.props)
    ensures v.Arr? ==> (ConversionThrows(v) <==> exists i :: 0 <= i < |v.elems| && ConversionThrows(v.elems[i]))
  {
    match v
    case Obj(props) => "toString" in props
    case Arr(elems) => exists i :: 0 <= i < |elems| && ConversionThrows(elems[i])
    case _ => false
  }

  /** Own `toString` properties are what make a conversion throw, however deep
      in an array they sit; an object without one converts to text. */
  lemma {:induction false} ConversionExamples()
    ensures ConversionThrows(Obj(map["toString" := Num(1.0)]))
    ensures !ConversionThrows(Obj(map["valueOf" := Num(1.0)]))
    ensures ConversionThrows(Arr([Str("a"), Arr([Obj(map["toString" := Null])])]))
    ensures !ConversionThrows(Arr([Null, Obj(map[]), Arr([])]))
  {
    var inner := Arr([Obj(map["toString" := Null])]);
    assert inner.elems[0] == Obj(map["toString" := Null]);
    assert ConversionThrows(inner);
    var deep := Arr([Str("a"), inner]);
    assert deep.elems[1] == inner;
    var harmless := Arr([Null, Obj(map[]), Arr([])]);
    forall i | 0 <= i < |harmless.elems| ensures !ConversionThrows(harmless.elems[i]) {
      assert harmless.elems[i] == Null || harmless.elems[i] == Obj(map[]) || harmless.elems[i] == Arr([]);
    }
  }

  /** Number of UTF-16 code units of one character: two for a character
      outside the Basic Multilingual Plane, which JavaScript stores as a
      surrogate pair. */
  function CodeUnits(c: char): nat {
    if c as int < 0x1_0000 then 1 else 2
  }

  /** `s.length` in JavaScript, which counts UTF-16 code units rather than
      characters: it lies between the number of characters and twice that,
      and equals the number of characters exactly when every character is in
      the Basic Multilingual Plane. */
  function Utf16Length(s: string): (n: nat)
    ensures |s| <= n <= 2 * |s|
    ensures n == |s| <==> forall i :: 0 <= i < |s| ==> s[i] as int < 0x1_0000
  {
    if s == [] then 0
    else
      var rest := Utf16Length(s[1..]);
      assert (forall i :: 1 <= i < |s| ==> s[i] as int < 0x1_0000) <==>
             (forall i :: 0 <= i < |s[1..]| ==> s[1..][i] as int < 0x1_0000) by {
        forall i | 1 <= i < |s| ensures s[1..][i - 1] == s[i] { }
      }
      CodeUnits(s[0]) + rest
  }
}
