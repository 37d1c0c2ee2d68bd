/** Decoded JSON values as both halves of the system see them: Python's
    truthiness (`if not data`) and JavaScript's property-key coercion
    (`output[x]`), plus the decimal rendering `String(id)` of integer ids. */
module Values {

  datatype Json =
    | Null                        // JSON null, Python None, JavaScript null/undefined
    | Bool(b: bool)
    | Num(n: int)                 // only integral numbers are modelled
    | Str(s: string)
    | Arr(elems: seq<Json>)
    | Obj(fields: map<string, Json>)

  /** Python truthiness of a decoded value: exactly None, False, 0, "", [] and
      {} are falsy. */
  predicate Truthy(v: Json)
    ensures !Truthy(v) <==> v in {Null, Bool(false), Num(0), Str(""), Arr([]), Obj(map[])}
  {
    match v
    case Null => false
    case Bool(b) => b
    case Num(n) => n != 0
    case Str(s) => s != ""
    case Arr(e) => e != []
    case Obj(f) => f != map[]
  }

  /** `dict.get(key)`: the field's value, or None when the key is absent; a
      missing key and an explicit null cannot be told apart. */
  function Get(fields: map<string, Json>, key: string): (v: Json)
    ensures v == Null <==> key !in fields || fields[key] == Null
    ensures v != Null ==> key in fields && fields[key] == v
  {
    if key in fields then fields[key] else Null
  }

  function DigitChar(d: nat): (c: char)
    requires d < 10
    ensures '0' <= c <= '9'
  {
    (48 + d) as char
  }

  /** Decimal digits of a natural number, most significant first, no leading zero. */
  function Digits(n: nat): (s: string)
    ensures |s| >= 1
    ensures (n < 10) == (|s| == 1)
    ensures forall i :: 0 <= i < |s| ==> '0' <= s[i] <= '9'
  {
    if n < 10 then [DigitChar(n)] else Digits(n / 10) + [DigitChar(n % 10)]
  }

  /** JavaScript `String(n)` for an integral number. */
  function Decimal(n: int): (s: string)
    ensures |s| >= 1 && (s[0] == '-' || '0' <= s[0] <= '9')
    ensures s[0] == '-' <==> n < 0
  {
    if n < 0 then "-" + Digits(-n) else Digits(n)
  }

  lemma {:induction false} DigitsInjective(a: nat, b: nat)
    requires Digits(a) == Digits(b)
    ensures a == b
  {
    var s := Digits(a);
    if a < 10 {
      assert DigitChar(a) == s[0] == DigitChar(b);
      assert (DigitChar(a) as int) == 48 + a;
    } else {
      assert s[..|s| - 1] == Digits(a / 10) == Digits(b / 10);
      assert DigitChar(a % 10) == s[|s| - 1] == DigitChar(b % 10);
      assert (DigitChar(a % 10) as int) == 48 + a % 10;
      DigitsInjective(a / 10, b / 10);
    }
  }

  /** Distinct node ids give distinct output keys. */
  lemma DecimalInjective(a: int, b: int)
    requires Decimal(a) == Decimal(b)
    ensures a == b
  {
    if a < 0 && b < 0 {
      assert Decimal(a)[1..] == Digits(-a);
      assert Decimal(b)[1..] == Digits(-b);
      DigitsInjective(-a, -b);
    } else if a >= 0 && b >= 0 {
      DigitsInjective(a, b);
    }
  }

  /** Names every plain JavaScript object inherits from `Object.prototype`:
      `obj[k]` is truthy for these even when `obj` has no own key `k`. */
  const ObjectPrototypeKeys: set<string> := {
    "constructor", "hasOwnProperty", "isPrototypeOf", "propertyIsEnumerable",
    "toLocaleString", "toString", "valueOf", "__proto__",
    "__defineGetter__", "__defineSetter__", "__lookupGetter__", "__lookupSetter__"
  }

  /** The string JavaScript uses as property key when a value indexes an object. */
  function PropertyKey(v: Json): (k: string)
    ensures v.Str? ==> k == v.s
    ensures v.Num? ==> k == Decimal(v.n)
    ensures v.Arr? && |v.elems| == 1 ==> k == if v.elems[0].Null? then "" else PropertyKey(v.elems[0])
    ensures v == Arr([]) ==> k == ""
    decreases v, 1
  {
    match v
    case Null => "null"
    case Bool(b) => if b then "true" else "false"
    case Num(n) => Decimal(n)
    case Str(s) => s
    case Arr(_) => Joined(v, 0)
    case Obj(_) => "[object Object]"
  }

  /** `Array.prototype.join(",")` from index `i` on; null elements give "". */
  function Joined(v: Json, i: nat): (r: string)
    requires v.Arr? && i <= |v.elems|
    ensures i == |v.elems| ==> r == ""
    ensures 0 < i < |v.elems| ==> |r| > 0 && r[0] == ','
    decreases v, 0, |v.elems| - i
  {
    if i == |v.elems| then ""
    else
      (if i > 0 then "," else "")
      + (if v.elems[i].Null? then "" else PropertyKey(v.elems[i]))
      + Joined(v, i + 1)
  }

  /** A decimal id can never name an inherited member: every such name starts
      with a letter or an underscore. */
  lemma DecimalNotInherited(n: int)
    ensures Decimal(n) !in ObjectPrototypeKeys
  {
  }
}
