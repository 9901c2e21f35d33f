/** JavaScript values as the engine handles them: the JSON stored in rule,
    effect and event columns, plus `undefined`. Numbers are integers. The
    functions below give the JavaScript operators the engine applies to them. */
module Json {
  import opened EngineTypes

  datatype Value =
    | Undefined
    | Null
    | Bool(b: bool)
    | Num(n: int)
    | Str(s: string)
    | Arr(items: seq<Value>)
    | Obj(fields: map<string, Value>)

  /** `!!v`: undefined, null, false, 0 and "" are falsy, everything else truthy. */
  predicate Truthy(v: Value) {
    match v
    case Undefined => false
    case Null => false
    case Bool(b) => b
    case Num(n) => n != 0
    case Str(s) => s != ""
    case Arr(_) => true
    case Obj(_) => true
  }

  predicate IsPrimitive(v: Value) {
    !v.Arr? && !v.Obj?
  }

  /** `a === b`. Primitives compare by value, arrays and objects by
      reference. The values compared by the engine never share a reference
      (condition literals and context values are built separately), so a
      compound operand is never strictly equal to anything. */
  predicate StrictEquals(a: Value, b: Value) {
    match (a, b)
    case (Undefined, Undefined) => true
    case (Null, Null) => true
    case (Bool(x), Bool(y)) => x == y
    case (Num(x), Num(y)) => x == y
    case (Str(x), Str(y)) => x == y
    case _ => false
  }

  lemma StrictEqualsIsPrimitiveEquality(a: Value, b: Value)
    ensures StrictEquals(a, b) <==> IsPrimitive(a) && a == b
  {
  }

  /** `items.includes(v)` (SameValueZero, which is `===` when there is no NaN). */
  predicate Includes(items: seq<Value>, v: Value) {
    exists i | 0 <= i < |items| :: StrictEquals(items[i], v)
  }

  predicate IsDigit(c: char) {
    '0' <= c <= '9'
  }

  predicate AllDigits(s: string) {
    forall i | 0 <= i < |s| :: IsDigit(s[i])
  }

  /** The decimal value of a digit string. */
  function DigitsValue(s: string): nat
    requires AllDigits(s)
  {
    if s == [] then 0
    else DigitsValue(s[..|s| - 1]) * 10 + (s[|s| - 1] as int - '0' as int)
  }

  /** The decimal rendering of a natural number (no leading zero). */
  function Decimal(n: nat): (s: string)
    ensures |s| >= 1 && AllDigits(s)
  {
    if n < 10 then [('0' as int + n) as char]
    else Decimal(n / 10) + [('0' as int + n % 10) as char]
  }

  /** A property name that denotes an array index: digits without a leading zero. */
  predicate CanonicalIndex(key: string) {
    |key| >= 1 && AllDigits(key) && (key == "0" || key[0] != '0')
  }

  lemma {:induction false} DecimalRoundTrip(n: nat)
    ensures DigitsValue(Decimal(n)) == n
    ensures CanonicalIndex(Decimal(n))
  {
    if n >= 10 {
      DecimalRoundTrip(n / 10);
      var s := Decimal(n);
      assert s[..|s| - 1] == Decimal(n / 10);
    }
  }

  /** JavaScript's WhiteSpace and LineTerminator code points, which
      `Number()` strips from both ends of a string. */
  predicate IsJsSpace(c: char) {
    var k := c as int;
    k == 9 || k == 10 || k == 11 || k == 12 || k == 13 || k == 32 || k == 0xA0 || k == 0x1680
    || (0x2000 <= k <= 0x200A) || k == 0x2028 || k == 0x2029 || k == 0x202F || k == 0x205F
    || k == 0x3000 || k == 0xFEFF
  }

  /** The string without its leading white space: a suffix that is empty or
      starts with a non-space. */
  function TrimStart(s: string): (r: string)
    ensures |r| <= |s| && r == s[|s| - |r|..]
    ensures r == [] || !IsJsSpace(r[0])
    decreases |s|
  {
    if s != [] && IsJsSpace(s[0]) then TrimStart(s[1..]) else s
  }

  /** The string without its trailing white space: a prefix that is empty or
      ends with a non-space. */
  function TrimEnd(s: string): (r: string)
    ensures |r| <= |s| && r == s[..|r|]
    ensures r == [] || !IsJsSpace(r[|r| - 1])
    decreases |s|
  {
    if s != [] && IsJsSpace(s[|s| - 1]) then TrimEnd(s[..|s| - 1]) else s
  }

  function Trim(s: string): string {
    TrimEnd(TrimStart(s))
  }

  /** The value of a digit in bases up to 16 (either letter case); 16 for
      any other character. */
  function DigitOf(c: char): nat {
    if '0' <= c <= '9' then c as int - '0' as int
    else if 'a' <= c <= 'f' then c as int - 'a' as int + 10
    else if 'A' <= c <= 'F' then c as int - 'A' as int + 10
    else 16
  }

  predicate AllRadixDigits(s: string, base: nat) {
    forall i | 0 <= i < |s| :: DigitOf(s[i]) < base
  }

  /** The value of a digit string in the given base. */
  function RadixValue(s: string, base: nat): nat
    requires AllRadixDigits(s, base)
  {
    if s == [] then 0
    else RadixValue(s[..|s| - 1], base) * base + DigitOf(s[|s| - 1])
  }

  /** The base a `0x`, `0o` or `0b` prefix letter announces; 0 for any other. */
  function PrefixBase(c: char): nat {
    if c == 'x' || c == 'X' then 16
    else if c == 'o' || c == 'O' then 8
    else if c == 'b' || c == 'B' then 2
    else 0
  }

  /** `Number(s)` for a string: white space is trimmed from both ends
      first. */
  function StringToNumber(s: string): Option<int> {
    TrimmedToNumber(Trim(s))
  }

  /** `Number()` of a trimmed string: the empty string is 0, an optionally
      signed decimal digit string is its value, an unsigned `0x`/`0o`/`0b`
      literal is its value in that base, and anything else is NaN (`None`). */
  function TrimmedToNumber(u: string): Option<int> {
    if u == [] then Some(0)
    else if AllDigits(u) then Some(DigitsValue(u))
    else if u[0] == '-' && |u| > 1 && AllDigits(u[1..]) then Some(0 - DigitsValue(u[1..]) as int)
    else if u[0] == '+' && |u| > 1 && AllDigits(u[1..]) then Some(DigitsValue(u[1..]))
    else if |u| > 2 && u[0] == '0' && PrefixBase(u[1]) > 0 && AllRadixDigits(u[2..], PrefixBase(u[1]))
    then Some(RadixValue(u[2..], PrefixBase(u[1])))
    else None
  }

  /** A string that neither starts nor ends with white space is its own trim. */
  lemma TrimUnpadded(s: string)
    requires s == [] || (!IsJsSpace(s[0]) && !IsJsSpace(s[|s| - 1]))
    ensures Trim(s) == s
  {
  }

  /** Leading white space does not change the number a string converts to. */
  lemma LeadingSpaceIgnored(c: char, s: string)
    requires IsJsSpace(c)
    ensures StringToNumber([c] + s) == StringToNumber(s)
  {
    assert ([c] + s)[1..] == s;
    assert TrimStart([c] + s) == TrimStart(s);
  }

  /** Trailing white space does not change the number a string converts to. */
  lemma TrailingSpaceIgnored(s: string, c: char)
    requires IsJsSpace(c)
    ensures StringToNumber(s + [c]) == StringToNumber(s)
  {
    TrimStartAppend(s, c);
    var t := TrimStart(s);
    if t != [] {
      assert (t + [c])[..|t + [c]| - 1] == t;
    }
    assert Trim(s + [c]) == Trim(s);
  }

  lemma {:induction false} TrimStartAppend(s: string, c: char)
    requires IsJsSpace(c)
    ensures TrimStart(s + [c]) == if TrimStart(s) == [] then [] else TrimStart(s) + [c]
    decreases |s|
  {
    if s == [] {
      assert TrimStart([c]) == TrimStart([c][1..]);
    } else {
      assert (s + [c])[0] == s[0];
      if IsJsSpace(s[0]) {
        assert (s + [c])[1..] == s[1..] + [c];
        TrimStartAppend(s[1..], c);
      }
    }
  }

  /** A digit string converts to its decimal value. */
  lemma DigitsToNumber(s: string)
    requires s != [] && AllDigits(s)
    ensures StringToNumber(s) == Some(DigitsValue(s))
  {
    assert !IsJsSpace(s[0]) && !IsJsSpace(s[|s| - 1]);
    TrimUnpadded(s);
    assert Trim(s) == s;
    assert TrimmedToNumber(s) == Some(DigitsValue(s));
  }

  /** `Number(" 2")` is 2: a padded digit string. */
  lemma PaddedDigits(s: string)
    requires s == " 2"
    ensures StringToNumber(s) == Some(2)
  {
    var d := s[1..];
    assert s == [s[0]] + d;
    LeadingSpaceIgnored(s[0], d);
    DigitTwo(d);
  }

  lemma DigitTwo(d: string)
    requires d == "2"
    ensures StringToNumber(d) == Some(2)
  {
    assert d[..0] == [] && IsDigit(d[0]);
    DigitsToNumber(d);
  }

  /** An unsigned `0x`, `0o` or `0b` literal converts to its value in that
      base. */
  lemma PrefixedToNumber(u: string)
    requires |u| > 2 && u[0] == '0' && PrefixBase(u[1]) > 0
    requires AllRadixDigits(u[2..], PrefixBase(u[1]))
    ensures StringToNumber(u) == Some(RadixValue(u[2..], PrefixBase(u[1])))
  {
    assert u[|u| - 1] == u[2..][|u| - 3];
    assert !IsJsSpace(u[0]) && !IsJsSpace(u[|u| - 1]);
    TrimUnpadded(u);
    assert Trim(u) == u;
    assert !IsDigit(u[1]);
    assert TrimmedToNumber(u) == Some(RadixValue(u[2..], PrefixBase(u[1])));
  }

  /** A sign before a `0x`, `0o` or `0b` literal makes it NaN. */
  lemma SignedPrefixIsNaN(u: string)
    requires |u| > 3 && (u[0] == '-' || u[0] == '+') && u[1] == '0' && PrefixBase(u[2]) > 0
    requires AllRadixDigits(u[3..], PrefixBase(u[2]))
    ensures StringToNumber(u) == None
  {
    assert u[|u| - 1] == u[3..][|u| - 4];
    assert !IsJsSpace(u[0]) && !IsJsSpace(u[|u| - 1]);
    TrimUnpadded(u);
    assert Trim(u) == u;
    assert !IsDigit(u[0]) && u[1..][1] == u[2] && !IsDigit(u[2]);
    assert TrimmedToNumber(u) == None;
  }

  lemma HexTen(d: string)
    requires d == "10"
    ensures AllRadixDigits(d, 16) && RadixValue(d, 16) == 16
  {
    assert d[..1] == "1" && d[..0] == [];
    assert DigitOf(d[0]) == 1 && DigitOf(d[1]) == 0;
    assert RadixValue(d[..1], 16) == 1;
  }

  lemma BinaryFive(d: string)
    requires d == "101"
    ensures AllRadixDigits(d, 2) && RadixValue(d, 2) == 5
  {
    assert d[..2] == "10" && d[..2][..1] == "1" && d[..1] == "1";
    assert RadixValue(d[..1], 2) == 1;
    assert RadixValue(d[..2], 2) == 2;
  }

  /** `Number("0x10")` is 16. */
  lemma HexLiteral(h: string)
    requires h == "0x10"
    ensures StringToNumber(h) == Some(16)
  {
    HexTen(h[2..]);
    PrefixedToNumber(h);
  }

  /** `Number("0b101")` is 5. */
  lemma BinaryLiteral(b: string)
    requires b == "0b101"
    ensures StringToNumber(b) == Some(5)
  {
    BinaryFive(b[2..]);
    PrefixedToNumber(b);
  }

  /** `Number("-0x10")` is NaN. */
  lemma SignedHexIsNaN(m: string)
    requires m == "-0x10"
    ensures StringToNumber(m) == None
  {
    HexTen(m[3..]);
    SignedPrefixIsNaN(m);
  }

  /** `Number(v)`: `None` stands for NaN. An array converts through its
      string form, so [] is 0, a one-element array converts as its element
      and a longer one (its string has a comma) is NaN. */
  function ToNumber(v: Value): Option<int> {
    match v
    case Undefined => None
    case Null => Some(0)
    case Bool(b) => Some(if b then 1 else 0)
    case Num(n) => Some(n)
    case Str(s) => StringToNumber(s)
    case Obj(_) => None
    case Arr(items) =>
      if |items| == 0 then Some(0)
      else if |items| > 1 then None
      else match items[0]
        case Undefined => Some(0)
        case Null => Some(0)
        case Bool(_) => None
        case Num(n) => Some(n)
        case Str(s) => StringToNumber(s)
        case Obj(_) => None
        case Arr(inner) => ToNumber(Arr(inner))
  }

  lemma ToNumberOfDecimal(n: nat)
    ensures ToNumber(Str(Decimal(n))) == Some(n)
    ensures ToNumber(Arr([Num(n)])) == Some(n)
  {
    DecimalRoundTrip(n);
    DigitsToNumber(Decimal(n));
  }

  /** `s.length`: the number of UTF-16 code units of the string. */
  function Utf16Units(s: string): (n: nat)
    ensures n >= |s|
  {
    if s == [] then 0 else Utf16Length(s[0]) + Utf16Units(s[1..])
  }

  /** The character that covers UTF-16 unit `k` of the string. */
  function CharAtUnit(s: string, k: nat): (c: char)
    requires k < Utf16Units(s)
    ensures c in s
  {
    if k < Utf16Length(s[0]) then s[0]
    else
      var c := CharAtUnit(s[1..], k - Utf16Length(s[0]));
      assert c in s[1..];
      c
  }

  /** In a string of basic-plane characters, units are characters. */
  lemma {:induction false} BasicPlaneUnits(s: string)
    requires forall i | 0 <= i < |s| :: s[i] as int < 0x1_0000
    ensures Utf16Units(s) == |s|
    ensures forall k | 0 <= k < |s| :: CharAtUnit(s, k) == s[k]
  {
    if s != [] {
      BasicPlaneUnits(s[1..]);
    }
  }

  /** A character above the basic plane counts twice: both of its units
      are covered by it, and the units after it shift by two. */
  lemma AstralUnits(c: char, s: string)
    requires c as int >= 0x1_0000
    ensures Utf16Units([c] + s) == Utf16Units(s) + 2
    ensures CharAtUnit([c] + s, 0) == c && CharAtUnit([c] + s, 1) == c
    ensures forall k | 0 <= k < Utf16Units(s) :: CharAtUnit([c] + s, k + 2) == CharAtUnit(s, k)
  {
    assert ([c] + s)[1..] == s;
  }

  /** `o[key]` for an own property: object fields, array indices, string
      indices and `length` in UTF-16 units. Anything else reads as
      undefined. */
  function Get(o: Value, key: string): Value {
    match o
    case Obj(m) => if key in m then m[key] else Undefined
    case Arr(a) =>
      if key == "length" then Num(|a|)
      else if CanonicalIndex(key) && DigitsValue(key) < |a| then a[DigitsValue(key)]
      else Undefined
    case Str(s) =>
      if key == "length" then Num(Utf16Units(s))
      else if CanonicalIndex(key) && DigitsValue(key) < Utf16Units(s) then Str([CharAtUnit(s, DigitsValue(key))])
      else Undefined
    case _ => Undefined
  }

  lemma GetIndex(a: seq<Value>, i: nat)
    requires i < |a|
    ensures Get(Arr(a), Decimal(i)) == a[i]
  {
    DecimalRoundTrip(i);
    assert Decimal(i) != "length" by { assert IsDigit(Decimal(i)[0]); }
  }
}
