/**
 * The few pieces of JavaScript semantics the modelled code leans on:
 * values and their truthiness (for `||` defaults and `if (x)` guards),
 * `String.prototype.trim`, the UTF-16 `length` of a string, the first-letter upper-casing of a field name,
 * and `parseInt` without a radix.
 */
module Js {
  import opened Wrappers

  /** A JavaScript value, as far as the modelled code inspects one. */
  datatype Val =
    | Undefined
    | Null
    | Bool(b: bool)
    | Num(n: int)
    | Str(s: string)
    | Arr(items: seq<Val>)
    | Obj(fields: map<string, Val>)

  /** Document ids, user ids and socket ids, compared only by equality; "" is a missing id. */
  type Id = string

  /** JavaScript truthiness (NaN and -0 are not modelled: numbers are integers). */
  predicate Truthy(v: Val) {
    match v
    case Undefined => false
    case Null => false
    case Bool(b) => b
    case Num(n) => n != 0
    case Str(s) => s != ""
    case Arr(_) => true
    case Obj(_) => true
  }

  /** `a || b` */
  function Or(a: Val, b: Val): Val {
    if Truthy(a) then a else b
  }

  /** An optional string field that is truthy: present and not empty. */
  predicate Present(o: Option<string>) {
    o.Some? && o.value != ""
  }

  /** Reading a property that may be missing: `obj.key`. */
  function Get(fields: map<string, Val>, key: string): Val {
    if key in fields then fields[key] else Undefined
  }

  // ----- String.prototype.trim -----

  /**
   * The white-space and line-terminator characters `trim` removes: tab, the
   * vertical tab, form feed, the byte-order mark, the space separators of
   * Unicode (category Zs) and the four line terminators.
   */
  predicate IsSpace(c: char) {
    c == '\t' || c == '\U{000B}' || c == '\U{000C}' || c == '\U{FEFF}'
    || c == ' ' || c == '\U{00A0}' || c == '\U{1680}' || ('\U{2000}' <= c <= '\U{200A}')
    || c == '\U{202F}' || c == '\U{205F}' || c == '\U{3000}'
    || c == '\n' || c == '\r' || c == '\U{2028}' || c == '\U{2029}'
  }

  predicate AllSpace(s: string) {
    forall i :: 0 <= i < |s| ==> IsSpace(s[i])
  }

  /** Neither end of `s` is a white-space character. */
  predicate Unpadded(s: string) {
    s == "" || (!IsSpace(s[0]) && !IsSpace(s[|s| - 1]))
  }

  /** Number of white-space characters at the start of `s`. */
  function LeadingSpaces(s: string): (k: nat)
    ensures k <= |s|
    ensures forall i :: 0 <= i < k ==> IsSpace(s[i])
    ensures k < |s| ==> !IsSpace(s[k])
  {
    if s == [] || !IsSpace(s[0]) then 0 else 1 + LeadingSpaces(s[1..])
  }

  /** Number of white-space characters at the end of `s`. */
  function TrailingSpaces(s: string): (k: nat)
    ensures k <= |s|
    ensures forall i :: |s| - k <= i < |s| ==> IsSpace(s[i])
    ensures k < |s| ==> !IsSpace(s[|s| - 1 - k])
  {
    if s == [] || !IsSpace(s[|s| - 1]) then 0 else 1 + TrailingSpaces(s[..|s| - 1])
  }

  /**
   * `s.trim()`: the result is empty exactly when `s` is all white space,
   * it has no white space at either end, it is never longer than `s`,
   * and a string without padding is its own trim.
   */
  function Trim(s: string): (r: string)
    ensures r == "" <==> AllSpace(s)
    ensures Unpadded(r)
    ensures |r| <= |s|
    ensures Unpadded(s) ==> r == s
  {
    var a := LeadingSpaces(s);
    var t := s[a..];
    var b := TrailingSpaces(t);
    assert AllSpace(s) ==> a == |s|;
    assert !AllSpace(s) ==> a < |s| && b < |t|;
    t[..|t| - b]
  }

  // ----- String.prototype.length -----

  /**
   * The UTF-16 code units a character takes: two (a surrogate pair) outside
   * the Basic Multilingual Plane, one inside it.
   */
  function Units(c: char): (n: nat)
    ensures n == 1 || n == 2
    ensures n == 2 <==> c as int >= 0x1_0000
  {
    if c as int >= 0x1_0000 then 2 else 1
  }

  /**
   * `s.length`: the number of UTF-16 code units, which is what the schema's
   * `minlength` and every `.length` comparison in the client measure. It is
   * at least the number of characters and at most twice that.
   */
  function Length(s: string): (n: nat)
    ensures |s| <= n <= 2 * |s|
    ensures n == 0 <==> s == ""
  {
    if s == [] then 0 else Units(s[0]) + Length(s[1..])
  }

  /** Inside the Basic Multilingual Plane, the length is the number of characters. */
  lemma {:induction false} LengthBmp(s: string)
    requires forall i :: 0 <= i < |s| ==> s[i] as int < 0x1_0000
    ensures Length(s) == |s|
  {
    if s != [] {
      assert forall i :: 0 <= i < |s[1..]| ==> s[1..][i] == s[i + 1];
      LengthBmp(s[1..]);
    }
  }

  /** Length adds up over concatenation. */
  lemma {:induction false} LengthConcat(a: string, b: string)
    ensures Length(a + b) == Length(a) + Length(b)
  {
    if a == [] {
      assert a + b == b;
    } else {
      assert (a + b)[0] == a[0] && (a + b)[1..] == a[1..] + b;
      LengthConcat(a[1..], b);
    }
  }

  /** Dropping characters from the front never makes a string longer. */
  lemma {:induction false} LengthSuffix(s: string, i: nat)
    requires i <= |s|
    ensures Length(s[i..]) <= Length(s)
  {
    if i > 0 {
      assert s[1..][i - 1..] == s[i..];
      LengthSuffix(s[1..], i - 1);
    }
  }

  /** Dropping characters from the end never makes a string longer. */
  lemma {:induction false} LengthPrefix(s: string, j: nat)
    requires j <= |s|
    ensures Length(s[..j]) <= Length(s)
  {
    if j > 0 {
      assert s[..j][0] == s[0] && s[..j][1..] == s[1..][..j - 1];
      LengthPrefix(s[1..], j - 1);
    }
  }

  /** Trimming never makes a string longer, in code units as in characters. */
  lemma TrimLength(s: string)
    ensures Length(Trim(s)) <= Length(s)
  {
    var a := LeadingSpaces(s);
    var t := s[a..];
    var b := TrailingSpaces(t);
    assert Trim(s) == t[..|t| - b];
    LengthPrefix(t, |t| - b);
    LengthSuffix(s, a);
  }

  /** Three emoji: three characters, six code units. */
  lemma EmojiCountTwice()
    ensures |"\U{1F600}\U{1F600}\U{1F600}"| == 3
    ensures Length("\U{1F600}\U{1F600}\U{1F600}") == 6
  {
    var e := "\U{1F600}\U{1F600}\U{1F600}";
    assert e[1..][1..][1..] == "";
    assert Length(e[1..][1..]) == 2;
  }

  // ----- `name[0].toUpperCase() + name.slice(1)` -----

  /** `toUpperCase` on one character (ASCII letters only). */
  function UpperChar(c: char): char {
    if 'a' <= c <= 'z' then (c as int - 'a' as int + 'A' as int) as char else c
  }

  function Capitalize(name: string): (r: string)
    requires name != ""
    ensures |r| == |name| && r[1..] == name[1..]
    ensures 'a' <= name[0] <= 'z' ==> 'A' <= r[0] <= 'Z' && r[0] as int == name[0] as int - 32
    ensures !('a' <= name[0] <= 'z') ==> r == name
  {
    [UpperChar(name[0])] + name[1..]
  }

  // ----- parseInt(x) with no radix argument -----

  /** The value of a digit in bases up to 36, or -1 for a non-digit. */
  function DigitValue(c: char): int {
    if '0' <= c <= '9' then c as int - '0' as int
    else if 'a' <= c <= 'z' then c as int - 'a' as int + 10
    else if 'A' <= c <= 'Z' then c as int - 'A' as int + 10
    else -1
  }

  predicate IsDigitIn(c: char, radix: nat) {
    0 <= DigitValue(c) < radix
  }

  /** Length of the longest prefix of `s` made of digits of `radix`. */
  function DigitRun(s: string, radix: nat): (k: nat)
    ensures k <= |s|
    ensures forall i :: 0 <= i < k ==> IsDigitIn(s[i], radix)
    ensures k < |s| ==> !IsDigitIn(s[k], radix)
  {
    if s == [] || !IsDigitIn(s[0], radix) then 0 else 1 + DigitRun(s[1..], radix)
  }

  /** A digit's value in `radix`; callers only pass digits, anything else would count 0. */
  function DigitOf(c: char, radix: nat): nat {
    if IsDigitIn(c, radix) then DigitValue(c) else 0
  }

  /** The number written by `digits` in base `radix`, most significant digit first. */
  function ValueOf(digits: string, radix: nat): nat {
    if digits == [] then 0
    else ValueOf(digits[..|digits| - 1], radix) * radix + DigitOf(digits[|digits| - 1], radix)
  }

  /**
   * `parseInt(q)`: None stands for NaN. A missing value is NaN; otherwise leading
   * white space is skipped, one sign is read, a `0x`/`0X` prefix selects base 16,
   * and the longest run of digits is read; no digit at all is NaN.
   */
  function ParseInt(q: Option<string>): (r: Option<int>)
    ensures q.None? ==> r.None?
    ensures q.Some? && AllSpace(q.value) ==> r.None?
  {
    match q
    case None => None
    case Some(s) =>
      var t := s[LeadingSpaces(s)..];
      if |t| > 0 && (t[0] == '-' || t[0] == '+') then
        match ParseUnsigned(t[1..])
        case None => None
        case Some(v) => Some(if t[0] == '-' then -(v as int) else v as int)
      else
        match ParseUnsigned(t)
        case None => None
        case Some(v) => Some(v)
  }

  /** The digits after the sign: a `0x`/`0X` prefix selects base 16, otherwise base 10. */
  function ParseUnsigned(u: string): Option<nat> {
    if |u| >= 2 && u[0] == '0' && (u[1] == 'x' || u[1] == 'X') then ParseDigits(u[2..], 16)
    else ParseDigits(u, 10)
  }

  /** The longest run of digits at the start of `body`; no digit at all is NaN. */
  function ParseDigits(body: string, radix: nat): Option<nat> {
    var n := DigitRun(body, radix);
    if n == 0 then None else Some(ValueOf(body[..n], radix))
  }

  predicate IsDecimal(s: string) {
    s != "" && forall i :: 0 <= i < |s| ==> '0' <= s[i] <= '9'
  }

  /** A string of decimal digits parses to the number it writes. */
  lemma ParseIntDecimal(s: string)
    requires IsDecimal(s)
    ensures forall i :: 0 <= i < |s| ==> IsDigitIn(s[i], 10)
    ensures ParseInt(Some(s)) == Some(ValueOf(s, 10))
  {
    DecimalUnsigned(s);
    assert !IsSpace(s[0]);
    assert LeadingSpaces(s) == 0;
    assert s[0..] == s;
    assert s[0] != '-' && s[0] != '+';
  }

  /** The digits after the sign, when all of them are decimal, are read in base 10 to the end. */
  lemma DecimalUnsigned(s: string)
    requires IsDecimal(s)
    ensures forall i :: 0 <= i < |s| ==> IsDigitIn(s[i], 10)
    ensures ParseUnsigned(s) == Some(ValueOf(s, 10))
  {
    forall i | 0 <= i < |s| ensures IsDigitIn(s[i], 10) {
      assert '0' <= s[i] <= '9';
    }
    assert |s| >= 2 ==> s[1] != 'x' && s[1] != 'X';
    DigitRunAll(s, 10);
    assert s[..|s|] == s;
  }

  lemma {:induction false} DigitRunAll(s: string, radix: nat)
    requires forall i :: 0 <= i < |s| ==> IsDigitIn(s[i], radix)
    ensures DigitRun(s, radix) == |s|
  {
    if s != [] {
      DigitRunAll(s[1..], radix);
    }
  }

  /** A value whose first non-blank character is neither a sign nor a digit is NaN. */
  lemma ParseIntNonNumeric(s: string)
    requires LeadingSpaces(s) < |s|
    requires var c := s[LeadingSpaces(s)]; c != '-' && c != '+' && !('0' <= c <= '9')
    ensures ParseInt(Some(s)) == None
  {
  }
}
