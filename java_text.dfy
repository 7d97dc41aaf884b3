/** The pieces of java.lang the core leans on, stated over Dafny's unbounded
    integers and `seq<char>` strings: the 32-bit `int` range,
    `String.startsWith`, `String.isBlank`, `String.trim`, ASCII
    `equalsIgnoreCase`, `Integer.toString` and `Integer.parseInt`. */
module JavaText {
  import opened Wrappers

  const INT_MIN: int := -0x8000_0000
  const INT_MAX: int := 0x7fff_ffff

  predicate IsInt32(n: int) { INT_MIN <= n <= INT_MAX }

  /** Java's `int` arithmetic: the mathematical value reduced into the
      32-bit two's-complement range. */
  function Wrap32(n: int): (r: int)
    ensures IsInt32(r)
    ensures (r - n) % 0x1_0000_0000 == 0
    ensures IsInt32(n) ==> r == n
  {
    (n - INT_MIN) % 0x1_0000_0000 + INT_MIN
  }

  /** An octet; Java's `byte[]` contents read as unsigned values. */
  type byte = b: int | 0 <= b < 256

  predicate StartsWith<T(==)>(s: seq<T>, prefix: seq<T>) {
    |prefix| <= |s| && s[..|prefix|] == prefix
  }

  /** `Character.isWhitespace` for a UTF-16 code unit: the ASCII controls
      TAB..CR and FS..US, and the Unicode space, line and paragraph
      separators other than the three non-breaking spaces. */
  predicate IsWhitespace(c: char) {
    var u := c as int;
    (0x09 <= u <= 0x0D) || (0x1C <= u <= 0x20) || u == 0x1680
    || (0x2000 <= u <= 0x2006) || (0x2008 <= u <= 0x200A)
    || u == 0x2028 || u == 0x2029 || u == 0x205F || u == 0x3000
  }

  /** `String.isBlank`: empty or whitespace only. */
  predicate IsBlank(s: string) {
    forall i :: 0 <= i < |s| ==> IsWhitespace(s[i])
  }

  /** `String.trim` drops every leading and trailing code unit `<= ' '`. */
  predicate IsTrimmable(c: char) { c as int <= 0x20 }

  function DropLeading(s: string): (r: string)
    ensures |r| <= |s| && r == s[|s| - |r|..]
    ensures |r| > 0 ==> !IsTrimmable(r[0])
    ensures forall i :: 0 <= i < |s| - |r| ==> IsTrimmable(s[i])
  {
    if |s| > 0 && IsTrimmable(s[0]) then DropLeading(s[1..]) else s
  }

  function DropTrailing(s: string): (r: string)
    ensures |r| <= |s| && r == s[..|r|]
    ensures |r| > 0 ==> !IsTrimmable(r[|r| - 1])
    ensures forall i :: |r| <= i < |s| ==> IsTrimmable(s[i])
  {
    if |s| > 0 && IsTrimmable(s[|s| - 1]) then DropTrailing(s[..|s| - 1]) else s
  }

  /** `String.trim`: the longest infix that neither starts nor ends with a
      code unit `<= ' '`, obtained by removing only such code units. */
  function Trim(s: string): (r: string)
  {
    DropTrailing(DropLeading(s))
  }

  /** `trim` removes only code units `<= ' '`, and only at the two ends:
      the result is the infix `s[i..j]`. */
  lemma TrimIsInfix(s: string) returns (i: nat, j: nat)
    ensures i <= j <= |s| && Trim(s) == s[i..j]
    ensures forall k :: 0 <= k < i ==> IsTrimmable(s[k])
    ensures forall k :: j <= k < |s| ==> IsTrimmable(s[k])
    ensures i < j ==> !IsTrimmable(s[i]) && !IsTrimmable(s[j - 1])
  {
    var d := DropLeading(s);
    i := |s| - |d|;
    j := i + |DropTrailing(d)|;
    assert d == s[i..];
  }

  /** ASCII upper-casing; every other character is left alone. */
  function ToUpperAscii(c: char): char {
    if 'a' <= c <= 'z' then (c as int - 32) as char else c
  }

  /** `String.equalsIgnoreCase`, with case folding limited to ASCII. */
  predicate EqualsIgnoreCase(a: string, b: string) {
    |a| == |b| && forall i :: 0 <= i < |a| ==> ToUpperAscii(a[i]) == ToUpperAscii(b[i])
  }

  const ZERO_BYTE: byte := 48
  const PLUS_BYTE: byte := 43
  const MINUS_BYTE: byte := 45

  predicate IsDigitByte(b: byte) { 48 <= b <= 57 }

  predicate AllDigits(s: seq<byte>) {
    forall i :: 0 <= i < |s| ==> IsDigitByte(s[i])
  }

  /** `Integer.toString(n)` for a non-negative `n`, as its ASCII (and so
      UTF-8) bytes: no sign and no leading zero. */
  function DecimalBytes(n: nat): (r: seq<byte>)
    ensures |r| > 0 && AllDigits(r)
    ensures |r| > 1 ==> r[0] != ZERO_BYTE
  {
    if n < 10 then [ZERO_BYTE + n] else DecimalBytes(n / 10) + [ZERO_BYTE + n % 10]
  }

  /** The value of a string of decimal digits, most significant first. */
  function DigitsValue(s: seq<byte>): nat
    requires AllDigits(s)
  {
    if |s| == 0 then 0 else DigitsValue(s[..|s| - 1]) * 10 + (s[|s| - 1] - ZERO_BYTE)
  }

  /** `Integer.parseInt(s)`: an optional sign then at least one digit,
      and a value inside the `int` range; anything else throws
      `NumberFormatException`, modelled as `None`. */
  function ParseInt(s: seq<byte>): (r: Option<int>)
    ensures r.Some? ==> IsInt32(r.value)
  {
    if |s| == 0 then None
    else if s[0] == MINUS_BYTE || s[0] == PLUS_BYTE then
      if |s| == 1 || !AllDigits(s[1..]) then None
      else
        var v: int := if s[0] == MINUS_BYTE then -(DigitsValue(s[1..]) as int) else DigitsValue(s[1..]);
        if IsInt32(v) then Some(v) else None
    else if AllDigits(s) && DigitsValue(s) <= INT_MAX then Some(DigitsValue(s))
    else None
  }

  lemma {:induction false} DigitsValueOfDecimal(n: nat)
    ensures DigitsValue(DecimalBytes(n)) == n
  {
    var r := DecimalBytes(n);
    if n >= 10 {
      DigitsValueOfDecimal(n / 10);
      assert r[..|r| - 1] == DecimalBytes(n / 10);
    }
  }

  /** `Integer.parseInt(Integer.toString(n)) == n` on the non-negative ints. */
  lemma ParseIntOfDecimal(n: nat)
    requires n <= INT_MAX
    ensures ParseInt(DecimalBytes(n)) == Some(n)
  {
    DigitsValueOfDecimal(n);
  }
}
