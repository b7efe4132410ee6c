/** Python's `str.strip`, decimal rendering and string order. */
module Text {

  /** The characters that `str.strip` removes. */
  predicate IsSpace(c: char) {
    var n := c as int;
    || 9 <= n <= 13 || 28 <= n <= 32 || n == 0x85 || n == 0xA0 || n == 0x1680
    || 0x2000 <= n <= 0x200A || n == 0x2028 || n == 0x2029 || n == 0x202F || n == 0x205F || n == 0x3000
  }

  function StripLeft(s: string): string {
    if s != "" && IsSpace(s[0]) then StripLeft(s[1..]) else s
  }

  function StripRight(s: string): string {
    if s != "" && IsSpace(s[|s| - 1]) then StripRight(s[..|s| - 1]) else s
  }

  function Strip(s: string): string {
    StripRight(StripLeft(s))
  }

  lemma {:induction false} StripLeftShape(s: string)
    ensures |StripLeft(s)| <= |s|
    ensures StripLeft(s) == "" || !IsSpace(StripLeft(s)[0])
    ensures StripLeft(s) != "" ==> StripLeft(s)[|StripLeft(s)| - 1] == s[|s| - 1]
  {
    if s != "" && IsSpace(s[0]) {
      StripLeftShape(s[1..]);
    }
  }

  lemma {:induction false} StripLeftKeepsInk(s: string)
    requires s != "" && !IsSpace(s[|s| - 1])
    ensures StripLeft(s) != ""
  {
    if IsSpace(s[0]) {
      StripLeftKeepsInk(s[1..]);
    }
  }

  lemma {:induction false} StripRightShape(s: string)
    ensures StripRight(s) == "" || !IsSpace(StripRight(s)[|StripRight(s)| - 1])
    ensures StripRight(s) <= s
  {
    if s != "" && IsSpace(s[|s| - 1]) {
      StripRightShape(s[..|s| - 1]);
    }
  }

  lemma StripIdempotent(s: string)
    ensures Strip(Strip(s)) == Strip(s)
  {
    StripLeftShape(s);
    StripRightShape(StripLeft(s));
  }

  /** A string that does not end in a space only loses leading spaces. */
  lemma StripOfInkEnd(s: string)
    requires s != "" && !IsSpace(s[|s| - 1])
    ensures Strip(s) != "" && |Strip(s)| <= |s|
    ensures Strip(s) == s <==> !IsSpace(s[0])
    ensures Strip(s) != s ==> |Strip(s)| < |s|
  {
    StripLeftKeepsInk(s);
    StripLeftShape(s);
    if IsSpace(s[0]) {
      StripLeftShape(s[1..]);
    }
  }

  lemma Associate<T>(a: seq<T>, b: seq<T>, c: seq<T>)
    ensures a + (b + c) == (a + b) + c
  {
  }

  // ---------------------------------------------------------------- decimals

  function Digit(d: nat): char
    requires d < 10
  {
    ('0' as int + d) as char
  }

  function Decimal(n: nat): string {
    if n < 10 then [Digit(n)] else Decimal(n / 10) + [Digit(n % 10)]
  }

  function Value(s: string): int {
    if s == "" then 0 else 10 * Value(s[..|s| - 1]) + (s[|s| - 1] as int - '0' as int)
  }

  lemma {:induction false} ValueOfDecimal(n: nat)
    ensures Value(Decimal(n)) == n
    ensures Decimal(n) != "" && '0' <= Decimal(n)[|Decimal(n)| - 1] <= '9'
  {
    if n < 10 {
      assert Value(Decimal(n)[..0]) == 0;
    } else {
      ValueOfDecimal(n / 10);
      var s := Decimal(n);
      assert s[..|s| - 1] == Decimal(n / 10);
    }
  }

  // ---------------------------------------------------------------- JSON escapes

  function HexDigit(d: nat): char
    requires d < 16
  {
    if d < 10 then Digit(d) else ('a' as int + d - 10) as char
  }

  function Hex(n: nat): string
    requires n < 0x10000
  {
    ['\\', 'u', HexDigit(n / 0x1000), HexDigit(n / 0x100 % 16), HexDigit(n / 16 % 16), HexDigit(n % 16)]
  }

  /** A character beyond ASCII as JSON escapes it: one UTF-16 unit, or two. */
  function Escape(c: char): string {
    var n := c as int;
    if n < 0x80 then [c]
    else if n < 0x10000 then Hex(n)
    else Hex(0xD800 + (n - 0x10000) / 0x400 % 0x400) + Hex(0xDC00 + (n - 0x10000) % 0x400)
  }

  function Escaped(s: string): (r: string)
    ensures s != "" ==> r != ""
  {
    if s == "" then "" else Escape(s[0]) + Escaped(s[1..])
  }

  // ---------------------------------------------------------------- order

  /** Code-point order, as Python compares strings. */
  predicate Before(a: string, b: string) {
    b != "" && (a == "" || a[0] < b[0] || (a[0] == b[0] && Before(a[1..], b[1..])))
  }

  lemma {:induction false} BeforeTotal(a: string, b: string)
    ensures a == b || Before(a, b) || Before(b, a)
  {
    if a != "" && b != "" && a[0] == b[0] {
      BeforeTotal(a[1..], b[1..]);
      if a[1..] == b[1..] {
        assert a == [a[0]] + a[1..] && b == [b[0]] + b[1..];
      }
    }
  }

  lemma {:induction false} BeforeAsymmetric(a: string, b: string)
    requires Before(a, b)
    ensures !Before(b, a) && a != b
  {
    if a != "" && a[0] == b[0] {
      BeforeAsymmetric(a[1..], b[1..]);
    }
  }

  lemma {:induction false} BeforeTransitive(a: string, b: string, c: string)
    requires Before(a, b) && Before(b, c)
    ensures Before(a, c)
  {
    if a != "" && a[0] == b[0] && b[0] == c[0] {
      BeforeTransitive(a[1..], b[1..], c[1..]);
    }
  }
}
