/**
 * The Python string built-ins the decoder relies on: `chr` of a register,
 * `str.strip()` with no argument, and `str()` of a non-negative integer.
 */
module Text {
  import opened Registers

  /**
   * Python's `str.isspace()` on one character: the ASCII controls TAB to CR,
   * the separators 0x1C to 0x1F, SPACE, NEL, NO-BREAK SPACE and the other
   * Unicode space separators.
   */
  predicate IsSpace(c: char)
  {
    var k := c as int;
    || (0x09 <= k <= 0x0D)
    || (0x1C <= k <= 0x20)
    || k == 0x85 || k == 0xA0 || k == 0x1680
    || (0x2000 <= k <= 0x200A)
    || k == 0x2028 || k == 0x2029 || k == 0x202F || k == 0x205F || k == 0x3000
  }

  /** On a register value, `str.isspace()` holds exactly for TAB to CR, 0x1C to SPACE, NEL and NO-BREAK SPACE. */
  lemma IsSpaceByte(b: Byte)
    ensures IsSpace(b as char) <==> (9 <= b <= 13 || 28 <= b <= 32 || b == 0x85 || b == 0xA0)
  {
  }

  /** `chr(r)` for each register, in order. */
  function Chars(regs: seq<Byte>): (s: string)
    ensures |s| == |regs|
    ensures forall i :: 0 <= i < |regs| ==> s[i] as int == regs[i]
  {
    seq(|regs|, i requires 0 <= i < |regs| => regs[i] as char)
  }

  /** How many whitespace characters open `s`. */
  function LeadingSpaces(s: string): (n: nat)
    ensures n <= |s|
    ensures forall k :: 0 <= k < n ==> IsSpace(s[k])
    ensures n < |s| ==> !IsSpace(s[n])
  {
    if s == [] || !IsSpace(s[0]) then 0 else 1 + LeadingSpaces(s[1..])
  }

  /** How many whitespace characters close `s`. */
  function TrailingSpaces(s: string): (n: nat)
    ensures n <= |s|
    ensures forall k :: |s| - n <= k < |s| ==> IsSpace(s[k])
    ensures n < |s| ==> !IsSpace(s[|s| - 1 - n])
  {
    if s == [] || !IsSpace(s[|s| - 1]) then 0 else 1 + TrailingSpaces(s[..|s| - 1])
  }

  /**
   * `s.strip()`: drops the leading whitespace, then the trailing whitespace of
   * what is left. The result is the slice of `s` that starts at its first
   * non-whitespace character and ends at its last one.
   */
  function Strip(s: string): (r: string)
    ensures |r| <= |s|
    ensures r == [] || (!IsSpace(r[0]) && !IsSpace(r[|r| - 1]))
    ensures LeadingSpaces(s) + |r| <= |s|
    ensures r == s[LeadingSpaces(s)..LeadingSpaces(s) + |r|]
    ensures forall k :: LeadingSpaces(s) + |r| <= k < |s| ==> IsSpace(s[k])
  {
    var t := s[LeadingSpaces(s)..];
    t[..|t| - TrailingSpaces(t)]
  }

  /** Stripping a string that has no outer whitespace leaves it unchanged. */
  lemma StripUnchanged(s: string)
    requires s == [] || (!IsSpace(s[0]) && !IsSpace(s[|s| - 1]))
    ensures Strip(s) == s
  {
    assert LeadingSpaces(s) == 0;
    assert TrailingSpaces(s) == 0;
  }

  /** Stripping twice is stripping once. */
  lemma StripIdempotent(s: string)
    ensures Strip(Strip(s)) == Strip(s)
  {
    StripUnchanged(Strip(s));
  }

  /** `"".join([chr(r) for r in regs]).strip()` (line 15 of sunrise/__init__.py). */
  function AsciiText(regs: seq<Byte>): (text: string)
    ensures |text| <= |regs|
    ensures text == [] || (!IsSpace(text[0]) && !IsSpace(text[|text| - 1]))
    ensures var lo := LeadingSpaces(Chars(regs));
      && lo + |text| <= |regs|
      && (forall i :: 0 <= i < |text| ==> text[i] as int == regs[lo + i])
      && (forall i :: 0 <= i < lo ==> IsSpace(regs[i] as char))
      && (forall i :: lo + |text| <= i < |regs| ==> IsSpace(regs[i] as char))
  {
    Strip(Chars(regs))
  }

  lemma AsciiTextHello()
    ensures AsciiText([72, 101, 108, 108, 111]) == "Hello"
  {
    var s := Chars([72, 101, 108, 108, 111]);
    assert s == "Hello";
    assert LeadingSpaces(s) == 0;
    assert TrailingSpaces(s) == 0;
  }

  /** Outer spaces go, the character between them stays. */
  lemma AsciiTextPadded()
    ensures AsciiText([32, 65, 32, 32]) == "A"
  {
    var s := Chars([32, 65, 32, 32]);
    assert s == " A  ";
    assert LeadingSpaces(s[1..]) == 0;
    assert LeadingSpaces(s) == 1;
    var t := s[1..];
    assert t == "A  ";
    assert TrailingSpaces(t[..1]) == 0;
    assert TrailingSpaces(t[..2]) == 1;
    assert TrailingSpaces(t) == 2;
  }

  /** The decimal digit character for `d`. */
  function DigitChar(d: nat): (c: char)
    requires d < 10
    ensures '0' <= c <= '9'
    ensures c as int - '0' as int == d
  {
    ('0' as int + d) as char
  }

  predicate IsDigits(s: string)
  {
    forall i :: 0 <= i < |s| ==> '0' <= s[i] <= '9'
  }

  /** `str(n)` for a non-negative integer: its decimal digits, without leading zeros. */
  function DecimalString(n: nat): (s: string)
    ensures |s| >= 1 && IsDigits(s)
    ensures s[0] == '0' <==> n == 0
    ensures n == 0 ==> s == "0"
  {
    if n < 10 then [DigitChar(n)] else DecimalString(n / 10) + [DigitChar(n % 10)]
  }

  /** Reads a string of decimal digits back as the number it denotes. */
  function ParseDecimal(s: string): (n: nat)
    requires IsDigits(s)
  {
    if s == [] then 0 else 10 * ParseDecimal(s[..|s| - 1]) + (s[|s| - 1] as int - '0' as int)
  }

  /** `str()` loses nothing: its digits read back as the original number. */
  lemma {:induction false} DecimalRoundTrip(n: nat)
    ensures ParseDecimal(DecimalString(n)) == n
  {
    var s := DecimalString(n);
    if n >= 10 {
      assert s[..|s| - 1] == DecimalString(n / 10);
      DecimalRoundTrip(n / 10);
    }
  }
}
