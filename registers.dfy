/**
 * Register bytes and the big-endian integer the driver assembles from them
 * (`_get_data` in sunrise/__init__.py).
 */
module Registers {

  /** One register as returned by the bus: an unsigned 8-bit value. */
  type Byte = b: int | 0 <= b < 256

  function Pow256(n: nat): (p: nat)
    ensures p >= 1
  {
    if n == 0 then 1 else 256 * Pow256(n - 1)
  }

  /**
   * The value of `s` read most significant byte first:
   * the sum of s[i] * 256^(|s| - 1 - i) over every index i.
   */
  function BigEndian(s: seq<Byte>): (v: nat)
  {
    if s == [] then 0 else s[0] * Pow256(|s| - 1) + BigEndian(s[1..])
  }

  /** Appending a byte shifts the value left by eight bits and adds the byte. */
  lemma {:induction false} BigEndianAppend(s: seq<Byte>, b: Byte)
    ensures BigEndian(s + [b]) == 256 * BigEndian(s) + b
  {
    if s == [] {
      assert [] + [b] == [b];
    } else {
      assert (s + [b])[1..] == s[1..] + [b];
      BigEndianAppend(s[1..], b);
      calc {
        BigEndian(s + [b]);
        s[0] * Pow256(|s|) + BigEndian(s[1..] + [b]);
        s[0] * (256 * Pow256(|s| - 1)) + 256 * BigEndian(s[1..]) + b;
        { assert s[0] * (256 * Pow256(|s| - 1)) == 256 * (s[0] * Pow256(|s| - 1)); }
        256 * (s[0] * Pow256(|s| - 1) + BigEndian(s[1..])) + b;
      }
    }
  }

  /**
   * The accumulator loop of `_get_data`: starting from 0, each register is
   * added after shifting the accumulator left by eight bits
   * (`data << 8` is `data * 256` on Python's non-negative integers).
   */
  method AssembleData(regs: seq<Byte>) returns (data: nat)
    ensures data == BigEndian(regs)
    ensures data < Pow256(|regs|)
  {
    data := 0;
    for i := 0 to |regs|
      invariant data == BigEndian(regs[..i])
    {
      assert regs[..i + 1] == regs[..i] + [regs[i]];
      BigEndianAppend(regs[..i], regs[i]);
      data := data * 256 + regs[i];
    }
    assert regs[..|regs|] == regs;
    BigEndianBound(regs);
  }

  /** No input of n bytes decodes to 256^n or more; in particular zero bytes decode to 0. */
  lemma {:induction false} BigEndianBound(s: seq<Byte>)
    ensures BigEndian(s) < Pow256(|s|)
    ensures s == [] ==> BigEndian(s) == 0
  {
    if s != [] {
      BigEndianBound(s[1..]);
      var p := Pow256(|s| - 1);
      assert BigEndian(s) == s[0] * p + BigEndian(s[1..]);
      MulMonotone(s[0], 255, p);
      assert Pow256(|s|) == 255 * p + p;
    }
  }

  lemma MulMonotone(a: nat, b: nat, p: nat)
    requires a <= b
    ensures a * p <= b * p
  {
  }

  /** A single register decodes to itself. */
  lemma BigEndianSingle(b: Byte)
    ensures BigEndian([b]) == b
  {
  }

  /** Two reads of the same length decode to the same value only when they hold the same bytes. */
  lemma {:induction false} BigEndianInjective(s: seq<Byte>, t: seq<Byte>)
    requires |s| == |t|
    requires BigEndian(s) == BigEndian(t)
    ensures s == t
  {
    if s != [] {
      var n := |s| - 1;
      assert s == s[..n] + [s[n]];
      assert t == t[..n] + [t[n]];
      BigEndianAppend(s[..n], s[n]);
      BigEndianAppend(t[..n], t[n]);
      assert s[n] == t[n] && BigEndian(s[..n]) == BigEndian(t[..n]);
      BigEndianInjective(s[..n], t[..n]);
    }
  }
}
