/**
 * The error-status word (registers 0x00-0x01) and the flag names that
 * `get_error_status` reports for it.
 */
module ErrorStatus {

  /** The bit table of `get_error_status`: the name of bit k is FlagNames[k]. */
  const FlagNames: seq<string> := [
    "low_voltage",               // bit 0
    "measurement_timeout",       // bit 1
    "abnormal_signal_level",     // bit 2
    "unknown",                   // bit 3
    "unknown",                   // bit 4
    "unknown",                   // bit 5
    "unknown",                   // bit 6
    "scale_factor_error",        // bit 7
    "fatal_error",               // bit 8
    "i2c_error",                 // bit 9
    "algorithm_error",           // bit 10
    "calibration_error",         // bit 11
    "self_diag_error",           // bit 12
    "out_of_range",              // bit 13
    "memory_error",              // bit 14
    "no_measurements_completed"  // bit 15
  ]

  /** The bits of the table that are reserved and reported as "unknown". */
  predicate Reserved(k: nat)
  {
    3 <= k <= 6
  }

  /** `x >> k` on a non-negative integer. */
  function Shr(x: nat, k: nat): (y: nat)
  {
    if k == 0 then x else Shr(x / 2, k - 1)
  }

  /** `x & (1 << k) != 0` on a non-negative integer. */
  predicate BitSet(x: nat, k: nat)
  {
    Shr(x, k) % 2 == 1
  }

  /** The positions below n whose bit is set in x, in ascending order. */
  function SetBits(x: nat, n: nat): (ks: seq<nat>)
    ensures forall i :: 0 <= i < |ks| ==> ks[i] < n && BitSet(x, ks[i])
    ensures forall i, j :: 0 <= i < j < |ks| ==> ks[i] < ks[j]
    ensures forall k :: 0 <= k < n && BitSet(x, k) ==> k in ks
  {
    if n == 0 then [] else SetBits(x, n - 1) + (if BitSet(x, n - 1) then [n - 1] else [])
  }

  /** The table names of a list of bit positions, in the same order. */
  function NamesOf(ks: seq<nat>): (names: seq<string>)
    requires forall i :: 0 <= i < |ks| ==> ks[i] < |FlagNames|
    ensures |names| == |ks|
  {
    if ks == [] then [] else NamesOf(ks[..|ks| - 1]) + [FlagNames[ks[|ks| - 1]]]
  }

  /** The i-th name is the table name of the i-th position. */
  lemma {:induction false} NamesOfAt(ks: seq<nat>, i: nat)
    requires forall j :: 0 <= j < |ks| ==> ks[j] < |FlagNames|
    requires i < |ks|
    ensures NamesOf(ks)[i] == FlagNames[ks[i]]
  {
    if i < |ks| - 1 {
      NamesOfAt(ks[..|ks| - 1], i);
    }
  }

  /** What `get_error_status` reports for the word x: the names of its set bits, lowest bit first. */
  function ErrorFlags(x: nat): (flags: seq<string>)
  {
    NamesOf(SetBits(x, 16))
  }

  /**
   * The loop of `get_error_status`: walks the bit table in order and appends
   * the name of every bit that is set in `data`.
   */
  method DecodeErrorFlags(data: nat) returns (errors: seq<string>)
    ensures errors == ErrorFlags(data)
  {
    errors := [];
    for k := 0 to 16
      invariant errors == NamesOf(SetBits(data, k))
    {
      SetBitsStep(data, k);
      if BitSet(data, k) {
        errors := errors + [FlagNames[k]];
      }
    }
  }

  /** One more position adds its name when its bit is set, and nothing otherwise. */
  lemma SetBitsStep(x: nat, k: nat)
    requires k < 16
    ensures NamesOf(SetBits(x, k + 1))
      == NamesOf(SetBits(x, k)) + (if BitSet(x, k) then [FlagNames[k]] else [])
  {
    var ks := SetBits(x, k);
    if BitSet(x, k) {
      assert SetBits(x, k + 1) == ks + [k];
      assert (ks + [k])[..|ks|] == ks;
    } else {
      assert SetBits(x, k + 1) == ks;
    }
  }

  /** The number of set bits among positions lo .. hi - 1 of x. */
  function CountBits(x: nat, lo: nat, hi: nat): (count: nat)
  {
    if hi <= lo then 0 else CountBits(x, lo, hi - 1) + (if BitSet(x, hi - 1) then 1 else 0)
  }

  /** Population count of a non-negative integer, by repeated halving. */
  function Popcount(x: nat): (count: nat)
  {
    if x == 0 then 0 else x % 2 + Popcount(x / 2)
  }

  function Pow2(n: nat): (p: nat)
    ensures p >= 1
  {
    if n == 0 then 1 else 2 * Pow2(n - 1)
  }

  lemma {:induction false} ShrZero(k: nat)
    ensures Shr(0, k) == 0
  {
    if k > 0 {
      ShrZero(k - 1);
    }
  }

  /** The word 0 reports no flag. */
  lemma ErrorFlagsZero()
    ensures ErrorFlags(0) == []
  {
    var ks := SetBits(0, 16);
    if ks != [] {
      ShrZero(ks[0]);
      assert false;
    }
  }

  lemma {:induction false} SetBitsLength(x: nat, n: nat)
    ensures |SetBits(x, n)| == CountBits(x, 0, n)
  {
    if n > 0 {
      SetBitsLength(x, n - 1);
    }
  }

  /** Counting the bits of x from position 0 is counting x's lowest bit and then the bits of x / 2. */
  lemma {:induction false} CountBitsShift(x: nat, n: nat)
    ensures CountBits(x, 0, n + 1) == x % 2 + CountBits(x / 2, 0, n)
  {
    if n > 0 {
      CountBitsShift(x, n - 1);
      assert BitSet(x, n) == BitSet(x / 2, n - 1);
    }
  }

  lemma {:induction false} PopcountCountBits(x: nat, n: nat)
    requires x < Pow2(n)
    ensures Popcount(x) == CountBits(x, 0, n)
  {
    if n == 0 {
      assert x == 0;
    } else if x == 0 {
      assert CountBits(0, 0, n) == 0 by {
        SetBitsLength(0, n);
        var ks := SetBits(0, n);
        if ks != [] {
          ShrZero(ks[0]);
          assert false;
        }
      }
    } else {
      PopcountCountBits(x / 2, n - 1);
      CountBitsShift(x, n - 1);
    }
  }

  /** One flag per set bit: the list is as long as the 16-bit word's population count. */
  lemma ErrorFlagsLength(x: nat)
    requires x < 0x1_0000
    ensures |ErrorFlags(x)| == Popcount(x)
  {
    SetBitsLength(x, 16);
    assert Pow2(4) == 16;
    assert Pow2(8) == 256;
    assert Pow2(12) == 4096;
    assert Pow2(16) == 0x1_0000;
    PopcountCountBits(x, 16);
  }

  /** The i-th flag reported is the table name of the i-th set bit, counting from bit 0. */
  lemma ErrorFlagsAt(x: nat, i: nat)
    requires i < |ErrorFlags(x)|
    ensures i < |SetBits(x, 16)| && ErrorFlags(x)[i] == FlagNames[SetBits(x, 16)[i]]
  {
    NamesOfAt(SetBits(x, 16), i);
  }

  /** The names of the table differ except at the reserved bits. */
  lemma FlagNamesDistinct(j: nat, k: nat)
    requires j < 16 && k < 16
    ensures FlagNames[j] == "unknown" <==> Reserved(j)
    ensures FlagNames[j] == FlagNames[k] && !Reserved(k) ==> j == k
  {
  }

  function Clamp(n: nat, lo: nat, hi: nat): (m: nat)
  {
    if n < lo then lo else if n > hi then hi else n
  }

  lemma ReservedCountStep(x: nat, k: nat)
    ensures CountBits(x, 3, Clamp(k + 1, 3, 7))
      == CountBits(x, 3, Clamp(k, 3, 7)) + (if Reserved(k) && BitSet(x, k) then 1 else 0)
  {
  }

  lemma UnknownAddedStep(x: nat, k: nat)
    requires k < 16
    ensures multiset(NamesOf(SetBits(x, k + 1)))["unknown"]
      == multiset(NamesOf(SetBits(x, k)))["unknown"] + (if Reserved(k) && BitSet(x, k) then 1 else 0)
  {
    FlagNamesDistinct(k, k);
    SetBitsStep(x, k);
    var names := NamesOf(SetBits(x, k));
    if BitSet(x, k) {
      assert multiset(names + [FlagNames[k]]) == multiset(names) + multiset{FlagNames[k]};
    } else {
      assert names + [] == names;
    }
  }

  lemma {:induction false} UnknownCountUpTo(x: nat, n: nat)
    requires n <= 16
    ensures multiset(NamesOf(SetBits(x, n)))["unknown"] == CountBits(x, 3, Clamp(n, 3, 7))
  {
    if n > 0 {
      UnknownCountUpTo(x, n - 1);
      UnknownAddedStep(x, n - 1);
      ReservedCountStep(x, n - 1);
    }
  }

  /** "unknown" is reported once for every set bit among the reserved bits 3 to 6. */
  lemma ErrorFlagsUnknown(x: nat)
    ensures multiset(ErrorFlags(x))["unknown"] == CountBits(x, 3, 7)
  {
    UnknownCountUpTo(x, 16);
  }

  lemma {:induction false} NamedCountUpTo(x: nat, k: nat, n: nat)
    requires n <= 16 && k < 16 && !Reserved(k)
    ensures multiset(NamesOf(SetBits(x, n)))[FlagNames[k]] == if k < n && BitSet(x, k) then 1 else 0
  {
    if n > 0 {
      NamedCountUpTo(x, k, n - 1);
      FlagNamesDistinct(n - 1, k);
      SetBitsStep(x, n - 1);
      var names := NamesOf(SetBits(x, n - 1));
      if BitSet(x, n - 1) {
        assert multiset(names + [FlagNames[n - 1]]) == multiset(names) + multiset{FlagNames[n - 1]};
      } else {
        assert names + [] == names;
      }
    }
  }

  /** Every named (non-reserved) flag is reported exactly once when its bit is set, and never otherwise. */
  lemma ErrorFlagsNamed(x: nat, k: nat)
    requires k < 16 && !Reserved(k)
    ensures multiset(ErrorFlags(x))[FlagNames[k]] == if BitSet(x, k) then 1 else 0
    ensures FlagNames[k] in ErrorFlags(x) <==> BitSet(x, k)
  {
    NamedCountUpTo(x, k, 16);
  }

  lemma {:induction false} ShrBelow(x: nat, k: nat)
    requires x < Pow2(k)
    ensures Shr(x, k) == 0
  {
    if k > 0 {
      ShrBelow(x / 2, k - 1);
    }
  }

  lemma {:induction false} Pow2Monotone(m: nat, n: nat)
    requires m <= n
    ensures Pow2(m) <= Pow2(n)
  {
    if m < n {
      Pow2Monotone(m, n - 1);
    }
  }

  /** A word below 2^m has no set bit at position m or above. */
  lemma {:induction false} SetBitsAbove(x: nat, m: nat, n: nat)
    requires m <= n && x < Pow2(m)
    ensures SetBits(x, n) == SetBits(x, m)
  {
    if m < n {
      SetBitsAbove(x, m, n - 1);
      Pow2Monotone(m, n - 1);
      ShrBelow(x, n - 1);
      assert SetBits(x, n) == SetBits(x, n - 1) + [];
    }
  }

  lemma SetBitsFive()
    ensures SetBits(5, 16) == [0, 2]
  {
    SetBitsFiveLow();
    SetBitsAbove(5, 3, 16);
  }

  lemma SetBitsFiveLow()
    ensures SetBits(5, 3) == [0, 2]
  {
    assert Shr(5, 1) == 2 && Shr(5, 2) == 1;
    assert BitSet(5, 0) && !BitSet(5, 1) && BitSet(5, 2);
    assert SetBits(5, 0) == [];
    assert SetBits(5, 1) == [] + [0];
    assert SetBits(5, 2) == [0] + [];
    assert SetBits(5, 3) == [0] + [2];
  }

  lemma SetBitsEight()
    ensures SetBits(8, 16) == [3]
  {
    assert Shr(8, 1) == 4 && Shr(8, 2) == 2 && Shr(8, 3) == 1;
    assert !BitSet(8, 0) && !BitSet(8, 1) && !BitSet(8, 2) && BitSet(8, 3);
    assert SetBits(8, 0) == [];
    assert SetBits(8, 1) == [] + [];
    assert SetBits(8, 2) == [] + [];
    assert SetBits(8, 3) == [] + [];
    assert SetBits(8, 4) == [] + [3];
    SetBitsAbove(8, 4, 16);
  }

  /** Bits 0 and 2: low voltage and abnormal signal level. */
  lemma ErrorFlagsLowVoltageAbnormalSignal()
    ensures ErrorFlags(5) == ["low_voltage", "abnormal_signal_level"]
  {
    SetBitsFive();
    NamesOfAt([0, 2], 0);
    NamesOfAt([0, 2], 1);
  }

  /** Bit 3 alone is a reserved bit. */
  lemma ErrorFlagsReservedBit()
    ensures ErrorFlags(8) == ["unknown"]
  {
    SetBitsEight();
    NamesOfAt([3], 0);
  }
}
