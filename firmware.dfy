/** The firmware revision string `"<major>.<minor>"` of `get_firmware_revision`. */
module Firmware {
  import opened Wrappers
  import opened Text

  /** `".".join([str(major), str(minor)])`. */
  function FirmwareRevision(major: nat, minor: nat): (rev: string)
    ensures |rev| >= 3
    ensures forall k :: 0 <= k < |rev| ==> (rev[k] == '.' <==> k == |DecimalString(major)|)
    ensures forall k :: 0 <= k < |rev| && k != |DecimalString(major)| ==> '0' <= rev[k] <= '9'
  {
    DecimalString(major) + "." + DecimalString(minor)
  }

  /** The position of the first '.' in s, or |s| when there is none. */
  function IndexOfDot(s: string): (i: nat)
    ensures i <= |s|
    ensures forall k :: 0 <= k < i ==> s[k] != '.'
    ensures i < |s| ==> s[i] == '.'
  {
    if s == [] || s[0] == '.' then 0 else 1 + IndexOfDot(s[1..])
  }

  /** Splits a revision string at its first '.' and reads both halves as decimal numbers. */
  function ParseRevision(s: string): (parsed: Option<(nat, nat)>)
  {
    var i := IndexOfDot(s);
    if i < |s| && IsDigits(s[..i]) && IsDigits(s[i + 1..]) then
      Some((ParseDecimal(s[..i]), ParseDecimal(s[i + 1..])))
    else
      None
  }

  /** The revision string determines both bytes it was made from. */
  lemma RevisionRoundTrip(major: nat, minor: nat)
    ensures ParseRevision(FirmwareRevision(major, minor)) == Some((major, minor))
  {
    var a, b := DecimalString(major), DecimalString(minor);
    var s := FirmwareRevision(major, minor);
    assert s[|a|] == '.';
    assert forall k :: 0 <= k < |a| ==> s[k] == a[k] && s[k] != '.';
    assert IndexOfDot(s) == |a| by {
      IndexOfDotAt(s, |a|);
    }
    assert s[..|a|] == a;
    assert s[|a| + 1..] == b;
    DecimalRoundTrip(major);
    DecimalRoundTrip(minor);
  }

  lemma {:induction false} IndexOfDotAt(s: string, i: nat)
    requires i < |s| && s[i] == '.'
    requires forall k :: 0 <= k < i ==> s[k] != '.'
    ensures IndexOfDot(s) == i
  {
    if i > 0 {
      IndexOfDotAt(s[1..], i - 1);
    }
  }

  lemma FirmwareRevisionExample()
    ensures FirmwareRevision(3, 14) == "3.14"
  {
    assert DecimalString(14) == DecimalString(1) + [DigitChar(4)];
  }
}
