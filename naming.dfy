/** The identifiers and display names given to the seeded trackers. */
module Naming {

  function DigitChar(d: nat): (c: char)
    requires d < 10
    ensures '0' <= c <= '9'
  {
    (48 + d) as char
  }

  /** Decimal rendering of a natural number, as a template literal prints it. */
  function DecimalString(n: nat): (s: string)
    ensures 1 <= |s|
    ensures forall k :: 0 <= k < |s| ==> '0' <= s[k] <= '9'
  {
    if n < 10 then [DigitChar(n)] else DecimalString(n / 10) + [DigitChar(n % 10)]
  }

  /** Different numbers print differently. */
  lemma {:induction false} DecimalStringInjective(a: nat, b: nat)
    requires DecimalString(a) == DecimalString(b)
    ensures a == b
  {
    var s := DecimalString(a);
    if a < 10 && b < 10 {
      assert DigitChar(a) == s[0] == DigitChar(b);
    } else if a >= 10 && b >= 10 {
      var n := |s| - 1;
      assert DigitChar(a % 10) == s[n] == DigitChar(b % 10);
      assert DecimalString(a / 10) == s[..n] == DecimalString(b / 10);
      DecimalStringInjective(a / 10, b / 10);
    } else {
      // one rendering has one digit, the other at least two
      assert false;
    }
  }

  /** `tracker-${i}` */
  function TrackerId(i: nat): string
  {
    "tracker-" + DecimalString(i)
  }

  /** `Vehicle ${i}` */
  function VehicleName(i: nat): string
  {
    "Vehicle " + DecimalString(i)
  }

  lemma TrackerIdInjective(i: nat, j: nat)
    requires TrackerId(i) == TrackerId(j)
    ensures i == j
  {
    var p := "tracker-";
    assert DecimalString(i) == TrackerId(i)[|p|..];
    assert DecimalString(j) == TrackerId(j)[|p|..];
    DecimalStringInjective(i, j);
  }
}
