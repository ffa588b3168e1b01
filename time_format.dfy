/**
 * The `m:ss` time label both players show: whole minutes, a colon, and the
 * remaining seconds zero-padded to two digits.
 */
module TimeFormat {
  import opened Wrappers
  import opened Decimal

  /** `String.prototype.padStart(width, fill)`. */
  function PadStart(s: string, width: nat, fill: char): (r: string)
    ensures |r| == if |s| >= width then |s| else width
    ensures r[|r| - |s|..] == s
    ensures forall i :: 0 <= i < |r| - |s| ==> r[i] == fill
  {
    if |s| >= width then s
    else seq(width - |s|, _ => fill) + s
  }

  /** `formatTime` on a whole number of seconds. */
  function FormatTime(t: nat): (r: string)
    ensures |r| >= 4 && r[|r| - 3] == ':'
    ensures AllDigits(r[..|r| - 3]) && AllDigits(r[|r| - 2..])
    ensures DigitsValue(r[..|r| - 3]) == t / 60
    ensures DigitsValue(r[|r| - 2..]) == t % 60
    ensures |r| > 4 ==> r[0] != '0'
  {
    var minutes := NatToString(t / 60);
    var seconds := PadStart(NatToString(t % 60), 2, '0');
    NatToStringLength(t % 60);
    NatToStringRoundTrip(t / 60);
    PadZerosValue(NatToString(t % 60));
    NatToStringRoundTrip(t % 60);
    var r := minutes + ":" + seconds;
    assert r[..|r| - 3] == minutes;
    assert r[|r| - 2..] == seconds;
    r
  }

  /** A leading zero does not change the value of a numeral. */
  lemma {:induction false} LeadingZeroValue(s: string)
    requires AllDigits(s)
    ensures AllDigits(['0'] + s) && DigitsValue(['0'] + s) == DigitsValue(s)
    decreases |s|
  {
    var t := ['0'] + s;
    if s == [] {
      assert t[..|t| - 1] == [];
    } else {
      LeadingZeroValue(s[..|s| - 1]);
      assert t[..|t| - 1] == ['0'] + s[..|s| - 1];
      assert t[|t| - 1] == s[|s| - 1];
    }
  }

  /** Padding a one- or two-digit numeral to two digits does not change its value. */
  lemma PadZerosValue(s: string)
    requires AllDigits(s) && 1 <= |s| <= 2
    ensures AllDigits(PadStart(s, 2, '0'))
    ensures DigitsValue(PadStart(s, 2, '0')) == DigitsValue(s)
  {
    if |s| == 1 {
      assert seq(1, _ => '0') == ['0'];
      assert PadStart(s, 2, '0') == ['0'] + s;
      LeadingZeroValue(s);
    }
  }

  /** Reads an `m:ss` label back: digits, a colon, two digits worth less than sixty. */
  function ParseTime(s: string): Option<nat>
  {
    if |s| >= 4 && s[|s| - 3] == ':' && AllDigits(s[..|s| - 3]) && AllDigits(s[|s| - 2..])
       && DigitsValue(s[|s| - 2..]) < 60
    then Some(DigitsValue(s[..|s| - 3]) * 60 + DigitsValue(s[|s| - 2..]))
    else None
  }

  /** The label determines the time: parsing it gives back the seconds it was formatted from. */
  lemma FormatTimeRoundTrip(t: nat)
    ensures ParseTime(FormatTime(t)) == Some(t)
  {
  }

  /** Two times with the same label are the same time. */
  lemma FormatTimeInjective(t: nat, u: nat)
    requires FormatTime(t) == FormatTime(u)
    ensures t == u
  {
    FormatTimeRoundTrip(t);
    FormatTimeRoundTrip(u);
  }

}
