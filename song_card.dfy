/**
 * `formatDuration` of components/SongCard.tsx: whole minutes, a colon, and
 * the remaining seconds padded to two digits.
 */
module SongCard {
  import opened Wrappers
  import opened JsString

  /** JavaScript's `a % 60`: the remainder takes the sign of the dividend, so
      it is the unique value of that sign, below 60 in magnitude, that differs
      from `a` by a multiple of 60. */
  function JsRemainder60(a: int): (r: int)
    ensures -60 < r < 60
    ensures a >= 0 ==> r == a % 60
    ensures a < 0 ==> r <= 0 && (a - r) % 60 == 0
  {
    if a >= 0 then a % 60 else -((-a) % 60)
  }

  /** `${Math.floor(s / 60)}:${(s % 60).toString().padStart(2, '0')}` for an integer `s`. */
  function FormatDuration(seconds: int): string {
    var mins := seconds / 60;  // Dafny's division by a positive divisor rounds down, as Math.floor does
    var secs := JsRemainder60(seconds);
    IntToString(mins) + ":" + PadStart(IntToString(secs), 2, '0')
  }

  /** Two decimal digits. */
  function Pad2(n: nat): (r: string)
    requires n < 100
    ensures |r| == 2 && AllDigits(r)
  {
    NatToStringNoLeadingZero(n);
    if n < 10 then "0" + NatToString(n) else NatToString(n)
  }

  lemma Pad2Value(n: nat)
    requires n < 100
    ensures ParseNat(Pad2(n)) == n
  {
    ParseNatToString(n);
    if n < 10 {
      ParseNatLeadingZero(NatToString(n));
    }
  }

  /** For a non-negative count: unpadded minutes, a colon, two digits of seconds. */
  lemma FormatDurationShape(s: nat)
    ensures FormatDuration(s) == NatToString(s / 60) + ":" + Pad2(s % 60)
  {
    var mins, secs := s / 60, s % 60;
    assert JsRemainder60(s) == secs;
    assert IntToString(mins) == NatToString(mins);
    assert IntToString(secs) == NatToString(secs);
    var t := NatToString(secs);
    NatToStringNoLeadingZero(secs);
    if secs < 10 {
      assert PadStart(t, 2, '0') == PadStart("0" + t, 2, '0') == "0" + t;
    } else {
      assert PadStart(t, 2, '0') == t;
    }
  }

  /** Reads `m:ss` back: digits, one colon, exactly two digits of seconds below 60. */
  function ParseDuration(text: string): Option<nat> {
    var i := IndexOf(text, ':');
    if i <= 0 then None
    else
      var m, ss := text[..i], text[i + 1..];
      if AllDigits(m) && |ss| == 2 && AllDigits(ss) && ParseNat(ss) < 60 then Some(ParseNat(m) * 60 + ParseNat(ss))
      else None
  }

  /** Minutes text, a colon and two digits of seconds read back as minutes * 60 + seconds. */
  lemma ParseDurationOf(m: string, ss: string)
    requires |m| >= 1 && AllDigits(m) && ':' !in m
    requires |ss| == 2 && AllDigits(ss) && ParseNat(ss) < 60
    ensures ParseDuration(m + [':'] + ss) == Some(ParseNat(m) * 60 + ParseNat(ss))
  {
    var r := m + [':'] + ss;
    IndexOfAfterPrefix(m, ':', ss);
    assert IndexOf(r, ':') == |m|;
    assert r[..|m|] == m;
    assert r[|m| + 1..] == ss;
    var i := IndexOf(r, ':');
    assert AllDigits(r[..i]) && |r[i + 1..]| == 2 && AllDigits(r[i + 1..]);
    assert ParseNat(r[i + 1..]) < 60;
    assert ParseDuration(r) == Some(ParseNat(r[..i]) * 60 + ParseNat(r[i + 1..]));
  }

  /** The part after the colon is always exactly two digits. */
  lemma FormatDurationTwoDigitSeconds(s: nat)
    ensures var r := FormatDuration(s);
      |r| >= 4 && r[|r| - 3] == ':' && IsDigit(r[|r| - 2]) && IsDigit(r[|r| - 1])
  {
    FormatDurationShape(s);
    var m, ss := NatToString(s / 60), Pad2(s % 60);
    var r := m + [':'] + ss;
    assert r[|r| - 2..] == ss;
  }

  /** Minutes and two-digit seconds below 60 read back as their total. */
  lemma MinutesSecondsRoundTrip(q: nat, rem: nat)
    requires rem < 60
    ensures ParseDuration(NatToString(q) + ":" + Pad2(rem)) == Some(q * 60 + rem)
  {
    NoColonInDigits(NatToString(q));
    Pad2Value(rem);
    ParseDurationOf(NatToString(q), Pad2(rem));
    ParseNatToString(q);
  }

  /** The text reads back as `s`. */
  lemma FormatDurationRoundTrip(s: nat)
    ensures ParseDuration(FormatDuration(s)) == Some(s)
  {
    var q, rem := s / 60, s % 60;
    assert q * 60 + rem == s;
    FormatDurationShape(s);
    MinutesSecondsRoundTrip(q, rem);
  }

  /** Zero seconds print as `00`. */
  lemma Pad2Zero()
    ensures Pad2(0) == "00"
  {
    assert NatToString(0) == [DigitChar(0)] == "0";
  }

  /** Under a minute the minutes print as zero. */
  lemma FormatDurationUnderAMinute(s: nat)
    requires s < 60
    ensures FormatDuration(s) == NatToString(0) + ":" + Pad2(s)
  {
    FormatDurationShape(s);
    assert s / 60 == 0 && s % 60 == s;
  }

  /** Whole minutes print as the unpadded minute count followed by `:00`;
      the minutes are neither padded nor capped at an hour. */
  lemma FormatDurationWholeMinutes(q: nat)
    ensures FormatDuration(q * 60) == NatToString(q) + ":00"
  {
    var s := q * 60;
    assert s / 60 == q && s % 60 == 0;
    FormatDurationShape(s);
    Pad2Zero();
  }

  /** A negative count keeps JavaScript's signs: floor for the minutes, a
      negative remainder for the seconds. */
  lemma FormatDurationNegative()
    ensures FormatDuration(-5) == "-1:-5"
  {
    assert JsRemainder60(-5) == -5;
    assert IntToString(-1) == "-1" && IntToString(-5) == "-5";
  }
}
