/** `formatDuration` (src/lib/utils.ts): whole seconds shown as minutes and two-digit seconds. */
module Utils {
  import opened Wrappers
  import opened Strings

  /** The seconds field: always two digits, zero-padded below ten. */
  function TwoDigits(n: nat): (s: string)
    requires n < 60
    ensures |s| == 2 && IsDigit(s[0]) && IsDigit(s[1])
    ensures DigitsValue(s) == n
  {
    var s := (if n < 10 then "0" else "") + NatToString(n);
    NatToStringValue(n);
    assert n >= 10 ==> NatToString(n) == NatToString(n / 10) + [DigitChar(n % 10)];
    assert s[..1] == [s[0]];
    s
  }

  /**
   * formatDuration on whole seconds: "M:SS", minutes unbounded (no hours field).
   * Zero takes the early return, which gives the same "0:00".
   */
  function FormatDuration(seconds: nat): (r: string)
    ensures seconds == 0 ==> r == "0:00"
  {
    if seconds == 0 then "0:00"
    else NatToString(seconds / 60) + ":" + TwoDigits(seconds % 60)
  }

  /** Reads "M:SS" back: the minutes' digits, a colon, then exactly two digits worth less than 60. */
  function ParseDuration(s: string): Option<nat> {
    if |s| >= 4 && s[|s| - 3] == ':'
       && (forall i :: 0 <= i < |s| - 3 ==> IsDigit(s[i]))
       && IsDigit(s[|s| - 2]) && IsDigit(s[|s| - 1])
       && DigitsValue(s[|s| - 2..]) < 60
    then Some(DigitsValue(s[..|s| - 3]) * 60 + DigitsValue(s[|s| - 2..]))
    else None
  }

  /** The output ends in ':' and a two-digit seconds field in 0..59; the minutes are the whole minutes. */
  lemma FormatDurationShape(seconds: nat)
    ensures var r := FormatDuration(seconds);
            && |r| >= 4 && r[|r| - 3] == ':'
            && IsDigit(r[|r| - 2]) && IsDigit(r[|r| - 1])
            && DigitsValue(r[|r| - 2..]) == seconds % 60 < 60
            && DigitsValue(r[..|r| - 3]) == seconds / 60
  {
    var r := FormatDuration(seconds);
    if seconds == 0 {
      assert r[|r| - 2..] == "00" && r[..|r| - 3] == "0";
      assert DigitsValue("00") == 0 by {
        assert "00"[..1] == "0";
      }
    } else {
      var m := NatToString(seconds / 60);
      var t := TwoDigits(seconds % 60);
      assert r == m + ":" + t;
      assert r[|r| - 2..] == t;
      assert r[..|r| - 3] == m;
      NatToStringValue(seconds / 60);
    }
  }

  /** Reading the formatted duration back gives the number of seconds: minutes * 60 + seconds field. */
  lemma FormatDurationRoundTrip(seconds: nat)
    ensures ParseDuration(FormatDuration(seconds)) == Some(seconds)
  {
    FormatDurationShape(seconds);
    var r := FormatDuration(seconds);
    if seconds == 0 {
      assert r == "0:00";
    } else {
      assert r[..|r| - 3] == NatToString(seconds / 60);
    }
  }

  /** 125 seconds read "2:05". */
  lemma FormatExample()
    ensures FormatDuration(125) == "2:05"
  {
    assert NatToString(2) == "2";
    assert TwoDigits(5) == "05";
  }

  /** An hour reads "60:00": there is no hours field. */
  lemma FormatNoHours()
    ensures FormatDuration(3600) == "60:00"
  {
    assert NatToString(6) == "6";
    assert NatToString(60) == NatToString(6) + "0";
    assert TwoDigits(0) == "00";
  }
}
