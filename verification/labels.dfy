/** The X-axis tick label: `twentyFourHourFormat`, over the hour and minute of the tick. */
module Labels {
  import opened Decimal

  /** `toLocaleString` with at least two integer digits and no grouping. */
  function TwoDigits(n: nat): (s: string)
    ensures |s| >= 2 && AllDigits(s)
    ensures n < 100 ==> |s| == 2
    ensures ParseDigits(s) == n
  {
    if n < 10 then ['0', DigitChar(n)]
    else
      NatToStringRoundTrip(n);
      assert n < 100 ==> NatToString(n) == NatToString(n / 10) + [DigitChar(n % 10)];
      NatToString(n)
  }

  /** `HH:MM`, both parts zero-padded to two digits and reading back as the inputs. */
  function TwentyFourHourFormat(hours: nat, minutes: nat): (s: string)
    requires hours < 24 && minutes < 60
    ensures |s| == 5 && s[2] == ':'
    ensures AllDigits(s[..2]) && AllDigits(s[3..])
    ensures ParseDigits(s[..2]) == hours && ParseDigits(s[3..]) == minutes
  {
    var h, m := TwoDigits(hours), TwoDigits(minutes);
    assert (h + ":" + m)[..2] == h && (h + ":" + m)[3..] == m;
    h + ":" + m
  }
}
