/** The elapsed-time strings of the conversation view and the call overlay:
    `formatRecordingTime` and `formatCallDuration`, whose bodies are identical in
    the conversation view and in the call overlay. Each is proved to be read back
    into the number of seconds it was given. */
module Clock {
  import opened Text

  /** `formatRecordingTime` of the conversation view: `mm:ss`, both fields padded to two digits. */
  function FormatRecordingTime(seconds: nat): string
  {
    Pad2(seconds / 60) + ":" + Pad2(seconds % 60)
  }

  /** `formatCallDuration`: `HH:MM:SS` once a full hour has elapsed, `MM:SS` before. */
  function FormatCallDuration(seconds: nat): string
  {
    var hours, minutes, secs := seconds / 3600, (seconds % 3600) / 60, seconds % 60;
    if hours > 0 then Pad2(hours) + ":" + Pad2(minutes) + ":" + Pad2(secs)
    else Pad2(minutes) + ":" + Pad2(secs)
  }

  /** Only digits and colons. */
  predicate IsClockText(s: string)
  {
    forall i :: 0 <= i < |s| ==> IsDigit(s[i]) || s[i] == ':'
  }

  lemma ClockTextConcat(a: string, b: string)
    requires IsClockText(a) && IsClockText(b)
    ensures IsClockText(a + b)
  {
    assert forall i :: |a| <= i < |a + b| ==> (a + b)[i] == b[i - |a|];
  }

  /** A call-duration string is made of digits and colons only. */
  lemma CallDurationChars(seconds: nat)
    ensures IsClockText(FormatCallDuration(seconds))
  {
    var h, m, s := seconds / 3600, (seconds % 3600) / 60, seconds % 60;
    ClockTextConcat(Pad2(m) + ":", Pad2(s));
    ClockTextConcat(Pad2(m), ":");
    if h > 0 {
      ClockTextConcat(Pad2(h), ":");
      ClockTextConcat(Pad2(h) + ":", Pad2(m));
      ClockTextConcat(Pad2(h) + ":" + Pad2(m), ":");
      ClockTextConcat(Pad2(h) + ":" + Pad2(m) + ":", Pad2(s));
    }
  }

  /** Every field of a clock string is a run of at least two digits. */
  predicate WellFormedFields(fields: seq<string>)
  {
    forall i :: 0 <= i < |fields| ==> IsDigits(fields[i]) && |fields[i]| >= 2
  }

  /** Reads the colon-separated fields back as a count in base 60 (`h*3600 + m*60 + s`). */
  function ClockValue(fields: seq<string>): nat
    requires forall i :: 0 <= i < |fields| ==> IsDigits(fields[i])
    decreases |fields|
  {
    if fields == [] then 0
    else ClockValue(fields[..|fields| - 1]) * 60 + ParseNat(fields[|fields| - 1])
  }

  lemma TwoFields(a: nat, b: nat)
    ensures Split(Pad2(a) + ":" + Pad2(b), ':') == [Pad2(a), Pad2(b)]
  {
    SplitTwoDigitFields(Pad2(a), Pad2(b));
  }

  lemma ThreeFields(a: nat, b: nat, c: nat)
    ensures Split(Pad2(a) + ":" + Pad2(b) + ":" + Pad2(c), ':') == [Pad2(a), Pad2(b), Pad2(c)]
  {
    SplitThreeDigitFields(Pad2(a), Pad2(b), Pad2(c));
  }

  lemma ClockValueTwo(a: string, b: string)
    requires IsDigits(a) && IsDigits(b)
    ensures ClockValue([a, b]) == ParseNat(a) * 60 + ParseNat(b)
  {
    assert [a, b][..1] == [a] && [a][..0] == [];
    assert ClockValue([a]) == ParseNat(a);
  }

  lemma ClockValueThree(a: string, b: string, c: string)
    requires IsDigits(a) && IsDigits(b) && IsDigits(c)
    ensures ClockValue([a, b, c]) == (ParseNat(a) * 60 + ParseNat(b)) * 60 + ParseNat(c)
  {
    assert [a, b, c][..2] == [a, b];
    ClockValueTwo(a, b);
  }

  lemma MinutesSeconds(x: nat)
    ensures x == (x / 60) * 60 + x % 60
  {
  }

  lemma HoursMinutesSeconds(x: nat, h: nat, m: nat, s: nat)
    requires h == x / 3600 && m == (x % 3600) / 60 && s == x % 60
    ensures x == (h * 60 + m) * 60 + s
    ensures m < 60 && s < 60 && (h > 0 <==> x >= 3600)
  {
    var r := x % 3600;
    assert x == h * 3600 + r;
    assert r == m * 60 + r % 60;
    assert r % 60 == s by {
      assert x == (h * 60) * 60 + r;
    }
  }

  /** The recording time reads back as minutes and seconds that recompose the input. */
  lemma RecordingTimeFields(seconds: nat)
    ensures var f := Split(FormatRecordingTime(seconds), ':');
      |f| == 2 && WellFormedFields(f) &&
      ParseNat(f[0]) == seconds / 60 && ParseNat(f[1]) == seconds % 60 && ParseNat(f[1]) < 60 &&
      ClockValue(f) == seconds
  {
    TwoFields(seconds / 60, seconds % 60);
    ClockValueTwo(Pad2(seconds / 60), Pad2(seconds % 60));
    MinutesSeconds(seconds);
  }

  /** The fields `formatCallDuration` writes, before they are read back. */
  lemma CallDurationSplit(seconds: nat)
    ensures var h, m, s := seconds / 3600, (seconds % 3600) / 60, seconds % 60;
      Split(FormatCallDuration(seconds), ':') ==
        if h > 0 then [Pad2(h), Pad2(m), Pad2(s)] else [Pad2(m), Pad2(s)]
  {
    var h, m, s := seconds / 3600, (seconds % 3600) / 60, seconds % 60;
    if h > 0 {
      ThreeFields(h, m, s);
    } else {
      TwoFields(m, s);
    }
  }

  /** Three padded fields are well formed and read back as `(h*60 + m)*60 + s`. */
  lemma ThreeFieldValues(h: nat, m: nat, s: nat)
    ensures var f := [Pad2(h), Pad2(m), Pad2(s)];
      WellFormedFields(f) && ParseNat(f[2]) == s && ParseNat(f[1]) == m &&
      ClockValue(f) == (h * 60 + m) * 60 + s
  {
    ClockValueThree(Pad2(h), Pad2(m), Pad2(s));
  }

  /** Two padded fields are well formed and read back as `m*60 + s`. */
  lemma TwoFieldValues(m: nat, s: nat)
    ensures var f := [Pad2(m), Pad2(s)];
      WellFormedFields(f) && ParseNat(f[1]) == s && ParseNat(f[0]) == m &&
      ClockValue(f) == m * 60 + s
  {
    ClockValueTwo(Pad2(m), Pad2(s));
  }

  /** `formatCallDuration` has three fields exactly from one hour on, two before;
      minutes and seconds are below 60, every field has at least two digits, and
      reading the fields back gives the input. */
  lemma {:induction false} CallDurationFields(seconds: nat)
    ensures var f := Split(FormatCallDuration(seconds), ':');
      |f| == (if seconds >= 3600 then 3 else 2) && WellFormedFields(f) &&
      ParseNat(f[|f| - 1]) == seconds % 60 && ParseNat(f[|f| - 1]) < 60 &&
      ParseNat(f[|f| - 2]) == (seconds % 3600) / 60 && ParseNat(f[|f| - 2]) < 60 &&
      ClockValue(f) == seconds
  {
    var h, m, s := seconds / 3600, (seconds % 3600) / 60, seconds % 60;
    HoursMinutesSeconds(seconds, h, m, s);
    CallDurationSplit(seconds);
    if h > 0 {
      ThreeFieldValues(h, m, s);
    } else {
      TwoFieldValues(m, s);
    }
  }

  /** From one hour on, the first field is the number of whole hours, written in full. */
  lemma CallDurationHours(seconds: nat)
    requires seconds >= 3600
    ensures var f := Split(FormatCallDuration(seconds), ':');
      |f| == 3 && IsDigits(f[0]) && ParseNat(f[0]) == seconds / 3600 &&
      (seconds / 3600 >= 10 ==> f[0] == NatToString(seconds / 3600))
  {
    CallDurationSplit(seconds);
  }
}
