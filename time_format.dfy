/** The player's time display: `formatTime` renders a number of seconds as
    `m:ss`, minutes unpadded and seconds padded to two digits. `ParseTime` is
    its inverse on the strings it produces. */
module TimeFormat {
  import opened TrackIndex

  datatype Option<T> = None | Some(value: T)

  predicate IsDigit(c: char) {
    '0' <= c <= '9'
  }

  function DigitValue(c: char): (v: nat)
    requires IsDigit(c)
    ensures v < 10
  {
    (c - '0') as nat
  }

  function DigitChar(v: nat): (c: char)
    requires v < 10
    ensures IsDigit(c) && DigitValue(c) == v
  {
    ('0' as int + v) as char
  }

  predicate AllDigits(s: string) {
    forall i :: 0 <= i < |s| ==> IsDigit(s[i])
  }

  /** The number a string of decimal digits denotes (most significant first). */
  function DecimalValue(s: string): nat
    requires AllDigits(s)
  {
    if s == [] then 0 else DecimalValue(s[..|s| - 1]) * 10 + DigitValue(s[|s| - 1])
  }

  /** Canonical decimal numeral: at least one digit and no leading zero. */
  predicate Canonical(s: string) {
    |s| >= 1 && AllDigits(s) && (|s| > 1 ==> s[0] != '0')
  }

  /** JavaScript's conversion of a non-negative integer to its decimal string,
      as done by the template literal. */
  function NatToDecimal(n: nat): (s: string)
    ensures Canonical(s)
    ensures DecimalValue(s) == n
    ensures n < 10 <==> |s| == 1
  {
    if n < 10 then [DigitChar(n)]
    else
      var prefix := NatToDecimal(n / 10);
      var s := prefix + [DigitChar(n % 10)];
      assert s[..|s| - 1] == prefix;
      s
  }

  /** `formatTime` (seconds already floored): minutes, a colon, and the seconds
      with a "0" in front when they are below ten. */
  function FormatTime(seconds: nat): (t: string)
    ensures |t| >= 4 && t[|t| - 3] == ':'
    ensures Canonical(t[..|t| - 3]) && DecimalValue(t[..|t| - 3]) == seconds / 60
    ensures AllDigits(t[|t| - 2..]) && DecimalValue(t[|t| - 2..]) == seconds % 60
  {
    var mins := seconds / 60;
    var secs := seconds % 60;
    var m := NatToDecimal(mins);
    var ss := (if secs < 10 then "0" else "") + NatToDecimal(secs);
    var t := m + ":" + ss;
    assert ss[..1] == ss[..|ss| - 1] by {
      assert |ss| == 2;
    }
    assert t[..|t| - 3] == m;
    assert t[|t| - 2..] == ss;
    t
  }

  /** Reads back an `m:ss` string: a canonical minute count, a colon, then
      exactly two digits worth less than 60. */
  function ParseTime(t: string): (r: Option<nat>)
    ensures r.Some? ==> |t| >= 4
  {
    if |t| < 4 || t[|t| - 3] != ':' then None
    else
      var m := t[..|t| - 3];
      var ss := t[|t| - 2..];
      if Canonical(m) && AllDigits(ss) && DecimalValue(ss) < 60
      then Some(DecimalValue(m) * 60 + DecimalValue(ss))
      else None
  }

  /** Every formatted time reads back as the number of seconds it came from,
      i.e. `mins * 60 + secs == seconds`. */
  lemma ParseFormat(seconds: nat)
    ensures ParseTime(FormatTime(seconds)) == Some(seconds)
  {
  }

  /** A non-zero leading digit gives a non-zero value. */
  lemma {:induction false} LeadingDigitPositive(s: string)
    requires |s| >= 1 && AllDigits(s) && s[0] != '0'
    ensures DecimalValue(s) > 0
  {
    if |s| > 1 {
      LeadingDigitPositive(s[..|s| - 1]);
    }
  }

  /** A canonical numeral is exactly what `NatToDecimal` prints for its value. */
  lemma {:induction false} CanonicalRoundTrip(s: string)
    requires Canonical(s)
    ensures NatToDecimal(DecimalValue(s)) == s
  {
    if |s| > 1 {
      var prefix, c := s[..|s| - 1], s[|s| - 1];
      assert Canonical(prefix) && prefix[0] != '0' by {
        assert forall i :: 0 <= i < |prefix| ==> prefix[i] == s[i];
      }
      CanonicalRoundTrip(prefix);
      LeadingDigitPositive(prefix);
      var p := DecimalValue(prefix);
      assert DecimalValue(s) == p * 10 + DigitValue(c);
      AppendDigit(p, DigitValue(c));
      DigitCharOfValue(c);
      assert s == prefix + [c];
    }
  }

  lemma DigitCharOfValue(c: char)
    requires IsDigit(c)
    ensures DigitChar(DigitValue(c)) == c
  {
  }

  /** Appending a digit to the rendering of a positive number renders ten
      times that number plus the digit. */
  lemma AppendDigit(p: nat, last: nat)
    requires p >= 1 && last < 10
    ensures NatToDecimal(p * 10 + last) == NatToDecimal(p) + [DigitChar(last)]
  {
    var v := p * 10 + last;
    ModOfDecomposition(v, 10, p, last);
    assert v >= 10;
    calc {
      NatToDecimal(v);
      NatToDecimal(v / 10) + [DigitChar(v % 10)];
      NatToDecimal(p) + [DigitChar(last)];
    }
  }

  /** A two-digit string denotes ten times its first digit plus its second. */
  lemma TwoDigitValue(ss: string)
    requires |ss| == 2 && AllDigits(ss)
    ensures DecimalValue(ss) == DigitValue(ss[0]) * 10 + DigitValue(ss[1])
  {
    var first := ss[..1];
    assert first[..0] == [];
    assert DecimalValue(first) == DigitValue(ss[0]);
    assert ss[..|ss| - 1] == first;
  }

  /** Two two-digit strings with the same value are the same string. */
  lemma TwoDigitsUnique(a: string, b: string)
    requires |a| == 2 && AllDigits(a) && |b| == 2 && AllDigits(b)
    requires DecimalValue(a) == DecimalValue(b)
    ensures a == b
  {
    TwoDigitValue(a);
    TwoDigitValue(b);
    assert a[0] == b[0] && a[1] == b[1];
  }

  /** Every string `ParseTime` accepts is the formatted form of its value. */
  lemma ParsedIsFormatted(seconds: nat, t: string)
    requires ParseTime(t) == Some(seconds)
    ensures FormatTime(seconds) == t
  {
    var m, ss := t[..|t| - 3], t[|t| - 2..];
    assert Canonical(m) && AllDigits(ss) && DecimalValue(ss) < 60;
    assert seconds == DecimalValue(m) * 60 + DecimalValue(ss);
    ModOfDecomposition(seconds, 60, DecimalValue(m), DecimalValue(ss));
    var f := FormatTime(seconds);
    var fm, fss := f[..|f| - 3], f[|f| - 2..];
    assert DecimalValue(fm) == DecimalValue(m) && DecimalValue(fss) == DecimalValue(ss);
    CanonicalRoundTrip(m);
    CanonicalRoundTrip(fm);
    assert fm == m;
    TwoDigitsUnique(ss, fss);
    SplitAtColon(t);
    SplitAtColon(f);
  }

  lemma SplitAtColon(t: string)
    requires |t| >= 4
    ensures t == t[..|t| - 3] + [t[|t| - 3]] + t[|t| - 2..]
  {
  }

  /** `ParseTime` accepts exactly the strings `FormatTime` produces: the display
      format is unambiguous in both directions. */
  lemma FormatParseInverse(seconds: nat, t: string)
    ensures ParseTime(t) == Some(seconds) <==> FormatTime(seconds) == t
  {
    if ParseTime(t) == Some(seconds) {
      ParsedIsFormatted(seconds, t);
    } else if FormatTime(seconds) == t {
      ParseFormat(seconds);
    }
  }

  /** The examples the display shows: 65 s, 5 s, 0 s, 90 s and 180 s. */
  lemma FormatTimeExamples()
    ensures FormatTime(65) == "1:05"
    ensures FormatTime(5) == "0:05"
    ensures FormatTime(0) == "0:00"
    ensures FormatTime(90) == "1:30"
    ensures FormatTime(180) == "3:00"
  {
    FormatsAs(65, '1', '0', '5');
    FormatsAs(5, '0', '0', '5');
    FormatsAs(0, '0', '0', '0');
    FormatsAs(90, '1', '3', '0');
    FormatsAs(180, '3', '0', '0');
  }

  /** A time under ten minutes formats as its one minute digit, a colon and
      its two seconds digits. */
  lemma FormatsAs(seconds: nat, m: char, s1: char, s0: char)
    requires IsDigit(m) && IsDigit(s1) && IsDigit(s0) && DigitValue(s1) < 6
    requires DigitValue(m) * 60 + DigitValue(s1) * 10 + DigitValue(s0) == seconds
    ensures FormatTime(seconds) == [m, ':', s1, s0]
  {
    var t := [m, ':', s1, s0];
    assert t[..|t| - 3] == [m] && [m][..0] == [];
    assert t[|t| - 2..] == [s1, s0] && [s1, s0][..1] == [s1] && [s1][..0] == [];
    assert DecimalValue([m]) == DigitValue(m);
    assert DecimalValue([s1, s0]) == DigitValue(s1) * 10 + DigitValue(s0);
    assert ParseTime(t) == Some(seconds);
    FormatParseInverse(seconds, t);
  }
}
