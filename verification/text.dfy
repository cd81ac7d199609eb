// Strings as the fingerprint and the weight annotations use them: decimal
// numerals, and fields joined by '|'.
module Text {
  import opened Wrappers

  predicate PipeFree(s: string) {
    '|' !in s
  }

  predicate IsDigit(c: char) {
    '0' <= c <= '9'
  }

  predicate AllDigits(s: string) {
    forall i :: 0 <= i < |s| ==> IsDigit(s[i])
  }

  function Digit(d: nat): (c: char)
    requires d < 10
    ensures IsDigit(c) && DigitValue(c) == d
  {
    ('0' as int + d) as char
  }

  function DigitValue(c: char): (d: nat)
    requires IsDigit(c)
    ensures d < 10
  {
    c as int - '0' as int
  }

  /** The `%d` rendering of a non-negative number. */
  function Decimal(n: nat): (s: string)
    ensures |s| > 0 && AllDigits(s)
  {
    if n < 10 then [Digit(n)] else Decimal(n / 10) + [Digit(n % 10)]
  }

  /** The value of a digit string, most significant digit first. */
  function Value(s: string): nat
    requires AllDigits(s)
  {
    if s == "" then 0 else 10 * Value(s[..|s| - 1]) + DigitValue(s[|s| - 1])
  }

  lemma {:induction false} DecimalRoundTrip(n: nat)
    ensures Value(Decimal(n)) == n
  {
    if n >= 10 {
      DecimalRoundTrip(n / 10);
      assert Decimal(n)[..|Decimal(n)| - 1] == Decimal(n / 10);
    }
  }

  predicate Zeros(s: string) {
    forall i :: 0 <= i < |s| ==> s[i] == '0'
  }

  lemma {:induction false} LeadingZeros(zeros: string, s: string)
    requires Zeros(zeros) && AllDigits(s)
    ensures AllDigits(zeros + s) && Value(zeros + s) == Value(s)
  {
    if s == "" {
      assert zeros + s == zeros;
      if zeros != "" {
        LeadingZeros(zeros[..|zeros| - 1], "");
        assert zeros[..|zeros| - 1] + "" == zeros[..|zeros| - 1];
      }
    } else {
      LeadingZeros(zeros, s[..|s| - 1]);
      assert (zeros + s)[..|zeros + s| - 1] == zeros + s[..|s| - 1];
    }
  }

  lemma DigitOfValue(c: char)
    requires IsDigit(c)
    ensures Digit(DigitValue(c)) == c
  {
  }

  lemma DecimalZero()
    ensures Decimal(0) == "0"
  {
  }

  /** A numeral is the `%d` rendering of its value, but for leading zeros. */
  lemma {:induction false} DecimalOfValue(s: string) returns (zeros: string)
    requires s != "" && AllDigits(s)
    ensures Zeros(zeros) && s == zeros + Decimal(Value(s))
  {
    var short, last := s[..|s| - 1], s[|s| - 1];
    var n := Value(s);
    assert n == 10 * Value(short) + DigitValue(last) && s == short + [last];
    DigitOfValue(last);
    if short == "" {
      zeros := "";
    } else {
      zeros := DecimalOfValue(short);
      assert n / 10 == Value(short) && n % 10 == DigitValue(last);
      if n < 10 {
        assert short == zeros + "0" by { DecimalZero(); }
        zeros := zeros + "0";
      } else {
        assert Decimal(n) == Decimal(Value(short)) + [last];
      }
    }
  }

  lemma DigitsArePipeFree(s: string)
    requires AllDigits(s)
    ensures PipeFree(s)
  {
  }

  // ----- reading fields back from the right

  /** Splits at the last '|'. */
  function Peel(s: string): Option<(string, string)> {
    if s == "" then None
    else if s[|s| - 1] == '|' then Some((s[..|s| - 1], ""))
    else match Peel(s[..|s| - 1])
      case None => None
      case Some((before, after)) => Some((before, after + [s[|s| - 1]]))
  }

  lemma {:induction false} PeelField(rest: string, field: string)
    requires PipeFree(field)
    ensures Peel(rest + "|" + field) == Some((rest, field))
  {
    var s := rest + "|" + field;
    if field == "" {
      assert s[..|s| - 1] == rest;
    } else {
      var short := field[..|field| - 1];
      PeelField(rest, short);
      assert s[..|s| - 1] == rest + "|" + short;
      assert field == short + [field[|field| - 1]];
    }
  }

  // ----- strings.Split(s, "|")

  function Split(s: string): (fields: seq<string>)
    ensures |fields| > 0
  {
    if s == "" then [""]
    else
      var rest := Split(s[1..]);
      if s[0] == '|' then [""] + rest else [[s[0]] + rest[0]] + rest[1..]
  }

  function Join(fields: seq<string>): string
    requires |fields| > 0
  {
    if |fields| == 1 then fields[0] else fields[0] + "|" + Join(fields[1..])
  }

  lemma {:induction false} SplitField(field: string, rest: string)
    requires PipeFree(field)
    ensures Split(field) == [field]
    ensures Split(field + "|" + rest) == [field] + Split(rest)
  {
    var s := field + "|" + rest;
    if field == "" {
      assert s[1..] == rest;
    } else {
      SplitField(field[1..], rest);
      assert s[1..] == field[1..] + "|" + rest;
      assert [field[0]] + field[1..] == field;
    }
  }

  /** Splitting inverts joining when no field holds the separator. */
  lemma {:induction false} SplitJoin(fields: seq<string>)
    requires |fields| > 0
    requires forall i :: 0 <= i < |fields| ==> PipeFree(fields[i])
    ensures Split(Join(fields)) == fields
  {
    hide Split;
    SplitField(fields[0], if |fields| == 1 then "" else Join(fields[1..]));
    if |fields| > 1 {
      SplitJoin(fields[1..]);
    }
  }
}
