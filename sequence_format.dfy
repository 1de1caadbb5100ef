/**
 * Replication sequence numbers as file names: the decimal digits of the number, padded on the
 * left with zeros to a minimum length, with a '/' inserted every `groupingLength` digits
 * counting from the right, followed by a file name suffix. A grouping length of 0 inserts no
 * separator; a minimum length of 0 pads nothing.
 */
module SequenceFormat {
  import opened Wrappers

  predicate IsDigit(c: char)
  {
    '0' <= c <= '9'
  }

  predicate IsDigits(s: string)
  {
    forall i :: 0 <= i < |s| ==> IsDigit(s[i])
  }

  function DigitChar(d: nat): (c: char)
    requires d < 10
    ensures IsDigit(c)
  {
    ('0' as int + d) as char
  }

  function DigitValue(c: char): nat
    requires IsDigit(c)
  {
    (c as int - '0' as int) as nat
  }

  /** The decimal digits of `n`, most significant first, without leading zeros ("0" for 0). */
  function Decimal(n: nat): (s: string)
    ensures |s| >= 1 && IsDigits(s)
  {
    if n < 10 then [DigitChar(n)] else Decimal(n / 10) + [DigitChar(n % 10)]
  }

  /** The number a string of decimal digits denotes; leading zeros add nothing. */
  function ValueOf(s: string): nat
    requires IsDigits(s)
  {
    if |s| == 0 then 0 else ValueOf(s[..|s| - 1]) * 10 + DigitValue(s[|s| - 1])
  }

  function Zeros(k: nat): (z: string)
    ensures |z| == k && IsDigits(z)
  {
    seq(k, _ => '0')
  }

  /** `s` with zeros in front up to `minimumLength` characters; longer strings are kept whole. */
  function PadLeft(s: string, minimumLength: nat): string
  {
    if |s| >= minimumLength then s else Zeros(minimumLength - |s|) + s
  }

  /** `s` with a '/' before every `groupingLength` characters counted from its right end. */
  function Group(s: string, groupingLength: nat): string
    decreases |s|
  {
    if groupingLength == 0 || |s| <= groupingLength then s
    else Group(s[..|s| - groupingLength], groupingLength) + "/" + s[|s| - groupingLength..]
  }

  /** The formatted name of sequence number `n`. */
  function FormattedName(n: nat, minimumLength: nat, groupingLength: nat, suffix: string): string
  {
    Group(PadLeft(Decimal(n), minimumLength), groupingLength) + suffix
  }

  /** `s` with every '/' removed. */
  function Unslash(s: string): string
  {
    if |s| == 0 then ""
    else if s[|s| - 1] == '/' then Unslash(s[..|s| - 1])
    else Unslash(s[..|s| - 1]) + [s[|s| - 1]]
  }

  /**
   * Reads a sequence number back from a name: the name must end with `suffix`, and what comes
   * before it must be, separators removed, a non-empty string of digits.
   */
  function ParseName(name: string, suffix: string): Option<nat>
  {
    if |name| < |suffix| || name[|name| - |suffix|..] != suffix then None
    else
      var body := Unslash(name[..|name| - |suffix|]);
      if |body| >= 1 && IsDigits(body) then Some(ValueOf(body)) else None
  }

  /** The runs of characters between the separators, left to right. */
  function Chunks(s: string, groupingLength: nat): seq<string>
    requires groupingLength > 0
    decreases |s|
  {
    if |s| <= groupingLength then [s]
    else Chunks(s[..|s| - groupingLength], groupingLength) + [s[|s| - groupingLength..]]
  }

  /** The chunks written out with a '/' between each two. */
  function Join(chunks: seq<string>): string
    requires |chunks| >= 1
  {
    if |chunks| == 1 then chunks[0] else Join(chunks[..|chunks| - 1]) + "/" + chunks[|chunks| - 1]
  }

  function Pow10(k: nat): (p: nat)
    ensures p >= 1
  {
    if k == 0 then 1 else 10 * Pow10(k - 1)
  }

  // ---------------------------------------------------------------------------------------
  // Digits and values

  lemma {:induction false} DecimalRoundTrip(n: nat)
    ensures ValueOf(Decimal(n)) == n
  {
    if n >= 10 {
      DecimalRoundTrip(n / 10);
      var s := Decimal(n);
      assert s[..|s| - 1] == Decimal(n / 10);
    }
  }

  lemma {:induction false} ValueOfZeros(k: nat)
    ensures ValueOf(Zeros(k)) == 0
  {
    if k > 0 {
      ValueOfZeros(k - 1);
      assert Zeros(k)[..k - 1] == Zeros(k - 1);
    }
  }

  /** Leading zeros do not change the value of a string of digits. */
  lemma {:induction false} LeadingZeros(k: nat, s: string)
    requires IsDigits(s)
    ensures IsDigits(Zeros(k) + s) && ValueOf(Zeros(k) + s) == ValueOf(s)
    decreases |s|
  {
    if |s| == 0 {
      assert Zeros(k) + s == Zeros(k);
      ValueOfZeros(k);
    } else {
      LeadingZeros(k, s[..|s| - 1]);
      assert (Zeros(k) + s)[..|Zeros(k) + s| - 1] == Zeros(k) + s[..|s| - 1];
    }
  }

  /** The padded digits denote the sequence number itself. */
  lemma PaddedValue(n: nat, minimumLength: nat)
    ensures IsDigits(PadLeft(Decimal(n), minimumLength))
    ensures ValueOf(PadLeft(Decimal(n), minimumLength)) == n
  {
    DecimalRoundTrip(n);
    if |Decimal(n)| < minimumLength {
      LeadingZeros(minimumLength - |Decimal(n)|, Decimal(n));
    }
  }

  lemma {:induction false} Pow10Monotone(a: nat, b: nat)
    requires a <= b
    ensures Pow10(a) <= Pow10(b)
    decreases b
  {
    if a < b {
      Pow10Monotone(a, b - 1);
    }
  }

  /** `Decimal(n)` has `k` digits exactly when `n` lies below 10^k and, unless it is 0, at or above 10^(k-1). */
  lemma {:induction false} DecimalLength(n: nat)
    ensures n < Pow10(|Decimal(n)|)
    ensures n > 0 ==> Pow10(|Decimal(n)| - 1) <= n
  {
    if n >= 10 {
      DecimalLength(n / 10);
    }
  }

  /**
   * Padding to `minimumLength` gives exactly that many characters when the number is below
   * 10^minimumLength (a length of 2 gives "00" up to "99"), and the number's own, longer,
   * digits otherwise.
   */
  lemma PaddedWidth(n: nat, minimumLength: nat)
    ensures |PadLeft(Decimal(n), minimumLength)| >= minimumLength
    ensures minimumLength >= 1 ==>
      (|PadLeft(Decimal(n), minimumLength)| == minimumLength <==> n < Pow10(minimumLength))
    ensures n >= Pow10(minimumLength) ==> PadLeft(Decimal(n), minimumLength) == Decimal(n)
  {
    var d := Decimal(n);
    DecimalLength(n);
    if |d| <= minimumLength {
      Pow10Monotone(|d|, minimumLength);
    } else {
      Pow10Monotone(minimumLength, |d| - 1);
      if n == 0 {
        assert d == "0";
      }
    }
  }

  // ---------------------------------------------------------------------------------------
  // Separators

  lemma {:induction false} UnslashAppend(a: string, b: string)
    ensures Unslash(a + b) == Unslash(a) + Unslash(b)
    decreases |b|
  {
    if |b| == 0 {
      assert a + b == a;
    } else {
      UnslashAppend(a, b[..|b| - 1]);
      assert (a + b)[..|a + b| - 1] == a + b[..|b| - 1];
    }
  }

  lemma {:induction false} UnslashPlain(s: string)
    requires '/' !in s
    ensures Unslash(s) == s
    decreases |s|
  {
    if |s| > 0 {
      UnslashPlain(s[..|s| - 1]);
    }
  }

  /** Removing the separators gives back the grouped string. */
  lemma {:induction false} UnslashGroup(s: string, groupingLength: nat)
    requires '/' !in s
    ensures Unslash(Group(s, groupingLength)) == s
    decreases |s|
  {
    if groupingLength == 0 || |s| <= groupingLength {
      UnslashPlain(s);
    } else {
      var k := |s| - groupingLength;
      UnslashGroup(s[..k], groupingLength);
      UnslashAppend(Group(s[..k], groupingLength) + "/", s[k..]);
      UnslashAppend(Group(s[..k], groupingLength), "/");
      UnslashPlain(s[k..]);
      assert s[..k] + s[k..] == s;
    }
  }

  lemma {:induction false} GroupIsJoin(s: string, groupingLength: nat)
    requires groupingLength > 0
    ensures Group(s, groupingLength) == Join(Chunks(s, groupingLength))
    decreases |s|
  {
    if |s| > groupingLength {
      var k := |s| - groupingLength;
      GroupIsJoin(s[..k], groupingLength);
      var cs := Chunks(s, groupingLength);
      assert cs[..|cs| - 1] == Chunks(s[..k], groupingLength);
    }
  }

  function Concat(chunks: seq<string>): string
  {
    if |chunks| == 0 then "" else Concat(chunks[..|chunks| - 1]) + chunks[|chunks| - 1]
  }

  /**
   * The chunks of a non-empty string: the first holds 1 to `groupingLength` characters, every
   * other exactly `groupingLength`; written one after another they give the string back, so
   * there are ceil(|s| / groupingLength) of them.
   */
  lemma {:induction false} ChunksShape(s: string, groupingLength: nat)
    requires groupingLength > 0 && |s| >= 1
    ensures var cs := Chunks(s, groupingLength);
      |cs| >= 1 &&
      Concat(cs) == s &&
      1 <= |cs[0]| <= groupingLength &&
      (forall k :: 1 <= k < |cs| ==> |cs[k]| == groupingLength)
    decreases |s|
  {
    var cs := Chunks(s, groupingLength);
    if |s| > groupingLength {
      var k := |s| - groupingLength;
      ChunksShape(s[..k], groupingLength);
      var front := Chunks(s[..k], groupingLength);
      assert cs == front + [s[k..]];
      assert cs[..|cs| - 1] == front;
      assert s[..k] + s[k..] == s;
      forall j | 1 <= j < |cs|
        ensures |cs[j]| == groupingLength
      {
        if j < |front| {
          assert cs[j] == front[j];
        }
      }
      assert cs[0] == front[0];
    }
  }

  /** There are ceil(|s| / groupingLength) chunks: one fewer would not hold `s`, and these do. */
  lemma {:induction false} ChunksCount(s: string, groupingLength: nat)
    requires groupingLength > 0 && |s| >= 1
    ensures |Chunks(s, groupingLength)| >= 1
    ensures (|Chunks(s, groupingLength)| - 1) * groupingLength < |s| <= |Chunks(s, groupingLength)| * groupingLength
    decreases |s|
  {
    if |s| > groupingLength {
      var k := |s| - groupingLength;
      ChunksCount(s[..k], groupingLength);
      var n := |Chunks(s[..k], groupingLength)|;
      assert |Chunks(s, groupingLength)| == n + 1;
      assert (n + 1) * groupingLength == n * groupingLength + groupingLength;
      assert (n - 1) * groupingLength == n * groupingLength - groupingLength;
    }
  }

  /** Every character of every chunk comes from `s`, so chunks of a string of digits hold no '/'. */
  lemma {:induction false} ChunksPlain(s: string, groupingLength: nat)
    requires groupingLength > 0 && IsDigits(s) && |s| >= 1
    ensures forall k :: 0 <= k < |Chunks(s, groupingLength)| ==>
      |Chunks(s, groupingLength)[k]| >= 1 && '/' !in Chunks(s, groupingLength)[k]
    decreases |s|
  {
    var cs := Chunks(s, groupingLength);
    if |s| > groupingLength {
      var k := |s| - groupingLength;
      ChunksPlain(s[..k], groupingLength);
      assert cs == Chunks(s[..k], groupingLength) + [s[k..]];
      assert '/' !in s[k..] by {
        forall j | 0 <= j < |s[k..]|
          ensures s[k..][j] != '/'
        {
          assert s[k..][j] == s[k + j];
        }
      }
    } else {
      assert forall j :: 0 <= j < |s| ==> s[j] != '/';
    }
  }

  // ---------------------------------------------------------------------------------------
  // Names

  /** A formatted name reads back as its sequence number. */
  lemma ParseFormatRoundTrip(n: nat, minimumLength: nat, groupingLength: nat, suffix: string)
    ensures ParseName(FormattedName(n, minimumLength, groupingLength, suffix), suffix) == Some(n)
  {
    var digits := PadLeft(Decimal(n), minimumLength);
    var grouped := Group(digits, groupingLength);
    var name := FormattedName(n, minimumLength, groupingLength, suffix);
    PaddedValue(n, minimumLength);
    PaddedWidth(n, minimumLength);
    assert '/' !in digits by {
      forall j | 0 <= j < |digits|
        ensures digits[j] != '/'
      {
        assert IsDigit(digits[j]);
      }
    }
    UnslashGroup(digits, groupingLength);
    assert name[..|name| - |suffix|] == grouped;
    assert name[|name| - |suffix|..] == suffix;
  }

  /** Different sequence numbers get different names under one format. */
  lemma FormattedNameInjective(n1: nat, n2: nat, minimumLength: nat, groupingLength: nat, suffix: string)
    requires FormattedName(n1, minimumLength, groupingLength, suffix) == FormattedName(n2, minimumLength, groupingLength, suffix)
    ensures n1 == n2
  {
    ParseFormatRoundTrip(n1, minimumLength, groupingLength, suffix);
    ParseFormatRoundTrip(n2, minimumLength, groupingLength, suffix);
  }

  lemma DecimalHundred()
    ensures Decimal(100) == "100" && Decimal(1000) == "1000"
  {
    assert Decimal(1) == "1";
    assert Decimal(10) == "10";
  }

  /** The formats of the formatter's own test cases, without separators. */
  lemma FormatterTestVectorsFlat()
    ensures FormattedName(100, 0, 0, ".osc.gz") == "100.osc.gz"
    ensures FormattedName(100, 9, 0, ".osc.gz") == "000000100.osc.gz"
  {
    DecimalHundred();
    assert Zeros(6) == "000000";
  }

  lemma GroupedThousand()
    ensures Group("1000", 3) == "1/000"
  {
    assert "1000"[..1] == "1";
    assert "1000"[1..] == "000";
  }

  lemma GroupedNineDigits()
    ensures Group("000000100", 3) == "000/000/100"
  {
    assert "000000100"[..6] == "000000";
    assert "000000100"[6..] == "100";
    assert Group("000000", 3) == "000/000" by {
      assert "000000"[..3] == "000";
      assert "000000"[3..] == "000";
    }
  }

  /** The formats of the formatter's own test cases with groups of three digits. */
  lemma FormatterTestVectorsGrouped()
    ensures FormattedName(1000, 0, 3, ".osc.gz") == "1/000.osc.gz"
    ensures FormattedName(100, 9, 3, ".osc.gz") == "000/000/100.osc.gz"
  {
    DecimalHundred();
    assert PadLeft("100", 9) == "000000100" by {
      assert Zeros(6) == "000000";
    }
    GroupedThousand();
    GroupedNineDigits();
  }
}
