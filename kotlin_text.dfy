/** The Kotlin text primitives the device-config codec relies on: `Int.toString`,
    `String.toInt` (decimal, an optional sign, the 32-bit range, no trimming) and
    `String.split` on one delimiter, which keeps empty parts. */
module KotlinText {
  import opened Wrappers

  const MinInt: int := -0x8000_0000
  const MaxInt: int := 0x7FFF_FFFF

  /** Kotlin's Int. */
  newtype int32 = x: int | -0x8000_0000 <= x < 0x8000_0000

  predicate IsDigit(c: char)
  {
    '0' <= c <= '9'
  }

  predicate AllDigits(s: string)
  {
    forall i :: 0 <= i < |s| ==> IsDigit(s[i])
  }

  function DigitChar(d: nat): (c: char)
    requires d < 10
    ensures IsDigit(c) && DigitValue(c) == d
  {
    (('0' as int) + d) as char
  }

  function DigitValue(c: char): (d: nat)
    requires IsDigit(c)
    ensures d < 10
  {
    (c as int) - ('0' as int)
  }

  /** The value of a string of decimal digits, most significant first. */
  function ParseDigits(s: string): nat
    requires AllDigits(s)
  {
    if |s| == 0 then 0 else ParseDigits(s[..|s| - 1]) * 10 + DigitValue(s[|s| - 1])
  }

  /** The canonical decimal numeral of a natural number: digits only, no leading zero,
      and reading it back gives the number. */
  function NatToString(n: nat): (s: string)
    ensures |s| >= 1 && AllDigits(s)
    ensures s[0] != '0' || s == "0"
    ensures ParseDigits(s) == n
  {
    if n < 10 then [DigitChar(n)]
    else
      var prefix := NatToString(n / 10);
      var s := prefix + [DigitChar(n % 10)];
      assert s[..|s| - 1] == prefix;
      s
  }

  /** Int.toString: a minus sign for negative values, then the canonical numeral. */
  function IntToString(n: int32): (s: string)
    ensures |s| >= 1 && (s[0] == '-' || IsDigit(s[0]))
    ensures forall i :: 0 < i < |s| ==> IsDigit(s[i])
    ensures s[0] == '-' <==> n < 0
  {
    if n < 0 then "-" + NatToString(-(n as int)) else NatToString(n as int)
  }

  /** String.toInt, or null where Kotlin throws NumberFormatException: an optional '+' or
      '-', then at least one digit and nothing else, whose value lies in the Int range. */
  function ToInt(s: string): (r: Option<int32>)
    ensures r.Some? ==> |s| >= 1 && s[|s| - 1] != '+' && s[|s| - 1] != '-'
    ensures r.Some? && s[0] == '-' ==> r.value <= 0
    ensures r.Some? && s[0] != '-' ==> r.value >= 0
  {
    if |s| == 0 then None
    else
      var negative := s[0] == '-';
      var digits := if s[0] == '-' || s[0] == '+' then s[1..] else s;
      if |digits| == 0 || !AllDigits(digits) then None
      else
        var v: int := if negative then -(ParseDigits(digits) as int) else ParseDigits(digits);
        if MinInt <= v <= MaxInt then Some(v as int32) else None
  }

  /** Reading back what Int.toString writes gives the same Int. */
  lemma ToIntOfToString(n: int32)
    ensures ToInt(IntToString(n)) == Some(n)
  {
    var s := IntToString(n);
    if n < 0 {
      assert s[1..] == NatToString(-(n as int));
    }
  }

  /** A numeral that parses and is canonical is exactly what Int.toString writes: the
      printer and the parser are inverse on canonical text. */
  lemma ToStringOfToInt(s: string)
    requires ToInt(s).Some?
    requires s[0] != '+'
    requires s[0] == '-' ==> |s| >= 2 && s[1] != '0'
    requires s[0] != '-' ==> s[0] != '0' || s == "0"
    ensures IntToString(ToInt(s).value) == s
  {
    var n := ToInt(s).value;
    if s[0] == '-' {
      NumeralUnique(s[1..], NatToString(-(n as int)));
    } else {
      NumeralUnique(s, NatToString(n as int));
    }
  }

  /** Two canonical numerals with the same value are the same text. */
  lemma {:induction false} NumeralUnique(a: string, b: string)
    requires |a| >= 1 && AllDigits(a) && (a[0] != '0' || a == "0")
    requires |b| >= 1 && AllDigits(b) && (b[0] != '0' || b == "0")
    requires ParseDigits(a) == ParseDigits(b)
    ensures a == b
    decreases |a|
  {
    var a', b' := a[..|a| - 1], b[..|b| - 1];
    var da, db := DigitValue(a[|a| - 1]), DigitValue(b[|b| - 1]);
    assert da == db && ParseDigits(a') == ParseDigits(b') by {
      assert ParseDigits(a) == ParseDigits(a') * 10 + da;
      assert ParseDigits(b) == ParseDigits(b') * 10 + db;
    }
    if |a| == 1 || |b| == 1 {
      if |a| > 1 {
        LeadingDigitPositive(a');
      } else if |b| > 1 {
        LeadingDigitPositive(b');
      }
    } else {
      NumeralUnique(a', b');
      assert a == a' + [a[|a| - 1]] && b == b' + [b[|b| - 1]];
    }
  }

  /** A numeral that does not start with '0' has a positive value. */
  lemma {:induction false} LeadingDigitPositive(s: string)
    requires |s| >= 1 && AllDigits(s) && s[0] != '0'
    ensures ParseDigits(s) > 0
    decreases |s|
  {
    if |s| > 1 {
      LeadingDigitPositive(s[..|s| - 1]);
    }
  }

  /** Kotlin rejects empty and sign-only text and does not trim. */
  lemma ToIntRejectsMalformed()
    ensures ToInt("") == None && ToInt("+") == None && ToInt("-") == None
    ensures ToInt(" 1") == None && ToInt("1 ") == None && ToInt("1,2") == None
  {
    assert !IsDigit(" 1"[0]) && !IsDigit("1 "[1]) && !IsDigit("1,2"[1]);
  }

  /** Kotlin accepts leading zeros, an explicit plus sign and a negative zero. */
  lemma ToIntAcceptsSignsAndZeros()
    ensures ToInt("+7") == Some(7) && ToInt("007") == Some(7) && ToInt("-0") == Some(0)
  {
    assert "+7"[1..] == "7" && "-0"[1..] == "0";
    assert ParseDigits("00") == 0 by { assert "00"[..1] == "0"; }
    assert "007"[..2] == "00";
  }

  /** The accepted values are exactly the 32-bit ones. */
  lemma ToIntBounds()
    ensures ToInt("2147483647") == Some(0x7FFF_FFFF) && ToInt("2147483648") == None
    ensures ToInt("-2147483648") == Some(-0x8000_0000) && ToInt("-2147483649") == None
  {
    BoundaryNumerals();
    assert "-2147483648"[1..] == "2147483648" && "-2147483649"[1..] == "2147483649";
  }

  /** The values of the numerals around the Int bounds. */
  lemma BoundaryNumerals()
    ensures ParseDigits("2147483647") == 2147483647
    ensures ParseDigits("2147483648") == 2147483648
    ensures ParseDigits("2147483649") == 2147483649
  {
    assert ParseDigits("21") == 21 by { assert "21"[..1] == "2"; }
    assert ParseDigits("214") == 214 by { assert "214"[..2] == "21"; }
    assert ParseDigits("2147") == 2147 by { assert "2147"[..3] == "214"; }
    assert ParseDigits("21474") == 21474 by { assert "21474"[..4] == "2147"; }
    assert ParseDigits("214748") == 214748 by { assert "214748"[..5] == "21474"; }
    assert ParseDigits("2147483") == 2147483 by { assert "2147483"[..6] == "214748"; }
    assert ParseDigits("21474836") == 21474836 by { assert "21474836"[..7] == "2147483"; }
    assert ParseDigits("214748364") == 214748364 by { assert "214748364"[..8] == "21474836"; }
    assert "2147483647"[..9] == "214748364";
    assert "2147483648"[..9] == "214748364" && "2147483649"[..9] == "214748364";
  }

  /** String.split on one delimiter: every occurrence separates two parts, and empty
      parts, leading and trailing ones included, are kept. */
  function Split(s: string, d: char): (parts: seq<string>)
    ensures |parts| >= 1
    ensures forall i :: 0 <= i < |parts| ==> d !in parts[i]
    ensures Join(parts, d) == s
  {
    if |s| == 0 then [""]
    else
      var rest := Split(s[1..], d);
      if s[0] == d then [""] + rest
      else
        var parts := [[s[0]] + rest[0]] + rest[1..];
        assert parts[1..] == rest[1..];
        parts
  }

  /** The parts, with one delimiter between neighbours. */
  function Join(parts: seq<string>, d: char): string
    requires |parts| >= 1
  {
    if |parts| == 1 then parts[0] else parts[0] + [d] + Join(parts[1..], d)
  }

  /** Splitting parts that do not contain the delimiter gives them back. */
  lemma {:induction false} SplitJoin(parts: seq<string>, d: char)
    requires |parts| >= 1
    requires forall i :: 0 <= i < |parts| ==> d !in parts[i]
    ensures Split(Join(parts, d), d) == parts
    decreases |parts|
  {
    if |parts| == 1 {
      SplitNoDelimiter(parts[0], d);
    } else {
      SplitJoin(parts[1..], d);
      SplitAfterPart(parts[0], Join(parts[1..], d), d);
      assert parts == [parts[0]] + parts[1..];
    }
  }

  /** Text without the delimiter splits into itself. */
  lemma {:induction false} SplitNoDelimiter(p: string, d: char)
    requires d !in p
    ensures Split(p, d) == [p]
  {
    if |p| > 0 {
      SplitNoDelimiter(p[1..], d);
      assert [p[0]] + p[1..] == p;
    }
  }

  /** A part followed by the delimiter splits off as the first part. */
  lemma {:induction false} SplitAfterPart(p: string, rest: string, d: char)
    requires d !in p
    ensures Split(p + [d] + rest, d) == [p] + Split(rest, d)
  {
    if |p| == 0 {
      assert p + [d] + rest == [d] + rest;
      assert ([d] + rest)[1..] == rest;
    } else {
      var s := p + [d] + rest;
      assert s[1..] == p[1..] + [d] + rest;
      SplitAfterPart(p[1..], rest, d);
      assert [p[0]] + p[1..] == p;
    }
  }
}
