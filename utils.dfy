/**
 * The small converters of utils.go: `toBool`, `toUint`, `toInt`,
 * `parseStringSlice`, `parseIntSlice`, `toCamelCase` and `toKebabCase`.
 *
 * `toUint` and `toInt` follow Go's `strconv.ParseUint(v, 10, 64)` and
 * `strconv.Atoi` on a 64-bit platform, including the value they hand back
 * alongside an error: 0 after a syntax error, the largest magnitude of the
 * type after a range error.
 */
module Utils {
  import opened Wrappers
  import opened Text
  import Primitives

  const MaxUint64: nat := 0xFFFF_FFFF_FFFF_FFFF
  const MaxInt64: int := 0x7FFF_FFFF_FFFF_FFFF
  const MinInt64: int := -0x8000_0000_0000_0000

  /** `toBool`: an empty value means true; otherwise `strconv.ParseBool`, with false when it fails. */
  function ToBool(v: string): (b: bool)
    ensures v == "" ==> b
    ensures v != "" ==> (b <==> Primitives.ParseBool(v) == Some(true))
    ensures Primitives.ParseBool(v) == Some(false) ==> !b
  {
    if v == "" then true
    else Primitives.ParseBool(v).GetOr(false)
  }

  /** What `strconv.ParseUint` reports: a value, a syntax error or a range error. */
  datatype Parsed = Value(n: nat) | SyntaxError | RangeError

  function DigitValue(c: char): nat
    requires IsAsciiDigit(c)
  {
    c as int - '0' as int
  }

  /**
   * `strconv.ParseUint(s, 10, 64)` on the first characters of `s`, left to
   * right: the first non-digit is a syntax error and the first digit that
   * carries the value past 2^64-1 is a range error, whichever comes first.
   */
  function ScanUint(s: string): (r: Parsed)
    ensures r.Value? ==> r.n <= MaxUint64
    decreases |s|
  {
    if s == [] then Value(0)
    else
      match ScanUint(s[..|s| - 1])
      case SyntaxError => SyntaxError
      case RangeError => RangeError
      case Value(n) =>
        if !IsAsciiDigit(s[|s| - 1]) then SyntaxError
        else if n * 10 + DigitValue(s[|s| - 1]) > MaxUint64 then RangeError
        else Value(n * 10 + DigitValue(s[|s| - 1]))
  }

  /** `strconv.ParseUint(s, 10, 64)`: the empty string is a syntax error. */
  function ParseUint(s: string): Parsed {
    if s == [] then SyntaxError else ScanUint(s)
  }

  /** `toUint`: the decimal value, 0 after a syntax error, 2^64-1 after a range error. */
  function ToUint(v: string): (u: nat)
    ensures u <= MaxUint64
    ensures ParseUint(v) == SyntaxError ==> u == 0
    ensures ParseUint(v).Value? ==> u == ParseUint(v).n
    ensures ParseUint(v) == RangeError ==> u == MaxUint64
  {
    match ParseUint(v)
    case Value(n) => n
    case SyntaxError => 0
    case RangeError => MaxUint64
  }

  /**
   * `toInt`, that is `strconv.Atoi`: an optional sign, then the digits as
   * `ParseUint` reads them; out-of-range magnitudes are clamped to the
   * 64-bit bounds and a syntax error gives 0.
   */
  function ToInt(v: string): (i: int)
    ensures MinInt64 <= i <= MaxInt64
    ensures v == [] ==> i == 0
  {
    if v == [] then 0
    else
      var neg := v[0] == '-';
      var digits := if v[0] == '-' || v[0] == '+' then v[1..] else v;
      match ParseUint(digits)
      case SyntaxError => 0
      case RangeError => if neg then MinInt64 else MaxInt64
      case Value(n) =>
        if !neg && n > MaxInt64 then MaxInt64
        else if neg && n > -MinInt64 then MinInt64
        else if neg then 0 - n as int
        else n
  }

  /** `strconv.Atoi` accepts `v` without error. */
  predicate AtoiOk(v: string) {
    v != [] &&
    var digits := if v[0] == '-' || v[0] == '+' then v[1..] else v;
    ParseUint(digits).Value? &&
    (if v[0] == '-' then ParseUint(digits).n <= -MinInt64 else ParseUint(digits).n <= MaxInt64)
  }

  /** The canonical decimal text of `n`, as `strconv.FormatUint` writes it. */
  function Decimal(n: nat): (s: string)
    ensures s != []
    ensures forall j :: 0 <= j < |s| ==> IsAsciiDigit(s[j])
  {
    if n < 10 then [('0' as int + n) as char]
    else Decimal(n / 10) + [('0' as int + n % 10) as char]
  }

  /** The canonical decimal text of `i`, as `strconv.Itoa` writes it. */
  function IntDecimal(i: int): string {
    if i < 0 then "-" + Decimal(-i) else Decimal(i)
  }

  /** Reading back the decimal text of any 64-bit unsigned value gives that value. */
  lemma {:induction false} ScanDecimal(n: nat)
    requires n <= MaxUint64
    ensures ScanUint(Decimal(n)) == Value(n)
  {
    var s := Decimal(n);
    if n < 10 {
      assert s[..0] == [];
    } else {
      ScanDecimal(n / 10);
      assert s[..|s| - 1] == Decimal(n / 10);
    }
  }

  /** `toUint` inverts decimal formatting on the whole 64-bit range. */
  lemma ToUintDecimal(n: nat)
    requires n <= MaxUint64
    ensures ToUint(Decimal(n)) == n
  {
    ScanDecimal(n);
  }

  /** `toInt` inverts decimal formatting on the whole 64-bit signed range, and reports no error there. */
  lemma ToIntDecimal(i: int)
    requires MinInt64 <= i <= MaxInt64
    ensures AtoiOk(IntDecimal(i))
    ensures ToInt(IntDecimal(i)) == i
  {
    var v := IntDecimal(i);
    if i < 0 {
      ScanDecimal(-i);
      assert v[1..] == Decimal(-i);
    } else {
      ScanDecimal(i);
      assert v[0] != '-' && v[0] != '+';
    }
  }

  /** A prefix scan of at most 19 characters can never overflow: 10^19 - 1 < 2^64. */
  lemma {:induction false} ScanShort(s: string, bound: nat)
    requires |s| <= 19 && bound == Pow10(|s|)
    ensures !ScanUint(s).RangeError?
    ensures ScanUint(s).Value? ==> ScanUint(s).n < bound
    decreases |s|
  {
    if s != [] {
      ScanShort(s[..|s| - 1], Pow10(|s| - 1));
      Pow10Bound(|s| - 1);
    }
  }

  function Pow10(k: nat): nat {
    if k == 0 then 1 else 10 * Pow10(k - 1)
  }

  lemma {:induction false} Pow10Bound(k: nat)
    requires k < 19
    ensures Pow10(k) * 10 <= MaxUint64
  {
    Pow10UpTo(k);
    assert Pow10(18) == 1_000_000_000_000_000_000 by {
      assert Pow10(6) == 1_000_000;
      assert Pow10(12) == 1_000_000_000_000;
    }
  }

  lemma {:induction false} Pow10UpTo(k: nat)
    requires k <= 18
    ensures Pow10(k) <= Pow10(18)
    decreases 18 - k
  {
    if k < 18 {
      Pow10UpTo(k + 1);
    }
  }

  /** A scan that meets a non-digit before it overflows answers a syntax error. */
  lemma {:induction false} ScanNonDigit(s: string, j: nat)
    requires j < |s| && !IsAsciiDigit(s[j]) && |s| <= 19
    ensures ScanUint(s) == SyntaxError
    decreases |s|
  {
    ScanShort(s, Pow10(|s|));
    if j < |s| - 1 {
      ScanNonDigit(s[..|s| - 1], j);
    }
  }

  /** Up to 19 characters, a value with any non-digit is a syntax error and `toUint` answers 0. */
  lemma ToUintNonDigit(v: string, j: nat)
    requires j < |v| <= 19 && !IsAsciiDigit(v[j])
    ensures ToUint(v) == 0
  {
    ScanNonDigit(v, j);
  }

  /** A value whose first character after the sign is not a digit gives 0 from `toInt`. */
  lemma ToIntNotNumber(v: string)
    requires v != []
    requires var digits := if v[0] == '-' || v[0] == '+' then v[1..] else v;
      digits == [] || !IsAsciiDigit(digits[0])
    ensures ToInt(v) == 0 && !AtoiOk(v)
  {
    var digits := if v[0] == '-' || v[0] == '+' then v[1..] else v;
    if digits != [] {
      ScanNonDigit(digits[..1], 0);
      ScanPrefixSyntax(digits, 1);
    }
  }

  /** Once a prefix is a syntax error, so is every longer prefix. */
  lemma {:induction false} ScanPrefixSyntax(s: string, k: nat)
    requires 0 < k <= |s| && ScanUint(s[..k]) == SyntaxError
    ensures ScanUint(s) == SyntaxError
    decreases |s| - k
  {
    if k < |s| {
      assert s[..k + 1][..k] == s[..k];
      ScanPrefixSyntax(s, k + 1);
    } else {
      assert s[..k] == s;
    }
  }

  /** Every character of `s` is an ASCII digit. */
  ghost predicate AllDigits(s: string) {
    forall j :: 0 <= j < |s| ==> IsAsciiDigit(s[j])
  }

  /** The plain decimal value of a run of digits, with no bound. */
  ghost function DigitsValue(s: string): nat
    requires AllDigits(s)
  {
    if s == [] then 0 else DigitsValue(s[..|s| - 1]) * 10 + DigitValue(s[|s| - 1])
  }

  /** What `strconv.Atoi` reads after the optional sign. */
  function AtoiDigits(v: string): string
    requires v != []
  {
    if v[0] == '-' || v[0] == '+' then v[1..] else v
  }

  /** `x` clamped to the 64-bit signed range. */
  function Clamp64(x: int): int {
    if x < MinInt64 then MinInt64 else if x > MaxInt64 then MaxInt64 else x
  }

  /** On digits only, the scan gives the decimal value, or a range error once it exceeds 2^64-1. */
  lemma {:induction false} ScanAllDigits(s: string)
    requires AllDigits(s)
    ensures ScanUint(s) == if DigitsValue(s) <= MaxUint64 then Value(DigitsValue(s)) else RangeError
    decreases |s|
  {
    if s != [] {
      var init := s[..|s| - 1];
      assert AllDigits(init) by {
        forall j | 0 <= j < |init| ensures IsAsciiDigit(init[j]) {
          assert init[j] == s[j];
        }
      }
      ScanAllDigits(init);
      assert DigitsValue(s) >= DigitsValue(init) * 10;
    }
  }

  /**
   * A signed run of digits: `toInt` is its value clamped to the 64-bit
   * range, and `strconv.Atoi` accepts it iff no clamping was needed.
   */
  lemma ToIntDigits(v: string)
    requires v != [] && AtoiDigits(v) != [] && AllDigits(AtoiDigits(v))
    ensures var n: int := DigitsValue(AtoiDigits(v));
      var signed: int := if v[0] == '-' then -n else n;
      ToInt(v) == Clamp64(signed) && (AtoiOk(v) <==> MinInt64 <= signed <= MaxInt64)
  {
    ScanAllDigits(AtoiDigits(v));
  }

  /**
   * The first non-digit after the sign sits at `p`: `toInt` is 0 when the
   * digits before it fit in 64 bits (a syntax error comes first), and the
   * clamped bound of the sign when they do not (a range error comes first).
   */
  lemma ToIntNonDigit(v: string, p: nat)
    requires v != [] && p < |AtoiDigits(v)| && !IsAsciiDigit(AtoiDigits(v)[p])
    requires AllDigits(AtoiDigits(v)[..p])
    ensures !AtoiOk(v)
    ensures ToInt(v) == if DigitsValue(AtoiDigits(v)[..p]) <= MaxUint64 then 0
                        else if v[0] == '-' then MinInt64 else MaxInt64
  {
    var d := AtoiDigits(v);
    ScanAllDigits(d[..p]);
    assert d[..p + 1][..p] == d[..p];
    if DigitsValue(d[..p]) <= MaxUint64 {
      assert ScanUint(d[..p + 1]) == SyntaxError;
      ScanPrefixSyntax(d, p + 1);
    } else {
      ScanPrefixRange(d, p);
    }
  }

  /** Once a prefix is a range error, so is every longer prefix. */
  lemma {:induction false} ScanPrefixRange(s: string, k: nat)
    requires k <= |s| && ScanUint(s[..k]) == RangeError
    ensures ScanUint(s) == RangeError
    decreases |s| - k
  {
    if k < |s| {
      assert s[..k + 1][..k] == s[..k];
      ScanPrefixRange(s, k + 1);
    } else {
      assert s[..k] == s;
    }
  }

  /** `toInt("12a")` is 0: the letter after the digits is a syntax error. */
  lemma ToIntTrailingLetter(v: string)
    requires v == "12a"
    ensures ToInt(v) == 0 && !AtoiOk(v)
  {
    var d := AtoiDigits(v);
    var t := d[..2];
    assert d == v && t == ['1', '2'];
    assert AllDigits(t);
    var one := t[..1];
    assert one == ['1'] && one[..0] == [] && AllDigits(one);
    assert DigitsValue(one) == DigitsValue(one[..0]) * 10 + DigitValue('1') == 1;
    assert DigitsValue(t) == DigitsValue(one) * 10 + DigitValue('2') == 12;
    ToIntNonDigit(v, 2);
  }

  // ---------------------------------------------------------------------
  // Space-separated slices
  // ---------------------------------------------------------------------

  /** `parseStringSlice`: the pieces of `val` between single spaces, empty pieces kept, in order. */
  method ParseStringSlice(val: string) returns (result: seq<string>)
    ensures result == Split(val, " ")
    ensures |result| == Count(val, ' ') + 1
    ensures Join(result, " ") == val
    ensures forall p :: p in result ==> !Contains(p, " ")
  {
    var ss := Split(val, " ");
    result := [];
    for i := 0 to |ss|
      invariant result == ss[..i]
    {
      result := result + [ss[i]];
    }
    assert ss[..|ss|] == ss;
    SplitCharCount(val, ' ');
    SplitJoin(val, " ");
    SplitPiecesAvoidSeparator(val, " ");
  }

  /** `toInt` of every piece, in order. */
  function IntsOf(pieces: seq<string>): (r: seq<int>)
    ensures |r| == |pieces|
    ensures forall i :: 0 <= i < |pieces| ==> r[i] == ToInt(pieces[i])
  {
    if pieces == [] then [] else [ToInt(pieces[0])] + IntsOf(pieces[1..])
  }

  /**
   * `parseIntSlice` as written: one `toInt` value per space-separated piece,
   * a piece that is not a number giving 0.
   */
  method ParseIntSliceAsWritten(val: string) returns (result: seq<int>)
    ensures result == IntsOf(Split(val, " "))
    ensures |result| == Count(val, ' ') + 1
  {
    var ss := Split(val, " ");
    result := [];
    for i := 0 to |ss|
      invariant |result| == i
      invariant forall j :: 0 <= j < i ==> result[j] == ToInt(ss[j])
    {
      result := result + [ToInt(ss[i])];
    }
    assert result == IntsOf(ss);
    SplitCharCount(val, ' ');
  }

  /** The `toInt` values of the pieces `strconv.Atoi` accepts, in order; the other pieces are dropped. */
  function NumbersOf(pieces: seq<string>): (r: seq<int>)
    ensures |r| <= |pieces|
    ensures forall x :: x in r ==> exists p :: p in pieces && AtoiOk(p) && ToInt(p) == x
    ensures (forall p :: p in pieces ==> AtoiOk(p)) ==> r == IntsOf(pieces)
  {
    if pieces == [] then []
    else
      var rest := NumbersOf(pieces[1..]);
      if AtoiOk(pieces[0]) then [ToInt(pieces[0])] + rest else rest
  }

  /**
   * `parseIntSlice` as its tests expect it: the numbers among the
   * space-separated pieces, with every piece `strconv.Atoi` rejects dropped.
   */
  method ParseIntSlice(val: string) returns (result: seq<int>)
    ensures result == NumbersOf(Split(val, " "))
  {
    var ss := Split(val, " ");
    result := [];
    var i := |ss|;
    while i > 0
      invariant 0 <= i <= |ss|
      invariant result == NumbersOf(ss[i..])
    {
      i := i - 1;
      assert ss[i..][1..] == ss[i + 1..];
      if AtoiOk(ss[i]) {
        result := [ToInt(ss[i])] + result;
      }
    }
  }

  /** Splitting at the first occurrence of a one-character separator. */
  lemma SplitCharFirst(a: string, c: char, b: string)
    requires c !in a
    ensures Split(a + [c] + b, [c]) == [a] + Split(b, [c])
  {
    var s := a + [c] + b;
    assert s[|a|..|a| + 1] == [c];
    assert OccursAt(s, [c], |a|);
    forall j | 0 <= j < |a| ensures !OccursAt(s, [c], j) {
      assert s[j..j + 1] == [a[j]];
    }
    var i := IndexOf(s, [c]);
    assert i == |a|;
    assert s[..i] == a;
    assert s[i + 1..] == b;
    SplitFound(s, [c]);
  }

  /** A string without the separator splits into itself. */
  lemma SplitCharNone(a: string, c: char)
    requires c !in a
    ensures Split(a, [c]) == [a]
  {
    forall j | 0 <= j < |a| ensures !OccursAt(a, [c], j) {
      assert a[j..j + 1] == [a[j]];
    }
    assert IndexOf(a, [c]) == -1;
  }

  /** Three pieces without the one-character separator, joined by it, split back into those pieces. */
  lemma SplitThree(a: string, b: string, c: string, sep: char)
    requires sep !in a && sep !in b && sep !in c
    ensures Split(a + [sep] + b + [sep] + c, [sep]) == [a, b, c]
  {
    var tail := b + [sep] + c;
    assert a + [sep] + b + [sep] + c == a + [sep] + tail;
    SplitCharFirst(a, sep, tail);
    SplitTwo(b, c, sep);
    assert [a] + [b, c] == [a, b, c];
  }

  /** Two pieces without the one-character separator, joined by it, split back into those pieces. */
  lemma SplitTwo(b: string, c: string, sep: char)
    requires sep !in b && sep !in c
    ensures Split(b + [sep] + c, [sep]) == [b, c]
  {
    SplitCharNone(c, sep);
    SplitCharFirst(b, sep, c);
  }

  lemma SplitTwelveFake()
    ensures Split("12 fake 23", " ") == ["12", "fake", "23"]
  {
    assert "12 fake 23" == "12" + [' '] + "fake" + [' '] + "23";
    SplitThree("12", "fake", "23", ' ');
  }

  lemma SplitPaddedTwelve()
    ensures Split(" 12 ", " ") == ["", "12", ""]
  {
    SplitSpaced(" 12 ", "", "12", "");
  }

  /** A text without a space is its own single piece. */
  lemma SplitNoSpace(s: string)
    requires ' ' !in s
    ensures Split(s, " ") == [s]
  {
    SplitCharNone(s, ' ');
  }

  /** A text with two single spaces splits into the three pieces around them. */
  lemma SplitSpaced(s: string, a: string, b: string, c: string)
    requires ' ' !in a && ' ' !in b && ' ' !in c && s == a + " " + b + " " + c
    ensures Split(s, " ") == [a, b, c]
  {
    assert s == a + [' '] + b + [' '] + c;
    SplitThree(a, b, c, ' ');
  }

  /** The unit tests of `parseStringSlice`: `"1 2 3"` and `"abc"`. */
  lemma StringSliceExamples()
    ensures Split("1 2 3", " ") == ["1", "2", "3"]
    ensures Split("abc", " ") == ["abc"]
  {
    assert Split("1 2 3", " ") == ["1", "2", "3"] by { SplitSpaced("1 2 3", "1", "2", "3"); }
    SplitNoSpace("abc");
  }

  lemma DecimalExamples()
    ensures IntDecimal(1) == "1" && IntDecimal(2) == "2" && IntDecimal(3) == "3"
    ensures IntDecimal(12) == "12" && IntDecimal(23) == "23" && IntDecimal(123) == "123"
  {
    assert Decimal(1) == "1";
    assert Decimal(2) == "2";
    assert Decimal(3) == "3";
    assert Decimal(12) == Decimal(1) + "2";
    assert Decimal(23) == Decimal(2) + "3";
    assert Decimal(123) == Decimal(12) + "3";
  }

  lemma SmallInts()
    ensures ToInt("1") == 1 && ToInt("2") == 2 && ToInt("3") == 3
    ensures ToInt("12") == 12 && ToInt("23") == 23 && ToInt("123") == 123
    ensures AtoiOk("1") && AtoiOk("2") && AtoiOk("3") && AtoiOk("12") && AtoiOk("23") && AtoiOk("123")
  {
    DecimalExamples();
    ToIntDecimal(1);
    ToIntDecimal(2);
    ToIntDecimal(3);
    ToIntDecimal(12);
    ToIntDecimal(23);
    ToIntDecimal(123);
  }

  /**
   * As written, `parseIntSlice("12 fake 23")` keeps a 0 for `fake`, where
   * the unit test expects `[12, 23]`.
   */
  lemma IntSliceKeepsNonNumbers()
    ensures IntsOf(Split("12 fake 23", " ")) == [12, 0, 23] != [12, 23]
  {
    SplitTwelveFake();
    IntsOfThree("12", "fake", "23");
    SmallInts();
    ToIntNotNumber("fake");
  }

  /**
   * As written, `parseIntSlice(" 12 ")` keeps a 0 for each empty piece, where
   * the unit test expects `[12]`.
   */
  lemma IntSliceKeepsEmpty()
    ensures IntsOf(Split(" 12 ", " ")) == [0, 12, 0] != [12]
  {
    SplitPaddedTwelve();
    IntsOfThree("", "12", "");
    SmallInts();
  }

  lemma IntsOfThree(a: string, b: string, c: string)
    ensures IntsOf([a, b, c]) == [ToInt(a), ToInt(b), ToInt(c)]
  {
    assert [a, b, c][1..] == [b, c] && [b, c][1..] == [c];
  }

  /** Dropping the pieces `strconv.Atoi` rejects meets the unit tests of `parseIntSlice` on `"1 2 3"` and `"123"`. */
  lemma IntSliceNumbersExamples()
    ensures NumbersOf(Split("1 2 3", " ")) == [1, 2, 3]
    ensures NumbersOf(Split("123", " ")) == [123]
  {
    SmallInts();
    NumbersOfSpaced("1 2 3", "1", "2", "3", 1, 2, 3);
    NumbersOfUnspaced("123", 123);
  }

  /** Three numerals separated by single spaces give their three numbers. */
  lemma NumbersOfSpaced(s: string, a: string, b: string, c: string, x: int, y: int, z: int)
    requires ' ' !in a && ' ' !in b && ' ' !in c && s == a + " " + b + " " + c
    requires AtoiOk(a) && AtoiOk(b) && AtoiOk(c) && ToInt(a) == x && ToInt(b) == y && ToInt(c) == z
    ensures NumbersOf(Split(s, " ")) == [x, y, z]
  {
    SplitSpaced(s, a, b, c);
    NumbersOfThree(a, b, c);
  }

  /** A numeral without a space gives its one number. */
  lemma NumbersOfUnspaced(s: string, x: int)
    requires ' ' !in s && AtoiOk(s) && ToInt(s) == x
    ensures NumbersOf(Split(s, " ")) == [x]
  {
    SplitNoSpace(s);
    assert [s][1..] == [];
  }


  /** `NumbersOf` on three pieces keeps, in order, the value of each piece `strconv.Atoi` accepts. */
  lemma NumbersOfThree(a: string, b: string, c: string)
    ensures NumbersOf([a, b, c]) ==
      (if AtoiOk(a) then [ToInt(a)] else []) + (if AtoiOk(b) then [ToInt(b)] else []) + (if AtoiOk(c) then [ToInt(c)] else [])
  {
    assert [a, b, c][1..] == [b, c] && [b, c][1..] == [c] && [c][1..] == [];
    var na, nb, nc := (if AtoiOk(a) then [ToInt(a)] else []), (if AtoiOk(b) then [ToInt(b)] else []), (if AtoiOk(c) then [ToInt(c)] else []);
    assert NumbersOf([c]) == nc + [];
    assert NumbersOf([b, c]) == nb + NumbersOf([c]);
    assert NumbersOf([a, b, c]) == na + NumbersOf([b, c]);
  }

  /** Dropping the pieces `strconv.Atoi` rejects meets the unit test "ignore non-number". */
  lemma IntSliceDropsNonNumber()
    ensures NumbersOf(Split("12 fake 23", " ")) == [12, 23]
  {
    SplitTwelveFake();
    NumbersOfThree("12", "fake", "23");
    SmallInts();
    ToIntNotNumber("fake");
  }

  /** Dropping the pieces `strconv.Atoi` rejects meets the unit test "trim space". */
  lemma IntSliceDropsEmpty()
    ensures NumbersOf(Split(" 12 ", " ")) == [12]
  {
    SplitPaddedTwelve();
    NumbersOfThree("", "12", "");
    SmallInts();
    assert !AtoiOk("");
  }

  // ---------------------------------------------------------------------
  // Case conversion
  // ---------------------------------------------------------------------

  /** `toCamelCase`: dashes become word breaks, every word is title-cased, and the breaks are removed. */
  function ToCamelCase(str: string): (r: string)
    ensures ' ' !in r && '-' !in r
  {
    var t := Title(ReplaceChar(str, '-', ' '));
    assert '-' !in t by {
      TitleKeepsChar(ReplaceChar(str, '-', ' '), true, '-');
    }
    RemoveCharSpec(t, ' ', '-');
    RemoveCharSpec(t, ' ', ' ');
    RemoveChar(t, ' ')
  }

  /** `Title` changes only ASCII lower-case letters, so other characters are present before iff after. */
  lemma {:induction false} TitleKeepsChar(s: string, after: bool, c: char)
    requires !IsAsciiLower(c) && !IsAsciiUpper(c)
    ensures c in TitleFrom(s, after) <==> c in s
  {
    if s != [] {
      TitleKeepsChar(s[1..], IsSeparator(s[0]), c);
      assert s == [s[0]] + s[1..];
    }
  }

  /** Every character that starts a word (at the start, or after a separator) is already upper-case. */
  predicate Titled(s: string, after: bool) {
    s == [] || ((after ==> UpperChar(s[0]) == s[0]) && Titled(s[1..], IsSeparator(s[0])))
  }

  lemma {:induction false} TitleIsTitled(s: string, after: bool)
    ensures Titled(TitleFrom(s, after), after)
  {
    if s != [] {
      TitleIsTitled(s[1..], IsSeparator(s[0]));
      var c := if after then UpperChar(s[0]) else s[0];
      assert IsSeparator(c) == IsSeparator(s[0]);
      assert TitleFrom(s, after)[1..] == TitleFrom(s[1..], IsSeparator(s[0]));
    }
  }

  lemma {:induction false} TitledFixed(s: string, after: bool)
    requires Titled(s, after)
    ensures TitleFrom(s, after) == s
  {
    if s != [] {
      TitledFixed(s[1..], IsSeparator(s[0]));
    }
  }

  /** Removing spaces keeps a titled string titled: a space is a separator, so the character after it was already upper-case. */
  lemma {:induction false} RemoveSpacesTitled(s: string, a: bool, b: bool)
    requires Titled(s, a) && (b ==> a)
    ensures Titled(RemoveChar(s, ' '), b)
  {
    if s != [] {
      if s[0] == ' ' {
        assert IsSeparator(' ');
        assert RemoveChar(s, ' ') == RemoveChar(s[1..], ' ');
        RemoveSpacesTitled(s[1..], true, b);
      } else {
        RemoveSpacesTitled(s[1..], IsSeparator(s[0]), IsSeparator(s[0]));
        assert RemoveChar(s, ' ') == [s[0]] + RemoveChar(s[1..], ' ');
        assert RemoveChar(s, ' ')[1..] == RemoveChar(s[1..], ' ');
      }
    }
  }

  lemma {:induction false} RemoveCharAbsent(s: string, a: char)
    requires a !in s
    ensures RemoveChar(s, a) == s
  {
    if s != [] {
      RemoveCharAbsent(s[1..], a);
    }
  }

  /** A camel-cased name is its own camel case: `toCamelCase` is idempotent. */
  lemma CamelCaseIdempotent(str: string)
    ensures ToCamelCase(ToCamelCase(str)) == ToCamelCase(str)
  {
    var t := Title(ReplaceChar(str, '-', ' '));
    TitleIsTitled(ReplaceChar(str, '-', ' '), true);
    RemoveSpacesTitled(t, true, true);
    var r := ToCamelCase(str);
    assert r == RemoveChar(t, ' ');
    assert ReplaceChar(r, '-', ' ') == r;
    TitledFixed(r, true);
    RemoveCharAbsent(r, ' ');
  }

  lemma CamelCaseDashes(s: string)
    requires s == "camel-case"
    ensures ReplaceChar(s, '-', ' ') == "camel case"
  {
  }

  /** `Title` of a run of lower-case letters upper-cases at most its first letter. */
  lemma {:induction false} TitleLowerWord(w: string, after: bool)
    requires w != [] && forall j :: 0 <= j < |w| ==> IsAsciiLower(w[j])
    ensures TitleFrom(w, after) == [if after then UpperChar(w[0]) else w[0]] + w[1..]
  {
    if |w| > 1 {
      TitleLowerWord(w[1..], false);
    }
  }

  /** `Title` of a concatenation: the second part continues from the separator status of the first part's last character. */
  lemma {:induction false} TitleAppend(s: string, t: string, after: bool)
    requires s != []
    ensures TitleFrom(s + t, after) == TitleFrom(s, after) + TitleFrom(t, IsSeparator(s[|s| - 1]))
  {
    assert (s + t)[0] == s[0];
    assert (s + t)[1..] == s[1..] + t;
    if |s| > 1 {
      TitleAppend(s[1..], t, IsSeparator(s[0]));
    }
  }

  lemma TitleSpaceCase()
    ensures TitleFrom(" case", false) == " Case"
  {
    var w := "case";
    TitleLowerWord(w, true);
    var rest := [' '] + w;
    assert rest == " case";
    assert rest[0] == ' ' && rest[1..] == w;
  }

  lemma CamelCaseTitle(s: string)
    requires s == "camel case"
    ensures Title(s) == "Camel Case"
  {
    TitleLowerWord("camel", true);
    TitleSpaceCase();
    assert s == "camel" + " case";
    TitleAppend("camel", " case", true);
  }

  /** Removing the one space between two words joins them. */
  lemma RemoveSpaceBetween(a: string, b: string)
    requires ' ' !in a && ' ' !in b
    ensures RemoveChar(a + " " + b, ' ') == a + b
  {
    var t := [' '] + b;
    assert a + " " + b == a + t;
    assert t[0] == ' ' && t[1..] == b;
    assert RemoveChar(t, ' ') == RemoveChar(b, ' ');
    RemoveCharAppend(a, t, ' ');
    RemoveCharAbsent(a, ' ');
    RemoveCharAbsent(b, ' ');
  }

  lemma {:induction false} RemoveCharAppend(s: string, t: string, a: char)
    ensures RemoveChar(s + t, a) == RemoveChar(s, a) + RemoveChar(t, a)
  {
    if s == [] {
      assert s + t == t;
    } else {
      var head := if s[0] == a then [] else [s[0]];
      assert (s + t)[0] == s[0] && (s + t)[1..] == s[1..] + t;
      assert RemoveChar(s + t, a) == head + RemoveChar(s[1..] + t, a);
      RemoveCharAppend(s[1..], t, a);
      assert RemoveChar(s, a) == head + RemoveChar(s[1..], a);
    }
  }

  /** The unit tests of `toCamelCase`: `"camel-case"` becomes `"CamelCase"`, which stays as it is. */
  lemma CamelCaseExamples(kebab: string, camel: string)
    requires kebab == "camel-case" && camel == "CamelCase"
    ensures ToCamelCase(kebab) == camel
    ensures ToCamelCase(camel) == camel
  {
    CamelCaseDashes(kebab);
    CamelCaseTitle(ReplaceChar(kebab, '-', ' '));
    RemoveSpaceBetween("Camel", "Case");
    assert "Camel" + " " + "Case" == "Camel Case";
    CamelCaseIdempotent(kebab);
  }

  /** The run of ASCII lower-case letters at the start of `s`. */
  function LowerRun(s: string): (k: nat)
    ensures k <= |s|
    ensures forall j :: 0 <= j < k ==> IsAsciiLower(s[j])
    ensures k < |s| ==> !IsAsciiLower(s[k])
  {
    if s != [] && IsAsciiLower(s[0]) then 1 + LowerRun(s[1..]) else 0
  }

  /**
   * `matchFirstCap.ReplaceAllString(str, "${1}-${2}")` with the pattern
   * `(.)([A-Z][a-z]+)`: left to right, every character other than a newline
   * followed by an upper-case letter and a run of lower-case letters gets a
   * dash before that upper-case letter; matches do not overlap.
   */
  function SplitFirstCaps(s: string): (r: string)
    decreases |s|
  {
    if |s| < 3 then s
    else if s[0] != '\n' && IsAsciiUpper(s[1]) && IsAsciiLower(s[2]) then
      var k := 2 + LowerRun(s[2..]);
      [s[0], '-'] + s[1..k] + SplitFirstCaps(s[k..])
    else [s[0]] + SplitFirstCaps(s[1..])
  }

  /**
   * `matchAllCap.ReplaceAllString(str, "${1}-${2}")` with the pattern
   * `([a-z0-9])([A-Z])`: a dash between a lower-case letter or digit and the
   * upper-case letter that follows it, matches not overlapping.
   */
  function SplitAllCaps(s: string): (r: string)
    decreases |s|
  {
    if |s| < 2 then s
    else if (IsAsciiLower(s[0]) || IsAsciiDigit(s[0])) && IsAsciiUpper(s[1]) then
      [s[0], '-', s[1]] + SplitAllCaps(s[2..])
    else [s[0]] + SplitAllCaps(s[1..])
  }

  /** `toKebabCase`: dashes before the capitals, then everything lower-cased. */
  function ToKebabCase(str: string): (r: string)
    ensures forall j :: 0 <= j < |r| ==> !IsAsciiUpper(r[j])
  {
    ToLower(SplitAllCaps(SplitFirstCaps(str)))
  }

  predicate NoUpper(s: string) {
    forall j :: 0 <= j < |s| ==> !IsAsciiUpper(s[j])
  }

  lemma {:induction false} FirstCapsNoUpper(s: string)
    requires NoUpper(s)
    ensures SplitFirstCaps(s) == s
    decreases |s|
  {
    if |s| >= 3 {
      FirstCapsNoUpper(s[1..]);
    }
  }

  lemma {:induction false} AllCapsNoUpper(s: string)
    requires NoUpper(s)
    ensures SplitAllCaps(s) == s
    decreases |s|
  {
    if |s| >= 2 {
      AllCapsNoUpper(s[1..]);
    }
  }

  /** A name without capitals is already in kebab case: `toKebabCase` leaves it unchanged. */
  lemma KebabCaseFixed(str: string)
    requires NoUpper(str)
    ensures ToKebabCase(str) == str
  {
    FirstCapsNoUpper(str);
    AllCapsNoUpper(str);
  }

  /** `toKebabCase` is idempotent. */
  lemma KebabCaseIdempotent(str: string)
    ensures ToKebabCase(ToKebabCase(str)) == ToKebabCase(str)
  {
    KebabCaseFixed(ToKebabCase(str));
  }

  /** No match of `matchFirstCap` starts at a character followed by one that is not upper-case. */
  lemma FirstCapsCons(s: string)
    requires |s| >= 2 && !IsAsciiUpper(s[1])
    ensures SplitFirstCaps(s) == [s[0]] + SplitFirstCaps(s[1..])
  {
    if |s| < 3 {
      assert s == [s[0]] + s[1..];
    }
  }

  /** No match of `matchAllCap` starts at a character followed by one that is not upper-case. */
  lemma AllCapsCons(s: string)
    requires |s| >= 2 && !IsAsciiUpper(s[1])
    ensures SplitAllCaps(s) == [s[0]] + SplitAllCaps(s[1..])
  {
  }

  /** Without an upper-case letter at positions 1 to `k - 1`, no match of `matchFirstCap` starts before `k - 1`. */
  lemma {:induction false} FirstCapsSkip(s: string, k: nat)
    requires 1 <= k <= |s|
    requires forall j :: 1 <= j < k ==> !IsAsciiUpper(s[j])
    ensures SplitFirstCaps(s) == s[..k - 1] + SplitFirstCaps(s[k - 1..])
    decreases k
  {
    if k > 1 {
      FirstCapsSkip(s, k - 1);
      var u := s[k - 2..];
      FirstCapsCons(u);
      assert u[1..] == s[k - 1..];
      assert SplitFirstCaps(u) == [u[0]] + SplitFirstCaps(s[k - 1..]);
      assert s[..k - 1] == s[..k - 2] + [u[0]];
    } else {
      assert s[..0] == [] && s[0..] == s;
    }
  }

  /** Without an upper-case letter at positions 1 to `k - 1`, no match of `matchAllCap` starts before `k - 1`. */
  lemma {:induction false} AllCapsSkip(s: string, k: nat)
    requires 1 <= k <= |s|
    requires forall j :: 1 <= j < k ==> !IsAsciiUpper(s[j])
    ensures SplitAllCaps(s) == s[..k - 1] + SplitAllCaps(s[k - 1..])
    decreases k
  {
    if k > 1 {
      AllCapsSkip(s, k - 1);
      var u := s[k - 2..];
      AllCapsCons(u);
      assert u[1..] == s[k - 1..];
      assert s[..k - 1] == s[..k - 2] + [u[0]];
    } else {
      assert s[..0] == [] && s[0..] == s;
    }
  }

  lemma KebabFirstCaps(s: string)
    requires s == "CamelCase"
    ensures SplitFirstCaps(s) == "Camel-Case"
  {
    FirstCapsSkip(s, 5);
    LCase(s[4..]);
    CameLCase(s[..4], SplitFirstCaps(s[4..]));
  }

  lemma LCase(t: string)
    requires t == "lCase"
    ensures SplitFirstCaps(t) == "l-Case"
  {
    var w := t[2..];
    AseRun(w);
    assert t[1..5] == "Case" && t[5..] == [];
    assert SplitFirstCaps(t) == [t[0], '-'] + t[1..5] + SplitFirstCaps(t[5..]);
  }

  lemma AseRun(w: string)
    requires w == "ase"
    ensures LowerRun(w) == 3
  {
    assert w[1..] == "se" && w[2..] == "e" && w[3..] == [];
    assert LowerRun(w[2..]) == 1 && LowerRun(w[1..]) == 2;
  }

  lemma CameLCase(a: string, b: string)
    requires a == "Came" && b == "l-Case"
    ensures a + b == "Camel-Case"
  {
    assert |a + b| == 10;
  }

  lemma KebabAllCaps(s: string)
    requires s == "Camel-Case"
    ensures SplitAllCaps(s) == s
  {
    AllCapsSkip(s, 6);
    var t := s[5..];
    assert t == "-Case";
    assert SplitAllCaps(t) == "-" + SplitAllCaps(t[1..]);
    AllCapsSkip(t[1..], 4);
    assert t[1..][3..] == "e";
  }

  lemma LowerCamelCase(a: string, b: string)
    requires a == "Camel-Case" && b == "camel-case"
    ensures ToLower(a) == b && NoUpper(b)
  {
    assert |ToLower(a)| == 10;
  }

  /** The unit tests of `toKebabCase`: `"CamelCase"` becomes `"camel-case"`, which stays as it is. */
  lemma KebabCaseExamples(camel: string, kebab: string)
    requires camel == "CamelCase" && kebab == "camel-case"
    ensures ToKebabCase(camel) == kebab
    ensures ToKebabCase(kebab) == kebab
  {
    KebabFirstCaps(camel);
    KebabAllCaps(SplitFirstCaps(camel));
    LowerCamelCase("Camel-Case", kebab);
    KebabCaseFixed(kebab);
  }
}
