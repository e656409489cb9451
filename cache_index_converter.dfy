/**
 * The classpath argument cache-index converter: a list of 32-bit integers
 * stored as one string, the decimal forms joined by ";".
 */
module ClasspathArgumentCacheIndexConverter {
  import opened Wrappers

  const IntMinValue: int := -0x8000_0000
  const IntMaxValue: int := 0x7fff_ffff

  /** Kotlin's `Int`. */
  type Int32 = x: int | IntMinValue <= x <= IntMaxValue

  /** CLASSPATH_ARGUMENT_CACHE_INDEXES_SEPARATOR */
  const Separator: string := ";"

  function CountSeparators(s: string): nat {
    if |s| == 0 then 0
    else (if s[0] == Separator[0] then 1 else 0) + CountSeparators(s[1..])
  }

  predicate IsDigit(c: char) {
    '0' <= c <= '9'
  }

  predicate AllDigits(s: string) {
    forall i :: 0 <= i < |s| ==> IsDigit(s[i])
  }

  function DigitChar(d: nat): (c: char)
    requires d < 10
    ensures IsDigit(c)
  {
    (d + '0' as int) as char
  }

  function DigitValue(c: char): (d: nat)
    requires IsDigit(c)
    ensures d < 10
  {
    c as int - '0' as int
  }

  // ----- Int.toString -----

  /** The decimal digits of a natural number, most significant first, without leading zeros. */
  function DecimalDigits(n: nat): (r: string)
    ensures |r| > 0 && AllDigits(r)
  {
    if n < 10 then [DigitChar(n)] else DecimalDigits(n / 10) + [DigitChar(n % 10)]
  }

  /** Int.toString(): the decimal form, with a leading '-' for negative numbers. */
  function IntToString(n: int): (r: string)
    ensures |r| > 0
    ensures CountSeparators(r) == 0
  {
    var r := if n < 0 then "-" + DecimalDigits(-n) else DecimalDigits(n);
    NoSeparatorInDigits(DecimalDigits(if n < 0 then -n else n));
    r
  }

  lemma {:induction false} NoSeparatorInDigits(s: string)
    requires AllDigits(s)
    ensures CountSeparators(s) == 0
    ensures CountSeparators("-" + s) == 0
  {
    if |s| > 0 {
      NoSeparatorInDigits(s[1..]);
      assert ("-" + s)[1..] == s;
    }
  }

  // ----- String.toIntOrNull -----

  /** The value of a string of decimal digits. */
  function DigitsValue(s: string): nat
    requires AllDigits(s)
  {
    if |s| == 0 then 0 else DigitsValue(s[..|s| - 1]) * 10 + DigitValue(s[|s| - 1])
  }

  function InInt32Range(n: int): (r: Option<Int32>)
    ensures r.Some? <==> IntMinValue <= n <= IntMaxValue
    ensures r.Some? ==> r.value == n
  {
    if IntMinValue <= n <= IntMaxValue then Some(n) else None
  }

  /**
   * String.toIntOrNull(): an optional '+' or '-' followed by at least one
   * digit, whose value fits in 32 bits; null for anything else.
   */
  function ToIntOrNull(s: string): (r: Option<Int32>)
    ensures r.Some? ==> |s| > 0 && CountSeparators(s) == 0
  {
    if |s| == 0 then None
    else if s[0] == '-' || s[0] == '+' then
      if |s| == 1 || !AllDigits(s[1..]) then None
      else
        NoSeparatorInDigits(s[1..]);
        assert s == [s[0]] + s[1..];
        SeparatorCountConcat([s[0]], s[1..]);
        var magnitude: int := DigitsValue(s[1..]);
        InInt32Range(if s[0] == '-' then -magnitude else magnitude)
    else if AllDigits(s) then
      NoSeparatorInDigits(s);
      InInt32Range(DigitsValue(s))
    else None
  }

  // ----- split and joinToString -----

  /** String.split(";"): every segment, empty ones included, in order. */
  function Split(s: string): (r: seq<string>)
    ensures |r| == CountSeparators(s) + 1
    ensures forall i :: 0 <= i < |r| ==> CountSeparators(r[i]) == 0
  {
    if |s| == 0 then [""]
    else
      var rest := Split(s[1..]);
      if s[0] == Separator[0] then [""] + rest
      else
        assert ([s[0]] + rest[0])[1..] == rest[0];
        [[s[0]] + rest[0]] + rest[1..]
  }

  /** joinToString(";") over already formatted segments. */
  function Join(segments: seq<string>): string {
    if |segments| == 0 then ""
    else if |segments| == 1 then segments[0]
    else segments[0] + Separator + Join(segments[1..])
  }

  /** The decimal forms of a list of integers. */
  function Decimals(values: seq<Int32>): (r: seq<string>)
    ensures |r| == |values|
    ensures forall i :: 0 <= i < |values| ==> r[i] == IntToString(values[i])
  {
    if |values| == 0 then [] else [IntToString(values[0])] + Decimals(values[1..])
  }

  /** mapNotNull { it.toIntOrNull() }: the segments that parse, in their order. */
  function MapNotNull(segments: seq<string>): (r: seq<Int32>)
    ensures |r| <= |segments|
  {
    if |segments| == 0 then []
    else
      (match ToIntOrNull(segments[0])
       case None => []
       case Some(n) => [n]) + MapNotNull(segments[1..])
  }

  // ----- The converter -----

  /** ClasspathArgumentCacheIndexConverter.toString: null for the empty list, else the joined decimal forms. */
  function ToString(value: seq<Int32>): (r: Option<string>)
    ensures r.None? <==> value == []
    ensures r.Some? ==> CountSeparators(r.value) == |value| - 1
  {
    if |value| > 0 then
      JoinSeparatorCount(Decimals(value));
      Some(Join(Decimals(value)))
    else None
  }

  /** ClasspathArgumentCacheIndexConverter.fromString: never null; at most one number per segment. */
  function FromString(value: string): (r: Option<seq<Int32>>)
    ensures r.Some?
    ensures |r.value| <= CountSeparators(value) + 1
  {
    Some(MapNotNull(Split(value)))
  }

  // ----- Lemmas -----

  lemma {:induction false} SeparatorCountConcat(a: string, b: string)
    ensures CountSeparators(a + b) == CountSeparators(a) + CountSeparators(b)
    decreases |a|
  {
    if |a| == 0 {
      assert a + b == b;
    } else {
      assert (a + b)[0] == a[0] && (a + b)[1..] == a[1..] + b;
      SeparatorCountConcat(a[1..], b);
    }
  }

  /** Joining n separator-free segments puts exactly n-1 separators in the string. */
  lemma {:induction false} JoinSeparatorCount(segments: seq<string>)
    requires |segments| > 0
    requires forall i :: 0 <= i < |segments| ==> CountSeparators(segments[i]) == 0
    ensures CountSeparators(Join(segments)) == |segments| - 1
  {
    if |segments| > 1 {
      JoinSeparatorCount(segments[1..]);
      SeparatorCountConcat(segments[0], Separator);
      SeparatorCountConcat(segments[0] + Separator, Join(segments[1..]));
    }
  }

  /** Splitting at a separator splits each side independently. */
  lemma {:induction false} SplitConcat(a: string, b: string)
    ensures Split(a + Separator + b) == Split(a) + Split(b)
    decreases |a|
  {
    if |a| == 0 {
      assert a + Separator + b == Separator + b;
      assert (Separator + b)[1..] == b;
    } else {
      assert (a + Separator + b)[1..] == a[1..] + Separator + b;
      SplitConcat(a[1..], b);
    }
  }

  /** Splitting the join of separator-free segments gives the segments back. */
  lemma {:induction false} SplitJoin(segments: seq<string>)
    requires |segments| > 0
    requires forall i :: 0 <= i < |segments| ==> CountSeparators(segments[i]) == 0
    ensures Split(Join(segments)) == segments
  {
    if |segments| == 1 {
      SplitWithoutSeparator(segments[0]);
    } else {
      SplitJoin(segments[1..]);
      SplitWithoutSeparator(segments[0]);
      SplitConcat(segments[0], Join(segments[1..]));
    }
  }

  lemma {:induction false} SplitWithoutSeparator(s: string)
    requires CountSeparators(s) == 0
    ensures Split(s) == [s]
  {
    if |s| > 0 {
      SplitWithoutSeparator(s[1..]);
      assert [s[0]] + s[1..] == s;
    }
  }

  lemma {:induction false} DigitsValueOfDecimal(n: nat)
    ensures DigitsValue(DecimalDigits(n)) == n
  {
    if n >= 10 {
      DigitsValueOfDecimal(n / 10);
      var s := DecimalDigits(n);
      assert s[..|s| - 1] == DecimalDigits(n / 10);
    }
  }

  /** toIntOrNull inverts toString on 32-bit values and rejects the decimal form of anything wider. */
  lemma ToIntOrNullOfDecimal(n: int)
    ensures ToIntOrNull(IntToString(n)) == if IntMinValue <= n <= IntMaxValue then Some(n) else None
  {
    if n < 0 {
      var digits := DecimalDigits(-n);
      DigitsValueOfDecimal(-n);
      assert IntToString(n)[1..] == digits;
    } else {
      DigitsValueOfDecimal(n);
      assert IntToString(n)[0] != '-' && IntToString(n)[0] != '+';
    }
  }

  /** Empty segments, a lone sign, and segments with a non-digit after the sign are rejected. */
  lemma ToIntOrNullRejects(s: string)
    ensures |s| == 0 ==> ToIntOrNull(s).None?
    ensures s == "-" || s == "+" ==> ToIntOrNull(s).None?
    ensures (exists i :: 0 < i < |s| && !IsDigit(s[i])) ==> ToIntOrNull(s).None?
    ensures |s| > 0 && !IsDigit(s[0]) && s[0] != '-' && s[0] != '+' ==> ToIntOrNull(s).None?
  {
  }

  /** mapNotNull keeps order: the result for a concatenation is the concatenation of the results. */
  lemma {:induction false} MapNotNullConcat(x: seq<string>, y: seq<string>)
    ensures MapNotNull(x + y) == MapNotNull(x) + MapNotNull(y)
    decreases |x|
  {
    if |x| == 0 {
      assert x + y == y;
    } else {
      assert (x + y)[0] == x[0] && (x + y)[1..] == x[1..] + y;
      MapNotNullConcat(x[1..], y);
    }
  }

  /** fromString of a ";"-joined pair is the numbers of the left part followed by those of the right. */
  lemma FromStringConcat(a: string, b: string)
    ensures FromString(a + Separator + b).value == FromString(a).value + FromString(b).value
  {
    SplitConcat(a, b);
    MapNotNullConcat(Split(a), Split(b));
  }

  /** fromString keeps exactly the segments that parse as Int, in order. */
  lemma {:induction false} FromStringOfJoin(segments: seq<string>)
    requires |segments| > 0
    requires forall i :: 0 <= i < |segments| ==> CountSeparators(segments[i]) == 0
    ensures FromString(Join(segments)).value == MapNotNull(segments)
    ensures MapNotNull(segments) == MapNotNull([segments[0]]) + MapNotNull(segments[1..])
    ensures ToIntOrNull(segments[0]).None? ==> MapNotNull([segments[0]]) == []
    ensures ToIntOrNull(segments[0]).Some? ==> MapNotNull([segments[0]]) == [ToIntOrNull(segments[0]).value]
  {
    SplitJoin(segments);
    assert segments == [segments[0]] + segments[1..];
    MapNotNullConcat([segments[0]], segments[1..]);
  }

  lemma {:induction false} MapNotNullOfDecimals(values: seq<Int32>)
    ensures MapNotNull(Decimals(values)) == values
  {
    if |values| > 0 {
      ToIntOrNullOfDecimal(values[0]);
      MapNotNullOfDecimals(values[1..]);
    }
  }

  /** The ";"-segments of a stored list are exactly the decimal forms of its numbers, in order. */
  lemma ToStringSegments(value: seq<Int32>)
    requires value != []
    ensures ToString(value).Some?
    ensures Split(ToString(value).value) == Decimals(value)
  {
    SplitJoin(Decimals(value));
  }

  /** Round trip: every non-empty list comes back from the string it is stored as. */
  lemma RoundTrip(value: seq<Int32>)
    requires value != []
    ensures ToString(value).Some?
    ensures FromString(ToString(value).value) == Some(value)
  {
    ToStringSegments(value);
    MapNotNullOfDecimals(value);
  }
}
