/** The pieces of the Java string library the plugin relies on:
    `Integer.toString` (through `%s` / `printf` of a number),
    `String.split("/")` and the `%s` conversion of `String.format`. */
module JavaText {
  import opened Wrappers

  // ---------------------------------------------------------------------
  // Decimal rendering of integers
  // ---------------------------------------------------------------------

  predicate IsDigit(c: char) { '0' <= c <= '9' }

  predicate AllDigits(s: string) { forall i :: 0 <= i < |s| ==> IsDigit(s[i]) }

  function DigitChar(d: nat): (c: char)
    requires d < 10
    ensures IsDigit(c) && c as int - '0' as int == d
  {
    ('0' as int + d) as char
  }

  /** The text Java prints for a non-negative number. */
  function Decimal(n: nat): (s: string)
    ensures |s| >= 1 && AllDigits(s)
    ensures s[0] == '0' ==> n == 0
    decreases n
  {
    if n < 10 then [DigitChar(n)] else Decimal(n / 10) + [DigitChar(n % 10)]
  }

  /** The value of a string of decimal digits: the reading side of `Decimal`. */
  function DecimalValue(s: string): nat
    requires AllDigits(s)
    decreases |s|
  {
    if s == [] then 0
    else DecimalValue(s[..|s| - 1]) * 10 + (s[|s| - 1] as int - '0' as int)
  }

  lemma {:induction false} DecimalRoundTrip(n: nat)
    ensures DecimalValue(Decimal(n)) == n
    decreases n
  {
    if n >= 10 {
      DecimalRoundTrip(n / 10);
      var s := Decimal(n);
      assert s[..|s| - 1] == Decimal(n / 10);
    }
  }

  /** `Integer.toString` / `%s` of an `int`: a minus sign for negative values. */
  function IntToString(n: int): (s: string)
    ensures |s| >= 1
    ensures n >= 0 <==> AllDigits(s)
  {
    if n < 0 then
      var s := "-" + Decimal(-n);
      assert !IsDigit(s[0]);
      s
    else Decimal(n)
  }

  /** Reads back what `IntToString` prints; `None` for anything else. */
  function ParseInt(s: string): Option<int> {
    if |s| >= 2 && s[0] == '-' && AllDigits(s[1..]) then Some(-(DecimalValue(s[1..]) as int))
    else if |s| >= 1 && AllDigits(s) then Some(DecimalValue(s))
    else None
  }

  lemma IntToStringRoundTrip(n: int)
    ensures ParseInt(IntToString(n)) == Some(n)
  {
    if n < 0 {
      DecimalRoundTrip(-n);
      assert IntToString(n)[1..] == Decimal(-n);
    } else {
      DecimalRoundTrip(n);
    }
  }

  // ---------------------------------------------------------------------
  // String.split with a one-character separator and no limit
  // ---------------------------------------------------------------------

  /** All the pieces between occurrences of `sep`, empty ones included
      (one more piece than there are separators). */
  function Segments(s: string, sep: char): (parts: seq<string>)
    ensures |parts| >= 1
    decreases |s|
  {
    if s == [] then [""]
    else
      var init := Segments(s[..|s| - 1], sep);
      var c := s[|s| - 1];
      if c == sep then init + [""]
      else init[..|init| - 1] + [init[|init| - 1] + [c]]
  }

  /** Rejoins pieces with `sep` between them. */
  function Join(parts: seq<string>, sep: char): string
    requires |parts| >= 1
    decreases |parts|
  {
    if |parts| == 1 then parts[0]
    else Join(parts[..|parts| - 1], sep) + [sep] + parts[|parts| - 1]
  }

  /** The segments are the pieces the separator cuts out of the string:
      they rejoin to it and none of them holds the separator. */
  lemma {:induction false} SegmentsJoin(s: string, sep: char)
    ensures Join(Segments(s, sep), sep) == s
    ensures forall i :: 0 <= i < |Segments(s, sep)| ==> sep !in Segments(s, sep)[i]
    decreases |s|
  {
    if s != [] {
      var t := s[..|s| - 1];
      SegmentsJoin(t, sep);
      var init := Segments(t, sep);
      var c := s[|s| - 1];
      assert s == t + [c];
      if c != sep {
        var parts := Segments(s, sep);
        assert parts[..|parts| - 1] == init[..|init| - 1];
        if |init| == 1 {
          assert Join(parts, sep) == init[0] + [c];
        } else {
          assert init[..|init| - 1][..|init| - 2] == init[..|init| - 2];
          JoinLast(init, sep);
          JoinLast(parts, sep);
        }
      } else {
        var parts := Segments(s, sep);
        assert parts[..|parts| - 1] == init;
      }
    }
  }

  lemma JoinLast(parts: seq<string>, sep: char)
    requires |parts| >= 2
    ensures Join(parts, sep) == Join(parts[..|parts| - 1], sep) + [sep] + parts[|parts| - 1]
  {
  }

  /** Java removes the empty strings at the end of a split result. */
  function DropTrailingEmpty(parts: seq<string>): (r: seq<string>)
    ensures |r| <= |parts| && r == parts[..|r|]
    ensures |r| > 0 ==> r[|r| - 1] != ""
    ensures forall i :: |r| <= i < |parts| ==> parts[i] == ""
    decreases |parts|
  {
    if parts == [] then []
    else if parts[|parts| - 1] == "" then DropTrailingEmpty(parts[..|parts| - 1])
    else parts
  }

  /** `s.split(sep)`: when the separator does not occur the result is the
      whole string (even the empty one); otherwise the segments with the
      trailing empty ones removed, which may leave nothing at all. */
  function Split(s: string, sep: char): seq<string> {
    if sep !in s then [s] else DropTrailingEmpty(Segments(s, sep))
  }

  /** `s` with every trailing `sep` removed. */
  function TrimTrailing(s: string, sep: char): (t: string)
    ensures |t| <= |s| && t == s[..|t|]
    ensures t != [] ==> t[|t| - 1] != sep
    ensures forall i :: |t| <= i < |s| ==> s[i] == sep
    decreases |s|
  {
    if s != [] && s[|s| - 1] == sep then TrimTrailing(s[..|s| - 1], sep) else s
  }

  /** The characters after the last `sep` of `s` (all of `s` if it has none). */
  function AfterLast(s: string, sep: char): (t: string)
    ensures |t| <= |s| && t == s[|s| - |t|..]
    ensures sep !in t
    ensures |t| < |s| ==> s[|s| - |t| - 1] == sep
    decreases |s|
  {
    if s == [] || s[|s| - 1] == sep then []
    else AfterLast(s[..|s| - 1], sep) + [s[|s| - 1]]
  }

  lemma {:induction false} LastSegment(s: string, sep: char)
    ensures var parts := Segments(s, sep); parts[|parts| - 1] == AfterLast(s, sep)
    decreases |s|
  {
    if s != [] {
      LastSegment(s[..|s| - 1], sep);
    }
  }

  /** A separator followed by separator-free text ends with that text. */
  lemma {:induction false} AfterLastOfSuffix(p: string, q: string, sep: char)
    requires sep !in q
    ensures AfterLast(p + [sep] + q, sep) == q
    decreases |q|
  {
    if q == [] {
      assert p + [sep] + q == p + [sep];
    } else {
      var s := p + [sep] + q;
      assert s[..|s| - 1] == p + [sep] + q[..|q| - 1];
      assert q == q[..|q| - 1] + [q[|q| - 1]];
      AfterLastOfSuffix(p, q[..|q| - 1], sep);
    }
  }

  /** Trailing separators only add trailing empty segments. */
  lemma {:induction false} DropTrailingOfTrim(s: string, sep: char)
    ensures DropTrailingEmpty(Segments(s, sep)) == DropTrailingEmpty(Segments(TrimTrailing(s, sep), sep))
    decreases |s|
  {
    if s != [] && s[|s| - 1] == sep {
      var init := Segments(s[..|s| - 1], sep);
      assert Segments(s, sep)[..|Segments(s, sep)| - 1] == init;
      DropTrailingOfTrim(s[..|s| - 1], sep);
    }
  }

  /** The last element of a split, when there is one, is the text after the
      last separator once trailing separators are removed; there is none
      exactly when the string is made of separators only. */
  lemma SplitLast(s: string, sep: char)
    ensures Split(s, sep) == [] <==> (s != [] && TrimTrailing(s, sep) == [])
    ensures Split(s, sep) != [] ==>
      Split(s, sep)[|Split(s, sep)| - 1] == AfterLast(TrimTrailing(s, sep), sep)
  {
    var t := TrimTrailing(s, sep);
    if sep !in s {
      if s != [] {
        assert s[|s| - 1] in s;
      }
      assert t == s;
      AfterLastWhole(s, sep);
    } else {
      DropTrailingOfTrim(s, sep);
      if t != [] {
        LastSegment(t, sep);
        assert AfterLast(t, sep) != [];
      }
    }
  }

  lemma {:induction false} AfterLastWhole(s: string, sep: char)
    requires sep !in s
    ensures AfterLast(s, sep) == s
    decreases |s|
  {
    if s != [] {
      assert s == s[..|s| - 1] + [s[|s| - 1]];
      AfterLastWhole(s[..|s| - 1], sep);
    }
  }

  // ---------------------------------------------------------------------
  // String.format restricted to %s and %%
  // ---------------------------------------------------------------------

  datatype FormatError = UnknownFormatConversion | MissingFormatArgument

  /** Every `%` starts one of the two conversions the model knows. */
  predicate WellFormed(t: string)
    decreases |t|
  {
    if t == [] then true
    else if t[0] != '%' then WellFormed(t[1..])
    else |t| >= 2 && (t[1] == 's' || t[1] == '%') && WellFormed(t[2..])
  }

  function Prepend(p: string, r: Result<string, FormatError>): Result<string, FormatError> {
    match r
    case Ok(v) => Ok(p + v)
    case Err(e) => Err(e)
  }

  /** Substitutes the arguments in order; unused arguments are ignored. */
  function Substitute(t: string, args: seq<string>): Result<string, FormatError>
    decreases |t|
  {
    if t == [] then Ok([])
    else if t[0] != '%' then Prepend([t[0]], Substitute(t[1..], args))
    else if |t| >= 2 && t[1] == '%' then Prepend("%", Substitute(t[2..], args))
    else if |t| >= 2 && t[1] == 's' then
      if args == [] then Err(MissingFormatArgument)
      else Prepend(args[0], Substitute(t[2..], args[1..]))
    else Err(UnknownFormatConversion)
  }

  /** `String.format(t, args...)`: the whole template is checked before any
      argument is consumed, so a bad conversion wins over a missing argument. */
  function Format(t: string, args: seq<string>): Result<string, FormatError> {
    if !WellFormed(t) then Err(UnknownFormatConversion) else Substitute(t, args)
  }

  /** A literal prefix without `%` passes through formatting unchanged. */
  lemma {:induction false} FormatLiteralPrefix(a: string, t: string, args: seq<string>)
    requires '%' !in a
    ensures WellFormed(a + t) == WellFormed(t)
    ensures Substitute(a + t, args) == Prepend(a, Substitute(t, args))
    decreases |a|
  {
    if a != [] {
      assert a[0] in a;
      assert (a + t)[0] == a[0];
      assert (a + t)[1..] == a[1..] + t;
      assert a == [a[0]] + a[1..];
      FormatLiteralPrefix(a[1..], t, args);
      match Substitute(t, args)
      case Ok(v) => assert [a[0]] + (a[1..] + v) == a + v;
      case Err(_) =>
    } else {
      assert a + t == t;
      match Substitute(t, args)
      case Ok(v) => assert a + v == v;
      case Err(_) =>
    }
  }

  /** A `%s` takes the next argument verbatim. */
  lemma FormatArgPrefix(t: string, arg: string, args: seq<string>)
    ensures WellFormed("%s" + t) == WellFormed(t)
    ensures Substitute("%s" + t, [arg] + args) == Prepend(arg, Substitute(t, args))
  {
    assert ("%s" + t)[2..] == t;
    assert ([arg] + args)[1..] == args;
  }

  lemma FormatNoConversions(t: string, args: seq<string>)
    requires '%' !in t
    ensures Format(t, args) == Ok(t)
  {
    FormatLiteralPrefix(t, [], args);
    assert t + [] == t;
  }
}
