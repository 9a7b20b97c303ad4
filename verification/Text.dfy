// The string operations of the standard library that the parsers use.
module Text {
  import opened Wrappers

  // ---- White space --------------------------------------------------------------------------

  // The Unicode white space characters.
  predicate IsSpace(c: char)
  {
    || '\t' <= c <= '\r' || c == ' ' || c == '\U{85}' || c == '\U{A0}' || c == '\U{1680}'
    || '\U{2000}' <= c <= '\U{200A}' || c == '\U{2028}' || c == '\U{2029}' || c == '\U{202F}'
    || c == '\U{205F}' || c == '\U{3000}'
  }

  function TrimStart(s: string): string
  {
    if s != "" && IsSpace(s[0]) then TrimStart(s[1..]) else s
  }

  function TrimEnd(s: string): string
  {
    if s != "" && IsSpace(s[|s| - 1]) then TrimEnd(s[..|s| - 1]) else s
  }

  function Trim(s: string): string
  {
    TrimEnd(TrimStart(s))
  }

  // Nothing to trim at the end, or at either end.
  predicate EndsFirm(s: string)
  {
    s != "" ==> !IsSpace(s[|s| - 1])
  }

  predicate Trimmed(s: string)
  {
    EndsFirm(s) && (s != "" ==> !IsSpace(s[0]))
  }

  predicate Within(t: string, s: string)
  {
    forall c :: c in t ==> c in s
  }

  lemma {:induction false} TrimStartFirm(s: string)
    ensures TrimStart(s) != "" ==> !IsSpace(TrimStart(s)[0])
    ensures Within(TrimStart(s), s)
  {
    if s != "" && IsSpace(s[0]) { TrimStartFirm(s[1..]); }
  }

  lemma {:induction false} TrimEndFirm(s: string)
    ensures EndsFirm(TrimEnd(s)) && Within(TrimEnd(s), s) && TrimEnd(s) <= s
  {
    if s != "" && IsSpace(s[|s| - 1]) { TrimEndFirm(s[..|s| - 1]); }
  }

  lemma TrimResult(s: string)
    ensures Trimmed(Trim(s)) && Within(Trim(s), s)
    ensures Trimmed(s) ==> Trim(s) == s
  {
    TrimStartFirm(s);
    TrimEndFirm(TrimStart(s));
  }

  // One leading blank goes, and nothing else.
  lemma TrimBlank(s: string)
    requires Trimmed(s)
    ensures Trim(" " + s) == s
  {
    assert (" " + s)[1..] == s;
    assert TrimStart(" " + s) == TrimStart(s) == s;
    assert TrimEnd(s) == s;
  }

  // ---- Splitting ----------------------------------------------------------------------------

  function SplitOnce(s: string, sep: char): Option<(string, string)>
  {
    if s == "" then None
    else if s[0] == sep then Some(("", s[1..]))
    else
      var rest := SplitOnce(s[1..], sep);
      if rest.Some? then Some(([s[0]] + rest.value.0, rest.value.1)) else None
  }

  lemma {:induction false} SplitOnceAt(a: string, b: string, sep: char)
    requires sep !in a
    ensures SplitOnce(a + [sep] + b, sep) == Some((a, b))
  {
    if a == "" {
      assert a + [sep] + b == [sep] + b;
    } else {
      SplitOnceAt(a[1..], b, sep);
      assert (a + [sep] + b)[1..] == a[1..] + [sep] + b;
      assert [a[0]] + a[1..] == a;
    }
  }

  lemma {:induction false} SplitOnceResult(s: string, sep: char)
    ensures SplitOnce(s, sep).None? <==> sep !in s
    ensures SplitOnce(s, sep).Some? ==>
              var (a, b) := SplitOnce(s, sep).value; s == a + [sep] + b && sep !in a
  {
    if s != "" && s[0] != sep { SplitOnceResult(s[1..], sep); }
  }

  // At most n pieces; the last one holds the rest.
  function SplitN(s: string, n: nat, sep: char): seq<string>
    requires n >= 1
    decreases n
  {
    var once := SplitOnce(s, sep);
    if n == 1 || once.None? then [s] else [once.value.0] + SplitN(once.value.1, n - 1, sep)
  }

  function Join(fields: seq<string>, sep: char, rest: string): string
  {
    if fields == [] then rest else fields[0] + [sep] + Join(fields[1..], sep, rest)
  }

  ghost predicate AllLack(fields: seq<string>, sep: char)
  {
    forall i :: 0 <= i < |fields| ==> sep !in fields[i]
  }

  lemma {:induction false} SplitNOfJoin(fields: seq<string>, sep: char, rest: string)
    requires AllLack(fields, sep)
    ensures SplitN(Join(fields, sep, rest), |fields| + 1, sep) == fields + [rest]
  {
    if fields != [] {
      SplitNOfJoin(fields[1..], sep, rest);
      SplitOnceAt(fields[0], Join(fields[1..], sep, rest), sep);
    }
  }

  // The pieces of a split: all but the last lack the separator, and joined they give the string.
  lemma {:induction false} SplitNResult(s: string, n: nat, sep: char)
    requires n >= 1
    ensures var f := SplitN(s, n, sep);
            && 1 <= |f| <= n && AllLack(f[..|f| - 1], sep) && Join(f[..|f| - 1], sep, f[|f| - 1]) == s
    decreases n
  {
    SplitOnceResult(s, sep);
    var once := SplitOnce(s, sep);
    if n > 1 && once.Some? {
      var rest := SplitN(once.value.1, n - 1, sep);
      SplitNResult(once.value.1, n - 1, sep);
      var f := SplitN(s, n, sep);
      assert f[..|f| - 1][1..] == rest[..|rest| - 1];
      assert forall i :: 0 < i < |f| - 1 ==> f[i] == rest[..|rest| - 1][i - 1];
    }
  }

  lemma {:induction false} JoinWithin(fields: seq<string>, sep: char, rest: string)
    ensures forall i :: 0 <= i < |fields| ==> Within(fields[i], Join(fields, sep, rest))
    ensures Within(rest, Join(fields, sep, rest))
    ensures forall c :: c in Join(fields, sep, rest) ==>
              c == sep || c in rest || exists i :: 0 <= i < |fields| && c in fields[i]
  {
    if fields != [] {
      JoinWithin(fields[1..], sep, rest);
      forall i | 0 <= i < |fields| ensures Within(fields[i], Join(fields, sep, rest)) {
        if i > 0 { assert fields[i] == fields[1..][i - 1]; }
      }
      forall c | c in Join(fields, sep, rest)
        ensures c == sep || c in rest || exists i :: 0 <= i < |fields| && c in fields[i]
      {
        if c in Join(fields[1..], sep, rest) && c != sep && c !in rest {
          var i :| 0 <= i < |fields[1..]| && c in fields[1..][i];
          assert c in fields[i + 1];
        }
      }
    }
  }

  function StripCr(s: string): string
  {
    if s != "" && s[|s| - 1] == '\r' then s[..|s| - 1] else s
  }

  // Lines end at "\n" or "\r\n"; the last one may lack its end.
  function Lines(s: string): seq<string>
    decreases |s|
  {
    if s == "" then []
    else
      SplitOnceResult(s, '\n');
      var once := SplitOnce(s, '\n');
      if once.None? then [s]
      else
        [StripCr(once.value.0)] + Lines(once.value.1)
  }

  function Unlines(lines: seq<string>): string
  {
    if lines == [] then "" else lines[0] + "\n" + Unlines(lines[1..])
  }

  predicate IsLine(s: string)
  {
    '\n' !in s && (s != "" ==> s[|s| - 1] != '\r')
  }

  lemma {:induction false} LinesOfUnlines(lines: seq<string>)
    requires forall i :: 0 <= i < |lines| ==> IsLine(lines[i])
    ensures Lines(Unlines(lines)) == lines
  {
    if lines != [] {
      SplitOnceAt(lines[0], Unlines(lines[1..]), '\n');
      LinesOfUnlines(lines[1..]);
    }
  }

  lemma {:induction false} UnlinesAppend(a: seq<string>, b: seq<string>)
    ensures Unlines(a + b) == Unlines(a) + Unlines(b)
  {
    if a == [] {
      assert a + b == b;
    } else {
      UnlinesAppend(a[1..], b);
      assert (a + b)[1..] == a[1..] + b;
    }
  }

  lemma {:induction false} LinesLackBreaks(s: string)
    ensures forall i :: 0 <= i < |Lines(s)| ==> '\n' !in Lines(s)[i]
    decreases |s|
  {
    SplitOnceResult(s, '\n');
    if s != "" && SplitOnce(s, '\n').Some? { LinesLackBreaks(SplitOnce(s, '\n').value.1); }
  }

  // ---- Numbers ------------------------------------------------------------------------------

  predicate IsDigit(c: char)
  {
    '0' <= c <= '9'
  }

  predicate AllDigits(s: string)
  {
    forall i :: 0 <= i < |s| ==> IsDigit(s[i])
  }

  function Value(s: string): nat
    requires AllDigits(s)
  {
    if s == "" then 0 else Value(s[..|s| - 1]) * 10 + (s[|s| - 1] as int - '0' as int)
  }

  // Parsing an unsigned number: an optional plus sign, then digits, below the type's bound.
  function ParseUnsigned(s: string, bound: nat): Option<nat>
  {
    var digits := if s != "" && s[0] == '+' then s[1..] else s;
    if digits == "" || !AllDigits(digits) || Value(digits) >= bound then None else Some(Value(digits))
  }

  function Digit(d: nat): (s: string)
    requires d < 10
    ensures |s| == 1 && IsDigit(s[0]) && s[0] as int == '0' as int + d
  {
    ['0' + d as char]
  }

  // One digit more at the end.
  lemma DigitAppends(s: string, d: nat)
    requires AllDigits(s) && d < 10
    ensures AllDigits(s + Digit(d)) && Value(s + Digit(d)) == Value(s) * 10 + d
  {
    var t := s + Digit(d);
    assert t[..|t| - 1] == s;
  }

  function Decimal(n: nat): (s: string)
    ensures s != "" && AllDigits(s)
    ensures Value(s) == n
  {
    if n < 10 then
      DigitAppends("", n);
      assert "" + Digit(n) == Digit(n);
      Digit(n)
    else
      DigitAppends(Decimal(n / 10), n % 10);
      Decimal(n / 10) + Digit(n % 10)
  }

  // At least two digits.
  function TwoDigits(n: nat): (s: string)
    ensures s != "" && AllDigits(s)
    ensures Value(s) == n
  {
    if n >= 10 then Decimal(n)
    else
      var s := "0" + Decimal(n);
      LeadingZero(Decimal(n));
      s
  }

  lemma {:induction false} LeadingZero(s: string)
    requires AllDigits(s)
    ensures AllDigits("0" + s) && Value("0" + s) == Value(s)
  {
    var t := "0" + s;
    if s == "" {
      assert t[..0] == "";
    } else {
      LeadingZero(s[..|s| - 1]);
      assert t[..|t| - 1] == "0" + s[..|s| - 1];
    }
  }

  lemma DigitsParse(s: string, bound: nat)
    requires s != "" && AllDigits(s) && Value(s) < bound
    ensures ParseUnsigned(s, bound) == Some(Value(s))
  {
  }
}
