/** The few .NET string operations the engine relies on: `char.IsWhiteSpace`,
    `string.IsNullOrWhiteSpace`, `Replace("\"", "")` and the decimal rendering
    of an integer. */
module Text {
  import opened Wrappers

  /** `char.IsWhiteSpace`: the Unicode space, line and paragraph separators,
      the control characters U+0009 to U+000D, and U+0085. */
  predicate IsWhiteSpace(c: char) {
    || c == ' '
    || ('\t' <= c <= '\r')
    || c == '\U{0085}'
    || c == '\U{00A0}'
    || c == '\U{1680}'
    || ('\U{2000}' <= c <= '\U{200A}')
    || c == '\U{2028}'
    || c == '\U{2029}'
    || c == '\U{202F}'
    || c == '\U{205F}'
    || c == '\U{3000}'
  }

  /** A string that is empty or holds only white space. */
  predicate IsBlank(s: string) {
    forall i :: 0 <= i < |s| ==> IsWhiteSpace(s[i])
  }

  /** `string.IsNullOrWhiteSpace`, with `None` for a null reference. */
  predicate IsNullOrWhiteSpace(s: Option<string>) {
    s.None? || IsBlank(s.value)
  }

  /** `s.Replace("\"", "")`: every double quote removed, every other
      character kept, in order. */
  function RemoveQuotes(s: string): (r: string)
    ensures '"' !in r
    ensures forall c :: c != '"' ==> multiset(r)[c] == multiset(s)[c]
    ensures |r| <= |s|
    ensures |s| == 1 ==> r == (if s[0] == '"' then [] else s)
  {
    if s == [] then []
    else
      assert s == [s[0]] + s[1..];
      (if s[0] == '"' then [] else [s[0]]) + RemoveQuotes(s[1..])
  }

  /** A string without double quotes is left as it is. */
  lemma {:induction false} RemoveQuotesKeepsQuoteFree(s: string)
    ensures '"' !in s ==> RemoveQuotes(s) == s
  {
    if s != [] && '"' !in s {
      assert s[0] != '"';
      assert '"' !in s[1..] by {
        forall i | 0 <= i < |s[1..]| ensures s[1..][i] != '"' {
          assert s[1..][i] == s[i + 1];
        }
      }
      RemoveQuotesKeepsQuoteFree(s[1..]);
      assert s == [s[0]] + s[1..];
    }
  }

  /** Removing quotes works piece by piece, so the kept characters stay in
      their order: with the one-character case this pins `RemoveQuotes` down. */
  lemma {:induction false} RemoveQuotesAppend(a: string, b: string)
    ensures RemoveQuotes(a + b) == RemoveQuotes(a) + RemoveQuotes(b)
    decreases |a|
  {
    if a != [] {
      assert (a + b)[1..] == a[1..] + b;
      assert (a + b)[0] == a[0];
      RemoveQuotesAppend(a[1..], b);
    } else {
      assert a + b == b;
    }
  }

  /** The body of a quoted .NET string literal: every double quote escaped
      as backslash-quote, every other character as it is. */
  function EscapeQuotes(s: string): (r: string)
    ensures |s| <= |r|
    ensures '"' !in s ==> r == s
  {
    if s == [] then []
    else
      assert s == [s[0]] + s[1..];
      (if s[0] == '"' then ['\\', '"'] else [s[0]]) + EscapeQuotes(s[1..])
  }

  /** A string as `ScalarValue.ToString()` renders it: between double
      quotes, with the quotes inside escaped. */
  function Quoted(s: string): (r: string)
    ensures |r| >= 2 && r[0] == '"' && r[|r| - 1] == '"'
  {
    ['"'] + EscapeQuotes(s) + ['"']
  }

  /** Escaping works piece by piece; with `EscapeQuotesOfChar` this pins
      `EscapeQuotes` down. */
  lemma {:induction false} EscapeQuotesAppend(a: string, b: string)
    ensures EscapeQuotes(a + b) == EscapeQuotes(a) + EscapeQuotes(b)
    decreases |a|
  {
    if a != [] {
      var head: string := if a[0] == '"' then ['\\', '"'] else [a[0]];
      assert (a + b)[1..] == a[1..] + b;
      assert (a + b)[0] == a[0];
      assert EscapeQuotes(a + b) == head + EscapeQuotes(a[1..] + b);
      assert EscapeQuotes(a) == head + EscapeQuotes(a[1..]);
      EscapeQuotesAppend(a[1..], b);
      assert head + (EscapeQuotes(a[1..]) + EscapeQuotes(b)) == (head + EscapeQuotes(a[1..])) + EscapeQuotes(b);
    } else {
      assert a + b == b;
    }
  }

  /** On one character, escaping turns a double quote into backslash-quote
      and keeps anything else. */
  lemma EscapeQuotesOfChar(c: char)
    ensures EscapeQuotes([c]) == (if c == '"' then ['\\', '"'] else [c])
  {
    assert [c][1..] == [];
  }

  /** Between its enclosing quotes, a rendered string is the escaped string. */
  lemma QuotedBody(s: string)
    ensures Quoted(s)[1..|Quoted(s)| - 1] == EscapeQuotes(s)
  {
  }

  /** Each double quote replaced by a backslash, position by position. */
  function QuotesToBackslashes(s: string): (r: string)
    ensures |r| == |s|
    ensures forall i :: 0 <= i < |s| ==> r[i] == (if s[i] == '"' then '\\' else s[i])
  {
    if s == [] then []
    else
      var rest := QuotesToBackslashes(s[1..]);
      assert forall i :: 1 <= i < |s| ==> s[1..][i - 1] == s[i];
      [if s[0] == '"' then '\\' else s[0]] + rest
  }

  /** Stripping the quotes from a rendered string leaves the string with a
      backslash where each of its own double quotes was. */
  lemma {:induction false} RemoveQuotesOfQuoted(s: string)
    ensures RemoveQuotes(Quoted(s)) == QuotesToBackslashes(s)
  {
    RemoveQuotesAppend(['"'] + EscapeQuotes(s), ['"']);
    RemoveQuotesAppend(['"'], EscapeQuotes(s));
    RemoveQuotesOfEscaped(s);
  }

  lemma {:induction false} RemoveQuotesOfEscaped(s: string)
    ensures RemoveQuotes(EscapeQuotes(s)) == QuotesToBackslashes(s)
    decreases |s|
  {
    if s != [] {
      var head: string := if s[0] == '"' then ['\\', '"'] else [s[0]];
      RemoveQuotesAppend(head, EscapeQuotes(s[1..]));
      if s[0] == '"' {
        RemoveQuotesAppend(['\\'], ['"']);
        assert head == ['\\'] + ['"'];
      }
      RemoveQuotesOfEscaped(s[1..]);
      var r := QuotesToBackslashes(s);
      assert r == [r[0]] + r[1..];
      assert r[1..] == QuotesToBackslashes(s[1..]);
    }
  }

  /** Replacing quotes by backslashes keeps a non-blank string non-blank,
      and a quote-free string unchanged. */
  lemma QuotesToBackslashesKeepsName(s: string)
    ensures !IsBlank(s) ==> !IsBlank(QuotesToBackslashes(s))
    ensures '"' !in s ==> QuotesToBackslashes(s) == s
  {
    var r := QuotesToBackslashes(s);
    if !IsBlank(s) {
      var i :| 0 <= i < |s| && !IsWhiteSpace(s[i]);
      assert !IsWhiteSpace(r[i]);
    }
  }

  predicate IsDigit(c: char) {
    '0' <= c <= '9'
  }

  function DigitChar(d: nat): (c: char)
    requires d < 10
    ensures IsDigit(c)
  {
    ('0' as int + d) as char
  }

  /** The decimal rendering of a non-negative integer, most significant
      digit first, with no leading zeros. */
  function Decimal(n: nat): (r: string)
    ensures |r| > 0
    ensures forall i :: 0 <= i < |r| ==> IsDigit(r[i])
    ensures n > 0 ==> r[0] != '0'
  {
    if n < 10 then [DigitChar(n)]
    else Decimal(n / 10) + [DigitChar(n % 10)]
  }

  /** The value a string of decimal digits denotes. */
  function DecimalValue(s: string): nat
    requires forall i :: 0 <= i < |s| ==> IsDigit(s[i])
  {
    if s == [] then 0
    else
      assert IsDigit(s[|s| - 1]);
      10 * DecimalValue(s[..|s| - 1]) + (s[|s| - 1] as int - '0' as int)
  }

  /** Reading a rendered number back gives the number. */
  lemma {:induction false} DecimalRoundTrip(n: nat)
    ensures DecimalValue(Decimal(n)) == n
  {
    var r := Decimal(n);
    if n >= 10 {
      DecimalRoundTrip(n / 10);
      assert r[..|r| - 1] == Decimal(n / 10);
    }
  }

  /** A rendered number is never blank and holds no double quote. */
  lemma DecimalIsNamed(n: nat)
    ensures !IsBlank(Decimal(n))
    ensures RemoveQuotes(Decimal(n)) == Decimal(n)
  {
    var r := Decimal(n);
    assert !IsWhiteSpace(r[0]);
    assert '"' !in r by {
      forall i | 0 <= i < |r| ensures r[i] != '"' {
        assert IsDigit(r[i]);
      }
    }
    RemoveQuotesKeepsQuoteFree(r);
  }
}
