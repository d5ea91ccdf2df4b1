/**
 * Quoting of SQL identifiers and string literals. The identifier form is the
 * delimited identifier of ISO/IEC 9075-2 subclause 5.2 (double quotes, an embedded
 * double quote written twice); `[..]` and backtick-wrapped names are accepted as
 * already quoted, as SQLite does. The literal form is the character string literal
 * of subclause 5.3 (single quotes, an embedded single quote written twice).
 */
module SQLiteString {
  import opened Wrappers
  import opened Strings

  /** The shallow "already quoted" test for identifiers, on a non-null string. */
  predicate HasIdentifierQuotes(s: string) {
    (StartsWith(s, "\"") && EndsWith(s, "\""))
    || (StartsWith(s, "[") && EndsWith(s, "]"))
    || (StartsWith(s, "`") && EndsWith(s, "`"))
  }

  /** The shallow "already quoted" test for literals, on a non-null string. */
  predicate HasLiteralQuotes(s: string) {
    StartsWith(s, "'") && EndsWith(s, "'")
  }

  /** `s.Replace(d, dd)`: every occurrence of the delimiter `d` written twice. */
  function Escape(s: string, d: char): (r: string)
    ensures |r| == |s| + multiset(s)[d]
  {
    if s == [] then []
    else
      assert s == [s[0]] + s[1..];
      (if s[0] == d then [d, d] else [s[0]]) + Escape(s[1..], d)
  }

  /** The inverse of `Escape`: collapses each doubled delimiter; a lone delimiter is malformed. */
  function Unescape(t: string, d: char): Option<string>
    decreases |t|
  {
    if t == [] then Some([])
    else if t[0] != d then
      match Unescape(t[1..], d)
      case Some(u) => Some([t[0]] + u)
      case None => None
    else if 2 <= |t| && t[1] == d then
      match Unescape(t[2..], d)
      case Some(u) => Some([d] + u)
      case None => None
    else None
  }

  /** Dropping the outer delimiters and collapsing the doubled ones. */
  function Unquote(s: string, d: char): Option<string> {
    if 2 <= |s| && s[0] == d && s[|s| - 1] == d then Unescape(s[1..|s| - 1], d) else None
  }

  /** Collapsing the doubled delimiters of an escaped string gives it back. */
  lemma {:induction false} UnescapeEscape(s: string, d: char)
    ensures Unescape(Escape(s, d), d) == Some(s)
  {
    if s != [] {
      UnescapeEscape(s[1..], d);
      var e := Escape(s, d);
      if s[0] == d {
        assert e[2..] == Escape(s[1..], d);
      } else {
        assert e[1..] == Escape(s[1..], d);
      }
      assert s == [s[0]] + s[1..];
    }
  }

  /** Escaping is the only way to produce a well-formed escaped string: `Unescape` is an exact inverse. */
  lemma {:induction false} EscapeUnescape(t: string, s: string, d: char)
    requires Unescape(t, d) == Some(s)
    ensures Escape(s, d) == t
    decreases |t|
  {
    if t != [] {
      if t[0] != d {
        var u := Unescape(t[1..], d).value;
        EscapeUnescape(t[1..], u, d);
        assert s == [t[0]] + u;
        assert s[1..] == u;
        assert t == [t[0]] + t[1..];
      } else {
        var u := Unescape(t[2..], d).value;
        EscapeUnescape(t[2..], u, d);
        assert s == [d] + u;
        assert s[1..] == u;
        assert t == [d, d] + t[2..];
      }
    }
  }

  /** The identifier form of a non-null string: unchanged when already quoted, otherwise escaped and wrapped in `"`. */
  function QuotedIdentifier(s: string): (r: string)
    ensures HasIdentifierQuotes(s) ==> r == s
    ensures !HasIdentifierQuotes(s) ==>
      && |r| == |s| + multiset(s)['"'] + 2
      && r[0] == '"' && r[|r| - 1] == '"'
      && Unquote(r, '"') == Some(s)
    ensures HasIdentifierQuotes(r)
  {
    if HasIdentifierQuotes(s) then s
    else
      var r := "\"" + Escape(s, '"') + "\"";
      assert r[1..|r| - 1] == Escape(s, '"');
      UnescapeEscape(s, '"');
      r
  }

  /** The literal form of a non-null string: unchanged when already quoted, otherwise escaped and wrapped in `'`. */
  function QuotedLiteral(s: string): (r: string)
    ensures HasLiteralQuotes(s) ==> r == s
    ensures !HasLiteralQuotes(s) ==>
      && |r| == |s| + multiset(s)['\''] + 2
      && r[0] == '\'' && r[|r| - 1] == '\''
      && Unquote(r, '\'') == Some(s)
    ensures HasLiteralQuotes(r)
  {
    if HasLiteralQuotes(s) then s
    else
      var r := "'" + Escape(s, '\'') + "'";
      assert r[1..|r| - 1] == Escape(s, '\'');
      UnescapeEscape(s, '\'');
      r
  }

  /** `SQLiteString.IsQuotedIdentifier`: null raises; otherwise a purely textual test of the first and last characters. */
  function IsQuotedIdentifier(value: Option<string>): (r: Result<bool, Error>)
    ensures value.None? <==> r == Failure(ArgumentNull("value"))
    ensures value.Some? ==> r.Success? && (r.value <==>
      var s := value.value;
      1 <= |s| && ((s[0] == '"' && s[|s| - 1] == '"')
                   || (s[0] == '[' && s[|s| - 1] == ']')
                   || (s[0] == '`' && s[|s| - 1] == '`')))
  {
    if value.None? then Failure(ArgumentNull("value")) else Success(HasIdentifierQuotes(value.value))
  }

  /** `SQLiteString.IsQuotedLiteral`: null raises; otherwise true exactly when the string starts and ends with `'`. */
  function IsQuotedLiteral(value: Option<string>): (r: Result<bool, Error>)
    ensures value.None? <==> r == Failure(ArgumentNull("value"))
    ensures value.Some? ==> r.Success? && (r.value <==>
      var s := value.value;
      1 <= |s| && s[0] == '\'' && s[|s| - 1] == '\'')
  {
    if value.None? then Failure(ArgumentNull("value")) else Success(HasLiteralQuotes(value.value))
  }

  /** `SQLiteString.QuoteIdentifier`: null raises; the result passes `IsQuotedIdentifier`. */
  function QuoteIdentifier(value: Option<string>): (r: Result<string, Error>)
    ensures value.None? <==> r == Failure(ArgumentNull("value"))
    ensures value.Some? ==> r.Success? && IsQuotedIdentifier(Some(r.value)) == Success(true)
    ensures value.Some? && IsQuotedIdentifier(value) == Success(true) ==> r.value == value.value
    ensures value.Some? && IsQuotedIdentifier(value) == Success(false) ==>
      |r.value| == |value.value| + multiset(value.value)['"'] + 2 && Unquote(r.value, '"') == Some(value.value)
  {
    if value.None? then Failure(ArgumentNull("value")) else Success(QuotedIdentifier(value.value))
  }

  /** `SQLiteString.QuoteLiteral`: null raises; the result passes `IsQuotedLiteral`. */
  function QuoteLiteral(value: Option<string>): (r: Result<string, Error>)
    ensures value.None? <==> r == Failure(ArgumentNull("value"))
    ensures value.Some? ==> r.Success? && IsQuotedLiteral(Some(r.value)) == Success(true)
    ensures value.Some? && IsQuotedLiteral(value) == Success(true) ==> r.value == value.value
    ensures value.Some? && IsQuotedLiteral(value) == Success(false) ==>
      |r.value| == |value.value| + multiset(value.value)['\''] + 2 && Unquote(r.value, '\'') == Some(value.value)
  {
    if value.None? then Failure(ArgumentNull("value")) else Success(QuotedLiteral(value.value))
  }

  /** Quoting an identifier twice gives the same text as quoting it once. */
  lemma QuoteIdentifierIdempotent(s: string)
    ensures QuoteIdentifier(Some(QuoteIdentifier(Some(s)).value)) == QuoteIdentifier(Some(s))
  {
  }

  /** Quoting a literal twice gives the same text as quoting it once. */
  lemma QuoteLiteralIdempotent(s: string)
    ensures QuoteLiteral(Some(QuoteLiteral(Some(s)).value)) == QuoteLiteral(Some(s))
  {
  }

  /** A text that starts and ends with the delimiter is the delimiter, its interior and the delimiter. */
  lemma WrapSplit(q: string, d: char)
    requires 2 <= |q| && q[0] == d && q[|q| - 1] == d
    ensures q == [d] + q[1..|q| - 1] + [d]
  {
    assert q == [q[0]] + q[1..|q| - 1] + [q[|q| - 1]];
  }

  /** A well-formed quoted text is the delimiter, the escaped content and the delimiter. */
  lemma UnquoteInverse(q: string, v: string, d: char)
    requires Unquote(q, d) == Some(v)
    ensures q == [d] + Escape(v, d) + [d]
  {
    EscapeUnescape(q[1..|q| - 1], v, d);
    WrapSplit(q, d);
  }

  /** Round trip: for a name that is not already quoted, unquoting the quoted form gives the name back, and
      the quoted form is the only text that unquotes to it. */
  lemma IdentifierRoundTrip(name: string, quoted: string)
    requires !HasIdentifierQuotes(name)
    ensures Unquote(QuotedIdentifier(name), '"') == Some(name)
    ensures Unquote(quoted, '"') == Some(name) ==> quoted == QuotedIdentifier(name)
  {
    if Unquote(quoted, '"') == Some(name) {
      UnquoteInverse(quoted, name, '"');
    }
  }

  /** Round trip for literals, in both directions as for identifiers. */
  lemma LiteralRoundTrip(text: string, quoted: string)
    requires !HasLiteralQuotes(text)
    ensures Unquote(QuotedLiteral(text), '\'') == Some(text)
    ensures Unquote(quoted, '\'') == Some(text) ==> quoted == QuotedLiteral(text)
  {
    if Unquote(quoted, '\'') == Some(text) {
      UnquoteInverse(quoted, text, '\'');
    }
  }

  /** The test is textual: a lone `"` counts as quoted, the empty string and a half-wrapped name do not. */
  lemma ShallowQuotedTest()
    ensures IsQuotedIdentifier(Some("\"")) == Success(true)
    ensures IsQuotedIdentifier(Some("")) == Success(false)
    ensures IsQuotedIdentifier(Some("[name`")) == Success(false)
    ensures IsQuotedIdentifier(Some("\"a\"b\"")) == Success(true)
    ensures IsQuotedLiteral(Some("'")) == Success(true)
    ensures IsQuotedLiteral(Some("")) == Success(false)
  {
  }
}
