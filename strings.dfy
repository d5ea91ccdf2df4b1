/** The .NET string operations the library relies on, modelled on `seq<char>`. */
module Strings {
  import opened Wrappers

  /** `String.StartsWith`, taken as an ordinal prefix test. */
  predicate StartsWith(s: string, prefix: string) {
    |prefix| <= |s| && s[..|prefix|] == prefix
  }

  /** `String.EndsWith`, taken as an ordinal suffix test. */
  predicate EndsWith(s: string, suffix: string) {
    |suffix| <= |s| && s[|s| - |suffix|..] == suffix
  }

  /** What a nullable string contributes to `StringBuilder.Append`, to `+` and to `string.Format`: null adds nothing. */
  function OrEmpty(s: Option<string>): string {
    if s.None? then "" else s.value
  }

  /** `string.IsNullOrEmpty`. */
  predicate IsNullOrEmpty(s: Option<string>) {
    s.None? || s.value == ""
  }

  /** `Char.IsWhiteSpace`: the Unicode space separators, line and paragraph separators, and U+0009..U+000D, U+0085. */
  predicate IsWhiteSpace(c: char) {
    ('\U{0009}' <= c <= '\U{000D}') || c == ' ' || c == '\U{0085}' || c == '\U{00A0}'
    || c == '\U{1680}' || ('\U{2000}' <= c <= '\U{200A}') || c == '\U{2028}' || c == '\U{2029}'
    || c == '\U{202F}' || c == '\U{205F}' || c == '\U{3000}'
  }

  /** Every character is white space, scanned from the front as `string.IsNullOrWhiteSpace` does. */
  predicate AllWhiteSpace(s: string) {
    |s| == 0 || (IsWhiteSpace(s[0]) && AllWhiteSpace(s[1..]))
  }

  /** `string.IsNullOrWhiteSpace`. */
  predicate IsNullOrWhiteSpace(s: Option<string>) {
    s.None? || AllWhiteSpace(s.value)
  }

  /** The parts separated by `sep`, as a `StringBuilder` loop with a "first item" flag produces them. */
  function Join(parts: seq<string>, sep: string): string {
    if |parts| == 0 then ""
    else if |parts| == 1 then parts[0]
    else Join(parts[..|parts| - 1], sep) + sep + parts[|parts| - 1]
  }

  /** The join of the first `n` parts extends the join of the first `n - 1` by the separator and the `n`th part. */
  lemma JoinPrefixSnoc(parts: seq<string>, n: nat, sep: string)
    requires 1 < n <= |parts|
    ensures Join(parts[..n], sep) == Join(parts[..n - 1], sep) + sep + parts[n - 1]
  {
    assert parts[..n][..n - 1] == parts[..n - 1];
  }

  /** Regrouping a text appended piece by piece to a builder. */
  lemma Regroup(head: string, body: string, sep: string, item: string)
    ensures head + body + sep + item == head + (body + sep + item)
  {
  }

  /** One iteration of a "first item" loop appending to a builder that starts with `head`. */
  lemma AppendJoined(head: string, parts: seq<string>, i: nat, sep: string)
    requires i < |parts|
    ensures head + Join(parts[..i + 1], sep) == (if i == 0 then head else head + Join(parts[..i], sep) + sep) + parts[i]
  {
    if i == 0 {
      assert parts[..1] == [parts[0]];
    } else {
      JoinPrefixSnoc(parts, i + 1, sep);
      Regroup(head, Join(parts[..i], sep), sep, parts[i]);
    }
  }
}
