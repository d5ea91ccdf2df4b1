/** The append-only text buffer the statement builders write into, and the two quoting append helpers. */
module StringBuilderExtensions {
  import opened Wrappers
  import opened SQLiteString

  /** `Environment.NewLine`, which `AppendLine` adds; its value depends on the platform. */
  const NL: string

  /** A `System.Text.StringBuilder`, reduced to the text it holds. */
  class StringBuilder {
    var content: string

    constructor ()
      ensures content == ""
    {
      content := "";
    }

    method Append(s: string)
      modifies this
      ensures content == old(content) + s
    {
      content := content + s;
    }
  }

  /** `AppendQuotedIdentifier`: quotes first, so a null value raises before the buffer is touched; otherwise the
      existing text is kept as a prefix, exactly the quoted identifier is appended and the same builder is returned. */
  method AppendQuotedIdentifier(sb: StringBuilder, value: Option<string>) returns (r: Result<StringBuilder, Error>)
    modifies sb
    ensures value.None? ==> r == Failure(ArgumentNull("value")) && sb.content == old(sb.content)
    ensures value.Some? ==> r == Success(sb) && sb.content == old(sb.content) + QuotedIdentifier(value.value)
  {
    var quoted := QuoteIdentifier(value);
    if quoted.Failure? {
      return Failure(quoted.error);
    }
    sb.Append(quoted.value);
    return Success(sb);
  }

  /** `AppendQuotedLiteral`: the same as `AppendQuotedIdentifier`, with the literal quoting. */
  method AppendQuotedLiteral(sb: StringBuilder, value: Option<string>) returns (r: Result<StringBuilder, Error>)
    modifies sb
    ensures value.None? ==> r == Failure(ArgumentNull("value")) && sb.content == old(sb.content)
    ensures value.Some? ==> r == Success(sb) && sb.content == old(sb.content) + QuotedLiteral(value.value)
  {
    var quoted := QuoteLiteral(value);
    if quoted.Failure? {
      return Failure(quoted.error);
    }
    sb.Append(quoted.value);
    return Success(sb);
  }
}
