/**
 * `ProcessArgumentBuilder`: an ordered, append-only list of command-line
 * tokens. Each token remembers how it was appended; how the tokens are
 * quoted, escaped and masked when rendered is not part of this model.
 */
module ProcessArguments {

  datatype Token =
    | Literal(text: string)       // `Append`: passed as written
    | Quoted(text: string)        // `AppendQuoted`: quoted into one argument
    | QuotedSecret(text: string)  // `AppendQuotedSecret`: quoted, and masked wherever the command line is logged

  class ProcessArgumentBuilder {
    var tokens: seq<Token>

    constructor ()
      ensures tokens == []
    {
      tokens := [];
    }

    method Append(text: string)
      modifies this
      ensures tokens == old(tokens) + [Literal(text)]
    {
      tokens := tokens + [Literal(text)];
    }

    method AppendQuoted(text: string)
      modifies this
      ensures tokens == old(tokens) + [Quoted(text)]
    {
      tokens := tokens + [Quoted(text)];
    }

    method AppendQuotedSecret(text: string)
      modifies this
      ensures tokens == old(tokens) + [QuotedSecret(text)]
    {
      tokens := tokens + [QuotedSecret(text)];
    }
  }
}
