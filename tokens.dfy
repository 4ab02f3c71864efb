/** Tokens, parse conflicts and the error-carrying result shared by the
    tokenizer (TokenParser) and the predicate builder (PredicateParser). */
module Tokens {

  /** Java's Integer.MAX_VALUE. */
  const INT_MAX: int := 0x7fff_ffff

  datatype Option<T> = None | Some(value: T)

  /** The closed set of reasons a parse call can fail for. */
  datatype ParseConflict =
    | MalformedStringArgument
    | MissingStringTermination
    | ExpectedInteger
    | ExpectedSearchPattern
    | MultipleSearchPatternWildcards
    | NoSearchMatch
    | DoesNotAcceptTimeNotation
    | UnimplementedTranslatable

  /** The thrown ArgumentParseException: the index of the offending raw
      argument and the conflict kind, nothing else. */
  datatype ParseError = ParseError(argumentIndex: nat, conflict: ParseConflict)

  /** A value, or the first error that stopped the parse. */
  datatype Result<T> = Ok(value: T) | Err(error: ParseError)

  /** Every token remembers the raw argument it came from. An integer token
      with no number is the `*` wildcard. */
  datatype Token =
    | ParenthesisToken(argumentIndex: nat, isOpening: bool)
    | QuotedStringToken(argumentIndex: nat, value: string)
    | UnquotedStringToken(argumentIndex: nat, value: string)
    | IntegerToken(argumentIndex: nat, number: Option<nat>, wasTimeNotation: bool)
}
