# ItemPredicateParser: the command-argument parser, modelled in Dafny

The parser of the storage-query command turns pre-split command arguments into
item predicates. It works in two stages:

- **Tokenizer** (`TokenParser.parseTokens`, `parseIntegerToken`). One
  left-to-right pass over the arguments. It carries a one-slot deferred
  closing parenthesis, the index of the argument that opened a
  multi-argument quoted string (`-1` when none is open), and that string's
  buffer. Each argument yields parenthesis tokens, quoted-string tokens,
  unquoted-string tokens or integer tokens. An integer token is either the
  `*` wildcard, with no value, or a literal of `:`-separated base-60 groups
  of decimal digits ("time notation"), read from the right.
- **Predicate builder** (`PredicateParser.parsePredicates`). It drains a copy
  of the token list from the front. A quoted token becomes a text search. An
  unquoted token is looked up in the translation registry. Depending on the
  category of the match, it takes 0, 1 or 2 trailing integer tokens as
  arguments.

Any violation stops the parse with an `(argumentIndex, conflict)` pair. This
is modelled as the `Err` case of a `Result`.

## Files

- `tokens.dfy` (`Tokens`): tokens, parse conflicts, `ParseError` and
  `Result`.
- `token_parser.dfy` (`TokenParser`): the specification functions and the
  imperative methods.
  - `StepArg` is one pass of the loop. `Run` is the loop as a fold.
    `Tokenize` is the whole of `parseTokens`.
  - `IntegerTokenOf`, `Groups`, `GroupSum` and `DecimalValue` specify
    `parseIntegerToken`.
  - `ParseTokens` and `ParseIntegerToken` are the source's loops. Each is
    proved to return its specification function.
  - The part of the loop body after the parenthesis handling is the method
    `ScanArgumentBody`. It holds the inner loop that looks for wedged quotes.
- `token_parser_lemmas.dfy` (`TokenParserLemmas`): the tokenizer's properties.
  - the value of integer literals;
  - parentheses and their deferral;
  - multi-argument strings;
  - the error cases;
  - the quirks the code has, kept as written.
- `predicate_parser.dfy` (`PredicateParser`): the predicate builder.
  - The registry is a function parameter `string -> SearchResult`.
  - `Step` is one pass of the loop, `Dispatch` is the category dispatch, and
    `Predicates` is the whole of `parsePredicates`.
  - The methods `ParsePredicates`, `ParseCurrent`, `TryConsumeIntegerArgument`,
    `GetShortestMatch` and `CollectMaterials` are the source's loops and
    in-place list updates. Each is proved against its specification function.
  - The working copy of the token list is the class `TokenList`. Its `items`
    field is drained in place.
- `predicate_parser_lemmas.dfy` (`PredicateParserLemmas`): the predicate
  builder's properties.

Quirks of the tokenizer that the model keeps, each proved as a lemma:
- An empty argument inside an open string yields an empty unquoted token,
  and the string stays open.
- A self-contained quoted argument drops its first and last characters even
  when its second quote is not the last character.
- A self-contained `"x"` inside an open string is emitted without closing that
  string.
- Parenthesis tokens reaching the predicate builder fail with
  `ExpectedSearchPattern`.

## Model

Paths are relative to the repository root. `TokenParser.java` is
`src/main/java/me/blvckbytes/storage_query/parse/TokenParser.java`;
`PredicateParser.java` is in the same directory.

| member | source | states |
|---|---|---|
| TokenParser.IsDigit | src/main/java/me/blvckbytes/storage_query/parse/TokenParser.java:174 | the ASCII digit test `0`-`9` of the literal loop, also used for the digit-led test of :126 (see "## Left out") |
| TokenParser.DecimalValue | src/main/java/me/blvckbytes/storage_query/parse/TokenParser.java:174-179 | the decimal value of a digit string read from the right, each digit weighted by the next power of ten; `DecimalValuePrepend` states what a leading digit adds |
| TokenParser.DecimalValuePrepend | src/main/java/me/blvckbytes/storage_query/parse/TokenParser.java:177-179 | a digit put in front of `g` adds its value times 10 to the power of the length of `g` |
| TokenParser.Groups | src/main/java/me/blvckbytes/storage_query/parse/TokenParser.java:163-172 | splitting at ':' gives at least one group, no group holds ':', groups of a well-formed literal are all digits, and there is more than one group iff the literal holds ':' |
| TokenParser.GroupSum | src/main/java/me/blvckbytes/storage_query/parse/TokenParser.java:168-182 | the groups read in base 60, the rightmost group in units; `TokenParserLemmas.GroupSumAppend` states how a further group shifts the others |
| TokenParser.LiteralValue | src/main/java/me/blvckbytes/storage_query/parse/TokenParser.java:155-185 | the base-60 value of a well-formed literal; `TokenParserLemmas.PlainDecimalLiteral` and `TokenParserLemmas.AppendGroup` state its value without and with ':' |
| TokenParser.IntegerTokenOf | src/main/java/me/blvckbytes/storage_query/parse/TokenParser.java:155-185 | what `parseIntegerToken` returns: no token when some character is neither a digit nor ':', otherwise an integer token at the argument's index with the literal's value, in time notation iff the literal holds ':'; `TokenParserLemmas.DigitLedArgument` and the examples state it per case |
| TokenParser.ParseIntegerToken | src/main/java/me/blvckbytes/storage_query/parse/TokenParser.java:155-185 | the right-to-left accumulator loop returns exactly `IntegerTokenOf`: no token when a character is neither digit nor ':', otherwise the base-60 sum of decimal groups, flagged as time notation iff the literal holds ':' |
| TokenParser.Flush | src/main/java/me/blvckbytes/storage_query/parse/TokenParser.java:21-24 | the deferred token, if any, is appended to the result and cleared; the string state is untouched |
| TokenParser.IndexOf | src/main/java/me/blvckbytes/storage_query/parse/TokenParser.java:65-69 | `String.indexOf`: the first position at or after `from` holding the character, or none when no such position exists |
| TokenParser.HasInnerQuote | src/main/java/me/blvckbytes/storage_query/parse/TokenParser.java:136-141 | the wedged-quote scan: a quote at some position strictly between the first and the last character |
| TokenParser.StepArg | src/main/java/me/blvckbytes/storage_query/parse/TokenParser.java:21-143 | one pass of the loop over the argument at index `i`: a failing pass fails at `i`, with MalformedStringArgument or ExpectedInteger |
| TokenParser.StripClosing | src/main/java/me/blvckbytes/storage_query/parse/TokenParser.java:48-62 | the closing-parenthesis split, followed by the rest of the pass: it too fails only at `i`, with MalformedStringArgument or ExpectedInteger |
| TokenParser.ScanArgument | src/main/java/me/blvckbytes/storage_query/parse/TokenParser.java:64-143 | reading an argument without its parentheses never touches the deferred token, only appends to the result and emits at most one token; afterwards the open string began at the same argument as before, at this one, or none is open; it fails only at `i`, with MalformedStringArgument or ExpectedInteger |
| TokenParser.ScanArgumentBody | src/main/java/me/blvckbytes/storage_query/parse/TokenParser.java:64-143 | the imperative loop body, including the scan for wedged quotes, computes `ScanArgument` |
| TokenParser.Run | src/main/java/me/blvckbytes/storage_query/parse/TokenParser.java:20-144 | the loop as a fold of `StepArg`, stopping at the first error; `TokenParserLemmas.RunErrorAtSomeArgument`, `RunPreservesValid` and `RunConcat` state its properties |
| TokenParser.Tokenize | src/main/java/me/blvckbytes/storage_query/parse/TokenParser.java:13-153 | `parseTokens`: the loop, then an error at the opening argument of a string still open, then the deferred parenthesis last; `TokenParserLemmas.TokenizeErrorInRange` and `TokenIndicesInRange` state its properties |
| TokenParser.ParseTokens | src/main/java/me/blvckbytes/storage_query/parse/TokenParser.java:13-153 | the loop over the arguments with its mutable state computes `Tokenize`: the fold of one step per argument, then the missing-termination check and the final deferred token |
| TokenParserLemmas.AppendGroup | src/main/java/me/blvckbytes/storage_query/parse/TokenParser.java:166-171 | appending `:g` to a literal multiplies its value by 60 and adds the decimal value of `g` |
| TokenParserLemmas.GroupsAppend | src/main/java/me/blvckbytes/storage_query/parse/TokenParser.java:166-171 | a ':' followed by a colon-free group adds exactly that group at the end |
| TokenParserLemmas.GroupSumAppend | src/main/java/me/blvckbytes/storage_query/parse/TokenParser.java:168-182 | each further group shifts the earlier ones by one base-60 place |
| TokenParserLemmas.NoColonSingleGroup | src/main/java/me/blvckbytes/storage_query/parse/TokenParser.java:163-180 | a literal without ':' is a single group |
| TokenParserLemmas.PlainDecimalLiteral | src/main/java/me/blvckbytes/storage_query/parse/TokenParser.java:174-184 | a literal of digits only is well formed, not time notation, and worth its decimal value |
| TokenParserLemmas.PlainIntegerExamples | src/main/java/me/blvckbytes/storage_query/parse/TokenParser.java:155-185 | "90" is 90 without time notation; "12a" is no integer |
| TokenParserLemmas.MinutesSecondsExample | src/main/java/me/blvckbytes/storage_query/parse/TokenParser.java:155-185 | "1:30" is 90 in time notation |
| TokenParserLemmas.ThreeGroupLiteral | src/main/java/me/blvckbytes/storage_query/parse/TokenParser.java:163-184 | `h:m:s` is worth 3600·h + 60·m + s and is time notation |
| TokenParserLemmas.HoursMinutesSecondsExample | src/main/java/me/blvckbytes/storage_query/parse/TokenParser.java:155-185 | "1:01:30" is 3690 in time notation |
| TokenParserLemmas.StepArgPreservesValid | src/main/java/me/blvckbytes/storage_query/parse/TokenParser.java:20-144 | one pass keeps the loop invariant: an open string began at an earlier argument, a closed string has an empty buffer, and every emitted or deferred token names an argument already read |
| TokenParserLemmas.RunPreservesValid | src/main/java/me/blvckbytes/storage_query/parse/TokenParser.java:20-144 | the invariant holds after any number of passes |
| TokenParserLemmas.TokenIndicesInRange | src/main/java/me/blvckbytes/storage_query/parse/TokenParser.java:13-153 | every token of a successful parse names an existing argument |
| TokenParserLemmas.RunErrorAtSomeArgument | src/main/java/me/blvckbytes/storage_query/parse/TokenParser.java:20-144 | a failing loop fails at one of the arguments it read, with MalformedStringArgument or ExpectedInteger |
| TokenParserLemmas.TokenizeErrorInRange | src/main/java/me/blvckbytes/storage_query/parse/TokenParser.java:13-153 | every error of the tokenizer names an existing argument, and it is MissingStringTermination exactly when the loop itself went through |
| TokenParserLemmas.RunConcat | src/main/java/me/blvckbytes/storage_query/parse/TokenParser.java:20-144 | the loop over `xs + ys` is the loop over `ys` continued from the state after `xs`, or the first error |
| TokenParserLemmas.RunConcatOk | src/main/java/me/blvckbytes/storage_query/parse/TokenParser.java:20-144 | after a first stretch of arguments that succeeds, the loop goes on from the state it left, at the next index |
| TokenParserLemmas.RunConcatErr | src/main/java/me/blvckbytes/storage_query/parse/TokenParser.java:20-144 | an error in a first stretch of arguments is the error of the whole loop; later arguments are not read |
| TokenParserLemmas.DeferredTokenComesFirst | src/main/java/me/blvckbytes/storage_query/parse/TokenParser.java:21-24 | a closing parenthesis deferred by the previous argument comes before every token of the current one |
| TokenParserLemmas.OpeningParenthesisFirst | src/main/java/me/blvckbytes/storage_query/parse/TokenParser.java:37-46 | outside a string, a leading '(' emits an opening parenthesis at that index, then the rest is read as an argument of its own |
| TokenParserLemmas.OpeningParenthesisInsideString | src/main/java/me/blvckbytes/storage_query/parse/TokenParser.java:114-118 | inside an open string, '(' is not stripped; the whole argument joins the buffer after a space |
| TokenParserLemmas.ClosingParenthesisDeferred | src/main/java/me/blvckbytes/storage_query/parse/TokenParser.java:48-62 | a trailing ')' outside a string, or right after a closing quote, is stripped and deferred, and the rest is read with it deferred |
| TokenParserLemmas.PlainTermArgument | src/main/java/me/blvckbytes/storage_query/parse/TokenParser.java:136-143 | a quote-free term outside a string becomes one unquoted token at its index |
| TokenParserLemmas.OpeningParenthesisTerm | src/main/java/me/blvckbytes/storage_query/parse/TokenParser.java:37-46 | `(term` tokenizes to an opening parenthesis, then the term |
| TokenParserLemmas.ClosingParenthesisTerm | src/main/java/me/blvckbytes/storage_query/parse/TokenParser.java:21-62 | `term)` followed by `next` gives the term, the closing parenthesis, then the next term |
| TokenParserLemmas.ClosingParenthesisAtEnd | src/main/java/me/blvckbytes/storage_query/parse/TokenParser.java:149-150 | a closing parenthesis on the last argument is emitted at the end of input, after the term |
| TokenParserLemmas.WordsInsideString | src/main/java/me/blvckbytes/storage_query/parse/TokenParser.java:114-118 | inside an open string, quote-free arguments only extend the buffer, each after one space |
| TokenParserLemmas.OpenString | src/main/java/me/blvckbytes/storage_query/parse/TokenParser.java:90-99 | `"a` opens a string at its index with buffer `a`; a lone `"` opens one with an empty buffer |
| TokenParserLemmas.CloseString | src/main/java/me/blvckbytes/storage_query/parse/TokenParser.java:79-111 | `c"` closes the open string, emitting one quoted token at the opening index holding buffer + space + `c`; a lone `"` appends just the space |
| TokenParserLemmas.MultiArgumentString | src/main/java/me/blvckbytes/storage_query/parse/TokenParser.java:96-118 | `"a`, words, `c"` give exactly one quoted token at the opening index holding the pieces joined by single spaces |
| TokenParserLemmas.OpenStringThenWords | src/main/java/me/blvckbytes/storage_query/parse/TokenParser.java:90-118 | `"a` followed by plain words leaves a string open at the opening index, holding the pieces joined by single spaces |
| TokenParserLemmas.UnterminatedString | src/main/java/me/blvckbytes/storage_query/parse/TokenParser.java:146-147 | after any successful prefix with no string open, input that ends inside a string opened by the next argument fails with MissingStringTermination at that opening argument |
| TokenParserLemmas.EmptyArgumentInsideString | src/main/java/me/blvckbytes/storage_query/parse/TokenParser.java:29-32 | an empty argument inside an open string emits an empty unquoted token, ahead of the quoted token, and the string stays open |
| TokenParserLemmas.SecondQuoteNotLast | src/main/java/me/blvckbytes/storage_query/parse/TokenParser.java:64-73 | `"x"y` yields the quoted value `x"` + `y` without its last character |
| TokenParserLemmas.SelfContainedInsideOpenString | src/main/java/me/blvckbytes/storage_query/parse/TokenParser.java:64-74 | `"x"` inside an open string is emitted on its own, and the open string and its buffer are unchanged |
| TokenParserLemmas.WildcardArgument | src/main/java/me/blvckbytes/storage_query/parse/TokenParser.java:114-123 | a lone `*` outside a string is an integer token with no value and no time notation; inside a string it is text |
| TokenParserLemmas.DigitLedArgument | src/main/java/me/blvckbytes/storage_query/parse/TokenParser.java:126-134 | a digit-led argument is an integer token with the literal's value, or fails with ExpectedInteger at its index when some character is neither a digit nor ':' |
| TokenParserLemmas.ThirdQuoteIsMalformed | src/main/java/me/blvckbytes/storage_query/parse/TokenParser.java:69-70 | a third quote in a quote-led argument fails with MalformedStringArgument |
| TokenParserLemmas.LeadingQuoteWhileOpenIsMalformed | src/main/java/me/blvckbytes/storage_query/parse/TokenParser.java:79-81 | a quote-led argument longer than one character, while a string is open, fails with MalformedStringArgument |
| TokenParserLemmas.TrailingQuoteWithoutStringIsMalformed | src/main/java/me/blvckbytes/storage_query/parse/TokenParser.java:102-104 | a trailing quote with no open string fails with MalformedStringArgument |
| TokenParserLemmas.InnerQuoteIsMalformed | src/main/java/me/blvckbytes/storage_query/parse/TokenParser.java:136-141 | a quote strictly inside an unquoted term fails with MalformedStringArgument |
| PredicateParser.ConsumeInteger | src/main/java/me/blvckbytes/storage_query/parse/PredicateParser.java:119-132 | the head is taken iff it is an integer token; otherwise the list is unchanged, so nothing is ever skipped |
| PredicateParser.TimeNotationConflict | src/main/java/me/blvckbytes/storage_query/parse/PredicateParser.java:109-117 | an error iff the token is present and in time notation, reported at that token's index |
| PredicateParser.Utf16Length | src/main/java/me/blvckbytes/storage_query/parse/PredicateParser.java:147 | `String.length()`: between the number of characters and twice that, a character outside the Basic Multilingual Plane counting twice |
| PredicateParser.TranslationLength | src/main/java/me/blvckbytes/storage_query/parse/PredicateParser.java:147 | `translation().length()`: the UTF-16 length of an entry's translation, as `Utf16Length` counts it |
| PredicateParser.MaterialsOf | src/main/java/me/blvckbytes/storage_query/parse/PredicateParser.java:51-56 | the material entries' names in registry order, never more than there are entries; `PredicateParserLemmas.MaterialsOfMembers`, `MaterialsOfAppend` and `MaterialsOfEmpty` state which ones |
| PredicateParser.ShortestMatchIndex | src/main/java/me/blvckbytes/storage_query/parse/PredicateParser.java:143-155 | an index of minimal translation length in UTF-16 units, and every earlier entry is strictly longer, so ties go to the first |
| PredicateParser.ShortestMatch | src/main/java/me/blvckbytes/storage_query/parse/PredicateParser.java:134-141 | no match iff the list is empty; otherwise one of the matches |
| PredicateParser.Dispatch | src/main/java/me/blvckbytes/storage_query/parse/PredicateParser.java:70-103 | the category dispatch only takes tokens from the front of what follows |
| PredicateParser.Step | src/main/java/me/blvckbytes/storage_query/parse/PredicateParser.java:25-103 | one pass only removes tokens from the front of the list |
| PredicateParser.Predicates | src/main/java/me/blvckbytes/storage_query/parse/PredicateParser.java:21-107 | `parsePredicates`: the predicates of the tokens in order, or the first error; `PredicateParserLemmas.AtMostOnePredicatePerToken`, `ErrorAtSomeToken` and `QuotedTokensOnly` state its properties |
| PredicateParser.TokenList.constructor | src/main/java/me/blvckbytes/storage_query/parse/PredicateParser.java:23 | the working copy starts as the input list |
| PredicateParser.TryConsumeIntegerArgument | src/main/java/me/blvckbytes/storage_query/parse/PredicateParser.java:119-132 | the in-place removal returns the token and leaves the list that `ConsumeInteger` describes |
| PredicateParser.GetShortestMatch | src/main/java/me/blvckbytes/storage_query/parse/PredicateParser.java:134-156 | the loop with its Integer.MAX_VALUE sentinel and the single-entry shortcut returns `ShortestMatch` |
| PredicateParser.CollectMaterials | src/main/java/me/blvckbytes/storage_query/parse/PredicateParser.java:51-56 | the loop collects `MaterialsOf` the entries |
| PredicateParser.ParseCurrent | src/main/java/me/blvckbytes/storage_query/parse/PredicateParser.java:26-103 | the loop body returns the predicate of `Step` and leaves in the list exactly what `Step` leaves, or fails with `Step`'s error |
| PredicateParser.ParsePredicates | src/main/java/me/blvckbytes/storage_query/parse/PredicateParser.java:21-107 | draining the list computes `Predicates`: the predicates in token order, or the first error |
| PredicateParserLemmas.QuotedTokenIsTextSearch | src/main/java/me/blvckbytes/storage_query/parse/PredicateParser.java:28-31 | a quoted token becomes a text search with the same value, whatever the registry |
| PredicateParserLemmas.NonSearchTokenRejected | src/main/java/me/blvckbytes/storage_query/parse/PredicateParser.java:33-34 | an integer or parenthesis token in search-term position fails with ExpectedSearchPattern at its index |
| PredicateParserLemmas.EmptyTermSkipped | src/main/java/me/blvckbytes/storage_query/parse/PredicateParser.java:38-39 | an empty unquoted token adds no predicate and takes nothing after it |
| PredicateParserLemmas.WildcardConflict | src/main/java/me/blvckbytes/storage_query/parse/PredicateParser.java:43-44 | repeated wildcards fail with MultipleSearchPatternWildcards at the term |
| PredicateParserLemmas.WildcardMaterials | src/main/java/me/blvckbytes/storage_query/parse/PredicateParser.java:50-63 | a wildcard search gives one material predicate holding the material entries and takes no trailing integers, or fails with NoSearchMatch when there are none |
| PredicateParserLemmas.MaterialsOfAppend | src/main/java/me/blvckbytes/storage_query/parse/PredicateParser.java:53-56 | the materials keep registry order: those of a concatenation are those of each part, in turn |
| PredicateParserLemmas.MaterialsOfMembers | src/main/java/me/blvckbytes/storage_query/parse/PredicateParser.java:53-56 | a material is kept iff some entry names it |
| PredicateParserLemmas.MaterialsOfEmpty | src/main/java/me/blvckbytes/storage_query/parse/PredicateParser.java:53-59 | no material is kept iff no entry is a material |
| PredicateParserLemmas.NoEntriesNoMatch | src/main/java/me/blvckbytes/storage_query/parse/PredicateParser.java:65-68 | without a wildcard, no entries fail with NoSearchMatch |
| PredicateParserLemmas.ShortestEntryDecides | src/main/java/me/blvckbytes/storage_query/parse/PredicateParser.java:65-103 | otherwise the first entry of shortest translation, measured in UTF-16 units, is dispatched |
| PredicateParserLemmas.SupplementaryCharactersCountTwice | src/main/java/me/blvckbytes/storage_query/parse/PredicateParser.java:147-151 | two characters outside the Basic Multilingual Plane are longer than three inside it, so the three-character entry is chosen |
| PredicateParserLemmas.DispatchConsumes | src/main/java/me/blvckbytes/storage_query/parse/PredicateParser.java:70-101 | a successful dispatch takes the smaller of the category's arity (material 0, enchantment 1, potion effect 2, deterioration 2) and the number of leading integer tokens |
| PredicateParserLemmas.EnchantmentLevelTimeNotation | src/main/java/me/blvckbytes/storage_query/parse/PredicateParser.java:75-78 | an enchantment level in time notation fails with DoesNotAcceptTimeNotation at the level |
| PredicateParserLemmas.PotionAmplifierTimeNotation | src/main/java/me/blvckbytes/storage_query/parse/PredicateParser.java:83-86 | a potion amplifier in time notation fails at the amplifier, whatever follows |
| PredicateParserLemmas.PotionDurationUnchecked | src/main/java/me/blvckbytes/storage_query/parse/PredicateParser.java:87-88 | the potion duration is taken even in time notation |
| PredicateParserLemmas.DeteriorationMinTimeNotation | src/main/java/me/blvckbytes/storage_query/parse/PredicateParser.java:93-94 | a minimum bound in time notation fails at that bound before any maximum is taken |
| PredicateParserLemmas.DeteriorationMaxTimeNotation | src/main/java/me/blvckbytes/storage_query/parse/PredicateParser.java:96-97 | a maximum bound in time notation fails at that bound |
| PredicateParserLemmas.OtherTranslatableUnimplemented | src/main/java/me/blvckbytes/storage_query/parse/PredicateParser.java:103 | any other category fails with UnimplementedTranslatable at the search term |
| PredicateParserLemmas.ErrorAtSomeToken | src/main/java/me/blvckbytes/storage_query/parse/PredicateParser.java:21-107 | every error names the argument index of one of the input tokens |
| PredicateParserLemmas.AtMostOnePredicatePerToken | src/main/java/me/blvckbytes/storage_query/parse/PredicateParser.java:25-104 | a successful parse has no more predicates than tokens |
| PredicateParserLemmas.QuotedTokensOnly | src/main/java/me/blvckbytes/storage_query/parse/PredicateParser.java:25-31 | quoted tokens only give one text search per token, in order |

## Left out

- TokenParser.IsDigit: `Character.isDigit`, which decides whether an argument
  is read as an integer (TokenParser.java:126), also accepts non-ASCII
  decimal digits. The model accepts `0`-`9` only. So outside a string, an
  argument led by another Unicode digit is read as an unquoted term in the
  model, or fails with MalformedStringArgument when a quote sits strictly
  inside it, where the source fails with ExpectedInteger.
- TokenParser.ParseIntegerToken: no 32-bit `int` overflow and no
  `(int) Math.pow` casts. Values are exact natural numbers, so literals whose
  value exceeds Integer.MAX_VALUE are not wrapped as in the source.
- The exceptions thrown by both parsers are modelled as the `Err` case of a
  `Result` carrying the argument index and the conflict. The exception
  message is not modelled.
- The registry's translation, normalisation and wildcard detection. The
  registry is an abstract function from search string to search result.
- The predicates' `test` and `stringify` behaviour, including the music
  instrument predicate. The predicates are plain records of the match, the
  category's value and the integer tokens they took.
- TokenParser.ScanArgument: for a self-contained quoted argument the source
  takes `substring(1, argLength - 1)` (TokenParser.java:72), which counts
  UTF-16 units. When the argument's last character lies outside the Basic
  Multilingual Plane, the source keeps a lone high surrogate, while the model
  drops the whole character: a Dafny `char` cannot hold a lone surrogate. The
  other length and index checks of the tokenizer only concern ASCII
  characters, so they agree.
- TokenParserLemmas.SecondQuoteNotLast: states the value for `"x"y` with the
  whole last character of `y` dropped, so when that character lies outside the
  Basic Multilingual Plane it does not state the source's lone high surrogate,
  for the reason given for ScanArgument.
- Bukkit's `Material`, `Enchantment` and `PotionEffectType` objects are
  represented by their names.
