/** The tokenizer: one left-to-right pass over the pre-split command
    arguments that rebuilds parentheses, quoted strings (possibly spread over
    several arguments), unquoted search terms and integer literals.

    The specification is a fold of `StepArg` (one argument per step) over
    the arguments, followed by the end-of-input checks (`Tokenize`). The
    methods `ParseTokens` and `ParseIntegerToken` are the loops of the
    source, each proved to compute its specification function. */
module TokenParser {
  import opened Tokens

  const INTEGER_WILDCARD_CHAR: char := '*'

  // ---------------------------------------------------------------------
  // Integer literals: ':'-separated base-60 groups of decimal digits

  function Pow(base: nat, exponent: nat): nat
  {
    if exponent == 0 then 1 else base * Pow(base, exponent - 1)
  }

  predicate IsDigit(c: char)
  {
    '0' <= c <= '9'
  }

  function DigitValue(c: char): (d: nat)
    requires IsDigit(c)
    ensures d < 10
  {
    c as int - '0' as int
  }

  predicate AllDigits(s: string)
  {
    forall k :: 0 <= k < |s| ==> IsDigit(s[k])
  }

  /** The only characters an integer literal may hold. */
  predicate WellFormedLiteral(s: string)
  {
    forall k :: 0 <= k < |s| ==> IsDigit(s[k]) || s[k] == ':'
  }

  /** The value of a string of decimal digits, most significant first; the
      empty string is worth 0. */
  function DecimalValue(s: string): nat
    requires AllDigits(s)
  {
    if s == [] then 0 else 10 * DecimalValue(s[..|s| - 1]) + DigitValue(s[|s| - 1])
  }

  /** The ':'-separated groups of `s`, in order; there is always one more
      group than there are colons. */
  function Groups(s: string): (gs: seq<string>)
    ensures |gs| >= 1
    ensures forall k :: 0 <= k < |gs| ==> ':' !in gs[k]
    ensures WellFormedLiteral(s) ==> forall k :: 0 <= k < |gs| ==> AllDigits(gs[k])
    ensures |gs| > 1 <==> ':' in s
  {
    if s == [] then [""]
    else
      var rest := Groups(s[1..]);
      if s[0] == ':' then [""] + rest
      else
        assert s == [s[0]] + s[1..];
        [[s[0]] + rest[0]] + rest[1..]
  }

  /** Group k counted from the right is worth its decimal value times 60^k. */
  function GroupSum(gs: seq<string>): nat
    requires forall k :: 0 <= k < |gs| ==> AllDigits(gs[k])
  {
    if gs == [] then 0 else DecimalValue(gs[0]) * Pow(60, |gs| - 1) + GroupSum(gs[1..])
  }

  /** The value of a well-formed literal: its groups read in base 60. */
  function LiteralValue(s: string): (v: nat)
    requires WellFormedLiteral(s)
  {
    GroupSum(Groups(s))
  }

  /** What parseIntegerToken returns: no token when some character is
      neither a digit nor ':'; otherwise the base-60 value, flagged as time
      notation when the literal holds a ':'. */
  function IntegerTokenOf(arg: string, argumentIndex: nat): (r: Option<Token>)
  {
    if WellFormedLiteral(arg)
    then Some(IntegerToken(argumentIndex, Some(LiteralValue(arg)), ':' in arg))
    else None
  }

  lemma {:induction false} DecimalValuePrepend(c: char, g: string)
    requires IsDigit(c) && AllDigits(g)
    ensures AllDigits([c] + g)
    ensures DecimalValue([c] + g) == DigitValue(c) * Pow(10, |g|) + DecimalValue(g)
    decreases |g|
  {
    var s := [c] + g;
    if g != [] {
      var init := g[..|g| - 1];
      assert s[..|s| - 1] == [c] + init;
      DecimalValuePrepend(c, init);
      calc {
        DecimalValue(s);
        10 * DecimalValue([c] + init) + DigitValue(g[|g| - 1]);
        10 * (DigitValue(c) * Pow(10, |init|) + DecimalValue(init)) + DigitValue(g[|g| - 1]);
        DigitValue(c) * (10 * Pow(10, |init|)) + (10 * DecimalValue(init) + DigitValue(g[|g| - 1]));
        DigitValue(c) * Pow(10, |g|) + DecimalValue(g);
      }
    }
  }

  lemma GroupsPrependDigit(c: char, s: string)
    requires IsDigit(c) && WellFormedLiteral(s)
    ensures WellFormedLiteral([c] + s)
    ensures Groups([c] + s) == [[c] + Groups(s)[0]] + Groups(s)[1..]
  {
    var t := [c] + s;
    assert t[0] == c && t[1..] == s;
    forall k | 0 <= k < |t| ensures IsDigit(t[k]) || t[k] == ':' {
      if k > 0 { assert t[k] == s[k - 1]; }
    }
  }

  /** The accumulators of parseIntegerToken after reading the suffix `s`
      right-to-left: `blockCounter` colons, the digits of the leftmost group
      so far (`radixPower` of them, worth `currentNumber`), and the groups
      right of it already added into `resultingNumber`. */
  predicate Accumulated(s: string, radixPower: nat, blockCounter: nat, currentNumber: nat, resultingNumber: nat)
    requires WellFormedLiteral(s)
  {
    var gs := Groups(s);
    && blockCounter == |gs| - 1
    && radixPower == |gs[0]|
    && currentNumber == DecimalValue(gs[0])
    && resultingNumber + currentNumber * Pow(60, blockCounter) == LiteralValue(s)
  }

  /** One digit read right-to-left: it extends the leftmost group. */
  lemma DigitStep(c: char, s: string, radixPower: nat, blockCounter: nat, currentNumber: nat, resultingNumber: nat)
    requires IsDigit(c) && WellFormedLiteral(s)
    requires Accumulated(s, radixPower, blockCounter, currentNumber, resultingNumber)
    ensures WellFormedLiteral([c] + s)
    ensures Accumulated([c] + s, radixPower + 1, blockCounter,
                        currentNumber + DigitValue(c) * Pow(10, radixPower), resultingNumber)
  {
    var gs := Groups(s);
    GroupsPrependDigit(c, s);
    DecimalValuePrepend(c, gs[0]);
    var p := Pow(60, |gs| - 1);
    var d := DigitValue(c) * Pow(10, |gs[0]|);
    var rest := GroupSum(gs[1..]);
    assert resultingNumber == rest;
    calc {
      LiteralValue([c] + s);
      DecimalValue([c] + gs[0]) * p + rest;
      { assert DecimalValue([c] + gs[0]) == currentNumber + d; }
      (currentNumber + d) * p + rest;
      resultingNumber + (currentNumber + d) * p;
    }
  }

  /** One ':' read right-to-left: it closes the leftmost group. */
  lemma ColonStep(s: string, radixPower: nat, blockCounter: nat, currentNumber: nat, resultingNumber: nat)
    requires WellFormedLiteral(s)
    requires Accumulated(s, radixPower, blockCounter, currentNumber, resultingNumber)
    ensures WellFormedLiteral([':'] + s)
    ensures Accumulated([':'] + s, 0, blockCounter + 1, 0,
                        resultingNumber + currentNumber * Pow(60, blockCounter))
  {
    assert ([':'] + s)[1..] == s;
  }

  /** The right-to-left accumulation loop of parseIntegerToken. */
  method ParseIntegerToken(arg: string, argumentIndex: nat) returns (r: Option<Token>)
    ensures r == IntegerTokenOf(arg, argumentIndex)
  {
    var argLength := |arg|;
    var radixPower: nat := 0;
    var blockCounter: nat := 0;
    var currentNumber: nat := 0;
    var resultingNumber: nat := 0;

    var argIndex := argLength - 1;
    while argIndex >= 0
      invariant -1 <= argIndex < argLength
      invariant WellFormedLiteral(arg[argIndex + 1..])
      invariant Accumulated(arg[argIndex + 1..], radixPower, blockCounter, currentNumber, resultingNumber)
    {
      var argChar := arg[argIndex];
      assert arg[argIndex..] == [argChar] + arg[argIndex + 1..];
      if argChar == ':' {
        ColonStep(arg[argIndex + 1..], radixPower, blockCounter, currentNumber, resultingNumber);
        radixPower := 0;
        resultingNumber := resultingNumber + currentNumber * Pow(60, blockCounter);
        currentNumber := 0;
        blockCounter := blockCounter + 1;
      } else if !('0' <= argChar <= '9') {
        return None;
      } else {
        DigitStep(argChar, arg[argIndex + 1..], radixPower, blockCounter, currentNumber, resultingNumber);
        currentNumber := currentNumber + DigitValue(argChar) * Pow(10, radixPower);
        radixPower := radixPower + 1;
      }
      argIndex := argIndex - 1;
    }

    assert arg[argIndex + 1..] == arg;
    resultingNumber := resultingNumber + currentNumber * Pow(60, blockCounter);
    return Some(IntegerToken(argumentIndex, Some(resultingNumber), blockCounter != 0));
  }

  // ---------------------------------------------------------------------
  // The argument-scanning state machine

  /** -1 while no quoted string is open, otherwise the index of the
      argument that opened it. */
  type StringBegin = x: int | x >= -1

  /** The loop state of parseTokens: the tokens emitted so far, the one-slot
      deferred closing parenthesis, the index of the argument that opened
      the current multi-argument string, and that string's buffer. */
  datatype TokState = TokState(
    result: seq<Token>,
    deferredToken: Option<Token>,
    stringBeginArgumentIndex: StringBegin,
    stringContents: string)

  const Initial: TokState := TokState([], None, -1, "")

  /** Emit the deferred token, if any. */
  function Flush(st: TokState): (r: TokState)
    ensures r.deferredToken == None
    ensures r.stringBeginArgumentIndex == st.stringBeginArgumentIndex
    ensures r.stringContents == st.stringContents
    ensures st.deferredToken.None? ==> r == st
    ensures st.deferredToken.Some? ==> r.result == st.result + [st.deferredToken.value]
  {
    match st.deferredToken
    case None => st
    case Some(t) => st.(result := st.result + [t], deferredToken := None)
  }

  /** The first index at or after `from` where `s` holds `c` (String.indexOf). */
  function IndexOf(s: string, c: char, from: nat): (r: Option<nat>)
    ensures r.Some? ==> from <= r.value < |s| && s[r.value] == c
    ensures r.Some? ==> forall k :: from <= k < r.value ==> s[k] != c
    ensures r.None? ==> forall k :: from <= k < |s| ==> s[k] != c
    decreases |s| - from
  {
    if from >= |s| then None
    else if s[from] == c then Some(from)
    else IndexOf(s, c, from + 1)
  }

  /** A quote strictly between the first and the last character. */
  predicate HasInnerQuote(a: string)
  {
    exists k :: 1 <= k < |a| - 1 && a[k] == '"'
  }

  /** One iteration of the loop of parseTokens over argument `arg`, whose
      index is `i`. */
  function StepArg(st: TokState, arg: string, i: nat): (r: Result<TokState>)
    ensures r.Err? ==> r.error == ParseError(i, MalformedStringArgument) || r.error == ParseError(i, ExpectedInteger)
  {
    var s := Flush(st);
    if |arg| == 0 then
      Ok(s.(result := s.result + [UnquotedStringToken(i, "")]))
    else if arg[0] == '(' && s.stringBeginArgumentIndex < 0 then
      var withOpening := s.(result := s.result + [ParenthesisToken(i, true)]);
      if |arg| == 1 then Ok(withOpening) else StripClosing(withOpening, arg[1..], i)
    else
      StripClosing(s, arg, i)
  }

  /** The trailing ')' of an argument is deferred unless it sits inside an
      open string that this argument does not close. */
  function StripClosing(s: TokState, arg: string, i: nat): (r: Result<TokState>)
    requires |arg| > 0
    ensures r.Err? ==> r.error == ParseError(i, MalformedStringArgument) || r.error == ParseError(i, ExpectedInteger)
  {
    var n := |arg|;
    if arg[n - 1] == ')' && (s.stringBeginArgumentIndex < 0 || (n >= 2 && arg[n - 2] == '"')) then
      var deferred := s.(deferredToken := Some(ParenthesisToken(i, false)));
      if n == 1 then Ok(deferred) else ScanArgument(deferred, arg[..n - 1], i)
    else
      ScanArgument(s, arg, i)
  }

  /** The argument without its parentheses: quoted strings, the wildcard,
      integers and unquoted search terms. Never touches the deferred token,
      and emits at most one token. */
  function ScanArgument(s: TokState, a: string, i: nat): (r: Result<TokState>)
    requires |a| > 0
    ensures r.Ok? ==> r.value.deferredToken == s.deferredToken
    ensures r.Ok? ==> s.result <= r.value.result && |r.value.result| <= |s.result| + 1
    ensures r.Ok? ==> var b := r.value.stringBeginArgumentIndex; b == s.stringBeginArgumentIndex || b == i || b == -1
    ensures r.Err? ==> r.error == ParseError(i, MalformedStringArgument) || r.error == ParseError(i, ExpectedInteger)
  {
    var n := |a|;
    var begin := s.stringBeginArgumentIndex;
    if a[0] == '"' then
      match IndexOf(a, '"', 1)
      case Some(terminationIndex) =>
        if IndexOf(a, '"', terminationIndex + 1).Some? then Err(ParseError(i, MalformedStringArgument))
        else Ok(s.(result := s.result + [QuotedStringToken(i, a[1..n - 1])]))
      case None =>
        if begin != -1 then
          if n != 1 then Err(ParseError(i, MalformedStringArgument))
          else Ok(TokState(s.result + [QuotedStringToken(begin, s.stringContents + " ")], s.deferredToken, -1, ""))
        else if n == 1 then Ok(s.(stringBeginArgumentIndex := i))
        else Ok(s.(stringBeginArgumentIndex := i, stringContents := s.stringContents + a[1..]))
    else if a[n - 1] == '"' then
      if begin == -1 then Err(ParseError(i, MalformedStringArgument))
      else Ok(TokState(s.result + [QuotedStringToken(begin, s.stringContents + " " + a[..n - 1])], s.deferredToken, -1, ""))
    else if begin >= 0 then
      Ok(s.(stringContents := s.stringContents + " " + a))
    else if a[0] == INTEGER_WILDCARD_CHAR && n == 1 then
      Ok(s.(result := s.result + [IntegerToken(i, None, false)]))
    else if IsDigit(a[0]) then
      match IntegerTokenOf(a, i)
      case None => Err(ParseError(i, ExpectedInteger))
      case Some(t) => Ok(s.(result := s.result + [t]))
    else if HasInnerQuote(a) then
      Err(ParseError(i, MalformedStringArgument))
    else
      Ok(s.(result := s.result + [UnquotedStringToken(i, a)]))
  }

  /** The loop of parseTokens over `args`, whose first element has index
      `from`; the first error stops it. */
  function Run(st: TokState, args: seq<string>, from: nat): Result<TokState>
    decreases |args|
  {
    if args == [] then Ok(st)
    else
      match StepArg(st, args[0], from)
      case Err(e) => Err(e)
      case Ok(next) => Run(next, args[1..], from + 1)
  }

  /** parseTokens: the loop, then a string still open is an error at its
      opening argument, and a deferred parenthesis is emitted last. */
  function Tokenize(args: seq<string>): Result<seq<Token>>
  {
    match Run(Initial, args, 0)
    case Err(e) => Err(e)
    case Ok(st) =>
      if st.stringBeginArgumentIndex != -1
      then Err(ParseError(st.stringBeginArgumentIndex, MissingStringTermination))
      else Ok(Flush(st).result)
  }

  lemma RunStep(st: TokState, args: seq<string>, i: nat)
    requires i < |args|
    ensures Run(st, args[i..], i) ==
      match StepArg(st, args[i], i)
      case Err(e) => Err(e)
      case Ok(next) => Run(next, args[i + 1..], i + 1)
  {
    assert args[i..][0] == args[i];
    assert args[i..][1..] == args[i + 1..];
  }

  /** Lines of the parseTokens loop body after the parentheses are split
      off: quoted strings, the wildcard, integers and unquoted terms. The
      source writes each outcome as a `continue` or a `throw`; here each one
      returns the new loop state or the error. */
  method ScanArgumentBody(st: TokState, arg: string, argumentIndex: nat) returns (r: Result<TokState>)
    requires |arg| > 0
    ensures r == ScanArgument(st, arg, argumentIndex)
  {
    var result, deferredToken, stringBeginArgumentIndex, stringContents :=
      st.result, st.deferredToken, st.stringBeginArgumentIndex, st.stringContents;
    var argLength := |arg|;
    var firstChar := arg[0];
    var lastChar := arg[argLength - 1];

    if firstChar == '"' {
      var terminationIndex := IndexOf(arg, '"', 1);

      // Both the opening and the closing quote are in this argument
      if terminationIndex.Some? {
        if IndexOf(arg, '"', terminationIndex.value + 1).Some? {
          return Err(ParseError(argumentIndex, MalformedStringArgument));
        }
        result := result + [QuotedStringToken(argumentIndex, arg[1..argLength - 1])];
        return Ok(TokState(result, deferredToken, stringBeginArgumentIndex, stringContents));
      }

      // A lone leading quote closes an open string with a trailing space
      if stringBeginArgumentIndex != -1 {
        if argLength != 1 {
          return Err(ParseError(argumentIndex, MalformedStringArgument));
        }
        stringContents := stringContents + " ";
        result := result + [QuotedStringToken(stringBeginArgumentIndex, stringContents)];
        stringBeginArgumentIndex := -1;
        stringContents := "";
        return Ok(TokState(result, deferredToken, stringBeginArgumentIndex, stringContents));
      }

      // A lone quote opens a string that starts with a space
      if argLength == 1 {
        stringBeginArgumentIndex := argumentIndex;
        return Ok(TokState(result, deferredToken, stringBeginArgumentIndex, stringContents));
      }

      stringBeginArgumentIndex := argumentIndex;
      assert arg[1..argLength] == arg[1..];
      stringContents := stringContents + arg[1..argLength];
      return Ok(TokState(result, deferredToken, stringBeginArgumentIndex, stringContents));
    }

    if lastChar == '"' {
      if stringBeginArgumentIndex == -1 {
        return Err(ParseError(argumentIndex, MalformedStringArgument));
      }
      stringContents := stringContents + " " + arg[..argLength - 1];
      result := result + [QuotedStringToken(stringBeginArgumentIndex, stringContents)];
      stringBeginArgumentIndex := -1;
      stringContents := "";
      return Ok(TokState(result, deferredToken, stringBeginArgumentIndex, stringContents));
    }

    if stringBeginArgumentIndex >= 0 {
      stringContents := stringContents + " " + arg;
      return Ok(TokState(result, deferredToken, stringBeginArgumentIndex, stringContents));
    }

    if firstChar == INTEGER_WILDCARD_CHAR && argLength == 1 {
      result := result + [IntegerToken(argumentIndex, None, false)];
      return Ok(TokState(result, deferredToken, stringBeginArgumentIndex, stringContents));
    }

    if IsDigit(firstChar) {
      var integerArgument := ParseIntegerToken(arg, argumentIndex);
      if integerArgument.None? {
        return Err(ParseError(argumentIndex, ExpectedInteger));
      }
      result := result + [integerArgument.value];
      return Ok(TokState(result, deferredToken, stringBeginArgumentIndex, stringContents));
    }

    // No quote may be wedged into a search term
    var argIndex := 1;
    while argIndex < argLength - 1
      invariant 1 <= argIndex
      invariant forall k :: 1 <= k < argIndex && k < argLength - 1 ==> arg[k] != '"'
    {
      if arg[argIndex] == '"' {
        return Err(ParseError(argumentIndex, MalformedStringArgument));
      }
      argIndex := argIndex + 1;
    }

    result := result + [UnquotedStringToken(argumentIndex, arg)];
    return Ok(TokState(result, deferredToken, stringBeginArgumentIndex, stringContents));
  }

  /** parseTokens, as the source writes it. */
  method ParseTokens(args: seq<string>) returns (r: Result<seq<Token>>)
    ensures r == Tokenize(args)
  {
    var result: seq<Token> := [];
    var deferredToken: Option<Token> := None;
    var stringBeginArgumentIndex: StringBegin := -1;
    var stringContents: string := "";

    for argumentIndex := 0 to |args|
      invariant Run(Initial, args, 0) ==
        Run(TokState(result, deferredToken, stringBeginArgumentIndex, stringContents), args[argumentIndex..], argumentIndex)
    {
      ghost var before := TokState(result, deferredToken, stringBeginArgumentIndex, stringContents);
      ghost var step := StepArg(before, args[argumentIndex], argumentIndex);
      RunStep(before, args, argumentIndex);

      if deferredToken.Some? {
        result := result + [deferredToken.value];
        deferredToken := None;
      }

      var arg := args[argumentIndex];
      var argLength := |arg|;

      if argLength == 0 {
        result := result + [UnquotedStringToken(argumentIndex, "")];
        continue;
      }

      var firstChar := arg[0];
      var lastChar := arg[argLength - 1];

      if firstChar == '(' && stringBeginArgumentIndex < 0 {
        result := result + [ParenthesisToken(argumentIndex, true)];
        if argLength == 1 {
          continue;
        }
        arg := arg[1..];
        firstChar := arg[0];
        argLength := argLength - 1;
      }
      assert step == StripClosing(TokState(result, deferredToken, stringBeginArgumentIndex, stringContents), arg, argumentIndex);

      // A closing parenthesis is emitted after the rest of this argument
      if lastChar == ')' && (stringBeginArgumentIndex < 0 || (argLength >= 2 && arg[argLength - 2] == '"')) {
        deferredToken := Some(ParenthesisToken(argumentIndex, false));
        if argLength == 1 {
          continue;
        }
        arg := arg[..argLength - 1];
        lastChar := arg[argLength - 2];
        argLength := argLength - 1;
      }
      assert step == ScanArgument(TokState(result, deferredToken, stringBeginArgumentIndex, stringContents), arg, argumentIndex);

      var scanned := ScanArgumentBody(TokState(result, deferredToken, stringBeginArgumentIndex, stringContents), arg, argumentIndex);
      if scanned.Err? {
        return Err(scanned.error);
      }
      result, deferredToken, stringBeginArgumentIndex, stringContents :=
        scanned.value.result, scanned.value.deferredToken, scanned.value.stringBeginArgumentIndex, scanned.value.stringContents;
    }

    if stringBeginArgumentIndex != -1 {
      return Err(ParseError(stringBeginArgumentIndex, MissingStringTermination));
    }

    if deferredToken.Some? {
      result := result + [deferredToken.value];
    }

    return Ok(result);
  }
}
