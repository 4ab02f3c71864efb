/** Properties of the tokenizer, stated over its specification `Tokenize`
    (and the one-argument step `StepArg` it folds), which `ParseTokens` is
    proved to compute. */
module TokenParserLemmas {
  import opened Tokens
  import opened TokenParser

  // ---------------------------------------------------------------------
  // Integer literals

  /** Appending a group to a literal shifts it one base-60 place: the
      group-sum reading agrees with Horner's rule. */
  lemma AppendGroup(s: string, g: string)
    requires WellFormedLiteral(s) && AllDigits(g)
    ensures WellFormedLiteral(s + [':'] + g)
    ensures LiteralValue(s + [':'] + g) == 60 * LiteralValue(s) + DecimalValue(g)
  {
    var t := s + [':'] + g;
    assert WellFormedLiteral(t) by {
      forall k | 0 <= k < |t| ensures IsDigit(t[k]) || t[k] == ':' {
        if k > |s| { assert t[k] == g[k - |s| - 1]; }
      }
    }
    GroupsAppend(s, g);
    GroupSumAppend(Groups(s), g);
  }

  lemma {:induction false} NoColonSingleGroup(g: string)
    requires ':' !in g
    ensures Groups(g) == [g]
    decreases |g|
  {
    if g != [] {
      assert g == [g[0]] + g[1..];
      NoColonSingleGroup(g[1..]);
    }
  }

  /** The groups of `s + ":" + g` are those of `s`, then `g`. */
  lemma {:induction false} GroupsAppend(s: string, g: string)
    requires ':' !in g
    ensures Groups(s + [':'] + g) == Groups(s) + [g]
    decreases |s|
  {
    var t := s + [':'] + g;
    if s == [] {
      assert t[1..] == g;
      NoColonSingleGroup(g);
    } else {
      assert t[1..] == s[1..] + [':'] + g;
      GroupsAppend(s[1..], g);
    }
  }

  /** Adding a rightmost group shifts every other group one place. */
  lemma {:induction false} GroupSumAppend(gs: seq<string>, g: string)
    requires forall k :: 0 <= k < |gs| ==> AllDigits(gs[k])
    requires AllDigits(g)
    ensures GroupSum(gs + [g]) == 60 * GroupSum(gs) + DecimalValue(g)
    decreases |gs|
  {
    if gs == [] {
      assert GroupSum([g]) == DecimalValue(g) * Pow(60, 0) + GroupSum([]);
    } else {
      assert (gs + [g])[1..] == gs[1..] + [g];
      GroupSumAppend(gs[1..], g);
      var d := DecimalValue(gs[0]);
      var p := Pow(60, |gs| - 1);
      calc {
        GroupSum(gs + [g]);
        d * (60 * p) + GroupSum(gs[1..] + [g]);
        d * (60 * p) + 60 * GroupSum(gs[1..]) + DecimalValue(g);
        { assert d * (60 * p) == 60 * (d * p); }
        60 * (d * p + GroupSum(gs[1..])) + DecimalValue(g);
        60 * GroupSum(gs) + DecimalValue(g);
      }
    }
  }

  /** A literal without ':' is a plain decimal number. */
  lemma PlainDecimalLiteral(s: string)
    requires AllDigits(s)
    ensures WellFormedLiteral(s) && ':' !in s
    ensures LiteralValue(s) == DecimalValue(s)
  {
    forall k | 0 <= k < |s| ensures s[k] != ':' {
      assert IsDigit(s[k]);
    }
    NoColonSingleGroup(s);
  }

  lemma PlainIntegerExamples(i: nat)
    ensures IntegerTokenOf("90", i) == Some(IntegerToken(i, Some(90), false))
    ensures IntegerTokenOf("12a", i) == None
  {
    PlainDecimalLiteral("90");
    assert DecimalValue("90") == 90;
    assert !WellFormedLiteral("12a") by { assert !IsDigit("12a"[2]); }
  }

  lemma MinutesSecondsExample(i: nat)
    ensures IntegerTokenOf("1:30", i) == Some(IntegerToken(i, Some(90), true))
  {
    PlainDecimalLiteral("1");
    assert DecimalValue("30") == 30;
    AppendGroup("1", "30");
    assert "1" + [':'] + "30" == "1:30";
    assert "1:30"[1] == ':';
  }

  /** Three groups read as hours, minutes and seconds. */
  lemma ThreeGroupLiteral(h: string, m: string, sec: string)
    requires AllDigits(h) && AllDigits(m) && AllDigits(sec)
    ensures WellFormedLiteral(h + [':'] + m + [':'] + sec)
    ensures ':' in h + [':'] + m + [':'] + sec
    ensures LiteralValue(h + [':'] + m + [':'] + sec) ==
      3600 * DecimalValue(h) + 60 * DecimalValue(m) + DecimalValue(sec)
  {
    PlainDecimalLiteral(h);
    AppendGroup(h, m);
    AppendGroup(h + [':'] + m, sec);
    assert (h + [':'] + m + [':'] + sec)[|h|] == ':';
  }

  lemma HoursMinutesSecondsExample(s: string, i: nat)
    requires s == "1:01:30"
    ensures IntegerTokenOf(s, i) == Some(IntegerToken(i, Some(3690), true))
  {
    var h, m, sec := "1", "01", "30";
    assert DecimalValue(h) == 1 && DecimalValue(m) == 1 && DecimalValue(sec) == 30;
    ThreeGroupLiteral(h, m, sec);
    assert h + [':'] + m + [':'] + sec == s;
  }

  // ---------------------------------------------------------------------
  // The loop state invariant

  /** Every token came from an argument before `bound`. */
  predicate IndicesBelow(tokens: seq<Token>, bound: nat)
  {
    forall k :: 0 <= k < |tokens| ==> tokens[k].argumentIndex < bound
  }

  /** What holds of the loop state before argument `next`: an open string
      began at an earlier argument, a closed one left an empty buffer, a
      deferred token is the closing parenthesis of the previous argument,
      and every token emitted so far came from an earlier argument. */
  predicate Valid(st: TokState, next: nat)
  {
    && st.stringBeginArgumentIndex < next
    && (st.stringBeginArgumentIndex == -1 ==> st.stringContents == "")
    && (st.deferredToken.Some? ==> next > 0 && st.deferredToken.value == ParenthesisToken(next - 1, false))
    && IndicesBelow(st.result, next)
  }

  lemma IndicesBelowAppend(tokens: seq<Token>, extra: seq<Token>, bound: nat)
    requires IndicesBelow(tokens, bound) && IndicesBelow(extra, bound)
    ensures IndicesBelow(tokens + extra, bound)
  {
    forall k | 0 <= k < |tokens + extra| ensures (tokens + extra)[k].argumentIndex < bound {
      if k >= |tokens| { assert (tokens + extra)[k] == extra[k - |tokens|]; }
    }
  }

  lemma ScanArgumentPreservesValid(s: TokState, a: string, i: nat)
    requires |a| > 0
    requires s.stringBeginArgumentIndex < i && (s.stringBeginArgumentIndex == -1 ==> s.stringContents == "")
    requires IndicesBelow(s.result, i + 1)
    requires ScanArgument(s, a, i).Ok?
    ensures var r := ScanArgument(s, a, i).value;
      && r.stringBeginArgumentIndex < i + 1
      && (r.stringBeginArgumentIndex == -1 ==> r.stringContents == "")
      && IndicesBelow(r.result, i + 1)
  {
    var r := ScanArgument(s, a, i).value;
    assert r.result == s.result || (|r.result| == |s.result| + 1 && r.result == s.result + [r.result[|s.result|]]);
    if |r.result| == |s.result| + 1 {
      IndicesBelowAppend(s.result, [r.result[|s.result|]], i + 1);
    }
  }

  lemma StepArgPreservesValid(st: TokState, arg: string, i: nat)
    requires Valid(st, i)
    requires StepArg(st, arg, i).Ok?
    ensures Valid(StepArg(st, arg, i).value, i + 1)
  {
    var s := Flush(st);
    if st.deferredToken.Some? {
      IndicesBelowAppend(st.result, [st.deferredToken.value], i + 1);
    }
    assert IndicesBelow(s.result, i + 1);
    if |arg| == 0 {
      IndicesBelowAppend(s.result, [UnquotedStringToken(i, "")], i + 1);
    } else {
      var t := s;
      var rest := arg;
      if arg[0] == '(' && s.stringBeginArgumentIndex < 0 {
        t := s.(result := s.result + [ParenthesisToken(i, true)]);
        IndicesBelowAppend(s.result, [ParenthesisToken(i, true)], i + 1);
        rest := arg[1..];
      }
      if |rest| > 0 {
        assert StepArg(st, arg, i) == StripClosing(t, rest, i);
        var n := |rest|;
        if rest[n - 1] == ')' && (t.stringBeginArgumentIndex < 0 || (n >= 2 && rest[n - 2] == '"')) {
          var d := t.(deferredToken := Some(ParenthesisToken(i, false)));
          if n > 1 {
            ScanArgumentPreservesValid(d, rest[..n - 1], i);
          }
        } else {
          ScanArgumentPreservesValid(t, rest, i);
        }
      }
    }
  }

  lemma {:induction false} RunPreservesValid(st: TokState, args: seq<string>, from: nat)
    requires Valid(st, from)
    requires Run(st, args, from).Ok?
    ensures Valid(Run(st, args, from).value, from + |args|)
    decreases |args|
  {
    if args != [] {
      StepArgPreservesValid(st, args[0], from);
      RunPreservesValid(StepArg(st, args[0], from).value, args[1..], from + 1);
    }
  }

  /** Every token names an argument that exists. */
  lemma TokenIndicesInRange(args: seq<string>)
    requires Tokenize(args).Ok?
    ensures forall k :: 0 <= k < |Tokenize(args).value| ==> Tokenize(args).value[k].argumentIndex < |args|
  {
    RunPreservesValid(Initial, args, 0);
  }

  /** The loop stops at the argument that failed, with one of the two
      conflicts the loop body raises. */
  lemma {:induction false} RunErrorAtSomeArgument(st: TokState, args: seq<string>, from: nat)
    requires Run(st, args, from).Err?
    ensures var e := Run(st, args, from).error;
      && from <= e.argumentIndex < from + |args|
      && (e.conflict == MalformedStringArgument || e.conflict == ExpectedInteger)
    decreases |args|
  {
    var step := StepArg(st, args[0], from);
    if step.Ok? {
      RunErrorAtSomeArgument(step.value, args[1..], from + 1);
    }
  }

  /** Every error names an argument that exists; MissingStringTermination
      is raised exactly when the loop itself went through. */
  lemma TokenizeErrorInRange(args: seq<string>)
    requires Tokenize(args).Err?
    ensures Tokenize(args).error.argumentIndex < |args|
    ensures Tokenize(args).error.conflict == MissingStringTermination <==> Run(Initial, args, 0).Ok?
  {
    match Run(Initial, args, 0)
    case Err(_) => RunErrorAtSomeArgument(Initial, args, 0);
    case Ok(_) => RunPreservesValid(Initial, args, 0);
  }

  /** Run over two consecutive stretches of arguments. */
  lemma RunConcat(st: TokState, xs: seq<string>, ys: seq<string>, from: nat)
    ensures Run(st, xs + ys, from) ==
      match Run(st, xs, from)
      case Err(e) => Err(e)
      case Ok(mid) => Run(mid, ys, from + |xs|)
  {
    match Run(st, xs, from)
    case Err(_) => RunConcatErr(st, xs, ys, from);
    case Ok(mid) => RunConcatOk(st, xs, ys, from, mid, from + |xs|);
  }

  /** A first stretch that succeeds hands its state to the second. */
  lemma {:induction false} RunConcatOk(st: TokState, xs: seq<string>, ys: seq<string>, from: nat, mid: TokState, next: nat)
    requires Run(st, xs, from) == Ok(mid) && next == from + |xs|
    ensures Run(st, xs + ys, from) == Run(mid, ys, next)
    decreases |xs|
  {
    if xs == [] {
      assert xs + ys == ys;
    } else {
      assert (xs + ys)[0] == xs[0] && (xs + ys)[1..] == xs[1..] + ys;
      RunConcatOk(StepArg(st, xs[0], from).value, xs[1..], ys, from + 1, mid, next);
    }
  }

  /** An error in a first stretch stops the run before the second. */
  lemma {:induction false} RunConcatErr(st: TokState, xs: seq<string>, ys: seq<string>, from: nat)
    requires Run(st, xs, from).Err?
    ensures Run(st, xs + ys, from) == Run(st, xs, from)
    decreases |xs|
  {
    assert xs != [];
    assert (xs + ys)[0] == xs[0] && (xs + ys)[1..] == xs[1..] + ys;
    var step := StepArg(st, xs[0], from);
    if step.Ok? {
      RunConcatErr(step.value, xs[1..], ys, from + 1);
    }
  }

  // ---------------------------------------------------------------------
  // Parentheses

  /** The deferred token of the previous argument is emitted before any
      token of this one. */
  lemma DeferredTokenComesFirst(st: TokState, arg: string, i: nat)
    requires StepArg(st, arg, i).Ok?
    ensures Flush(st).result <= StepArg(st, arg, i).value.result
  {
  }

  /** A leading '(' outside an open string emits an opening parenthesis,
      then the rest of the argument is read as an argument of its own. */
  lemma OpeningParenthesisFirst(st: TokState, a: string, i: nat)
    requires st.stringBeginArgumentIndex == -1
    requires a != [] && a[0] != '('
    ensures StepArg(st, ['('] + a, i) ==
      StepArg(Flush(st).(result := Flush(st).result + [ParenthesisToken(i, true)]), a, i)
  {
    assert (['('] + a)[1..] == a;
  }

  /** Inside an open string a '(' is ordinary text. */
  lemma OpeningParenthesisInsideString(st: TokState, a: string, i: nat)
    requires st.stringBeginArgumentIndex >= 0
    requires QuoteFree(a)
    ensures StepArg(st, ['('] + a, i) ==
      Ok(Flush(st).(stringContents := st.stringContents + " " + (['('] + a)))
  {
    var arg := ['('] + a;
    assert forall k :: 1 <= k < |arg| ==> arg[k] == a[k - 1];
  }

  /** A trailing ')' is split off and deferred; what is left of the argument
      is read with the deferred token set, which that reading keeps. */
  lemma ClosingParenthesisDeferred(st: TokState, a: string, i: nat)
    requires a != [] && a[0] != '('
    requires st.stringBeginArgumentIndex < 0 || a[|a| - 1] == '"'
    ensures StepArg(st, a + [')'], i) ==
      ScanArgument(Flush(st).(deferredToken := Some(ParenthesisToken(i, false))), a, i)
  {
    var arg := a + [')'];
    assert arg[..|arg| - 1] == a;
    assert arg[0] == a[0];
    if |a| >= 1 { assert arg[|arg| - 2] == a[|a| - 1]; }
  }

  /** A search term: an argument outside any string that is read as an
      unquoted token as it stands. */
  predicate PlainTerm(t: string)
  {
    t != [] && QuoteFree(t) && t[0] != '(' && t[|t| - 1] != ')' && !IsDigit(t[0])
    && (|t| == 1 ==> t[0] != INTEGER_WILDCARD_CHAR)
  }

  lemma PlainTermScan(s: TokState, t: string, i: nat)
    requires s.stringBeginArgumentIndex == -1 && PlainTerm(t)
    ensures ScanArgument(s, t, i) == Ok(s.(result := s.result + [UnquotedStringToken(i, t)]))
  {
    assert !HasInnerQuote(t);
  }

  lemma PlainTermArgument(st: TokState, t: string, i: nat)
    requires st.stringBeginArgumentIndex == -1 && PlainTerm(t)
    ensures StepArg(st, t, i) == Ok(Flush(st).(result := Flush(st).result + [UnquotedStringToken(i, t)]))
  {
    PlainTermScan(Flush(st), t, i);
  }

  /** `(term` gives an opening parenthesis, then the term. */
  lemma OpeningParenthesisTerm(t: string)
    requires PlainTerm(t)
    ensures Tokenize([['('] + t]) == Ok([ParenthesisToken(0, true), UnquotedStringToken(0, t)])
  {
    OpeningParenthesisFirst(Initial, t, 0);
    var withOpening := Initial.(result := [ParenthesisToken(0, true)]);
    assert Flush(Initial).(result := Flush(Initial).result + [ParenthesisToken(0, true)]) == withOpening;
    PlainTermArgument(withOpening, t, 0);
    var after := withOpening.(result := [ParenthesisToken(0, true), UnquotedStringToken(0, t)]);
    assert withOpening.result + [UnquotedStringToken(0, t)] == after.result;
    assert StepArg(Initial, ['('] + t, 0) == Ok(after);
    assert [['('] + t][1..] == [];
    assert Run(Initial, [['('] + t], 0) == Run(after, [], 1);
  }

  /** `term)` then `next` gives the term, then the closing parenthesis, which
      comes before the tokens of the next argument. */
  lemma ClosingParenthesisTerm(t: string, u: string)
    requires PlainTerm(t) && PlainTerm(u)
    ensures Tokenize([t + [')'], u]) ==
      Ok([UnquotedStringToken(0, t), ParenthesisToken(0, false), UnquotedStringToken(1, u)])
  {
    var args := [t + [')'], u];
    ClosingParenthesisDeferred(Initial, t, 0);
    var deferred := Initial.(deferredToken := Some(ParenthesisToken(0, false)));
    assert Flush(Initial).(deferredToken := Some(ParenthesisToken(0, false))) == deferred;
    PlainTermScan(deferred, t, 0);
    var afterFirst := deferred.(result := [UnquotedStringToken(0, t)]);
    assert deferred.result + [UnquotedStringToken(0, t)] == afterFirst.result;
    assert StepArg(Initial, args[0], 0) == Ok(afterFirst);
    PlainTermArgument(afterFirst, u, 1);
    var flushed := Flush(afterFirst);
    assert flushed.result == [UnquotedStringToken(0, t), ParenthesisToken(0, false)];
    var afterSecond := TokState([UnquotedStringToken(0, t), ParenthesisToken(0, false), UnquotedStringToken(1, u)], None, -1, "");
    assert flushed.result + [UnquotedStringToken(1, u)] == afterSecond.result;
    assert StepArg(afterFirst, u, 1) == Ok(afterSecond);
    assert args[1..] == [u] && args[1..][1..] == [];
    assert Run(Initial, args, 0) == Run(afterFirst, [u], 1);
    assert Run(afterFirst, [u], 1) == Run(afterSecond, [], 2);
  }

  /** A closing parenthesis on the last argument is emitted at the end of
      input, after the term. */
  lemma ClosingParenthesisAtEnd(t: string)
    requires PlainTerm(t)
    ensures Tokenize([t + [')']]) == Ok([UnquotedStringToken(0, t), ParenthesisToken(0, false)])
  {
    ClosingParenthesisDeferred(Initial, t, 0);
    var deferred := Initial.(deferredToken := Some(ParenthesisToken(0, false)));
    assert Flush(Initial).(deferredToken := Some(ParenthesisToken(0, false))) == deferred;
    PlainTermScan(deferred, t, 0);
    var afterFirst := deferred.(result := [UnquotedStringToken(0, t)]);
    assert deferred.result + [UnquotedStringToken(0, t)] == afterFirst.result;
    assert StepArg(Initial, t + [')'], 0) == Ok(afterFirst);
    assert [t + [')']][1..] == [];
    assert Run(Initial, [t + [')']], 0) == Run(afterFirst, [], 1);
    assert Flush(afterFirst).result == [UnquotedStringToken(0, t), ParenthesisToken(0, false)];
  }

  // ---------------------------------------------------------------------
  // Quoted strings

  predicate QuoteFree(s: string)
  {
    forall k :: 0 <= k < |s| ==> s[k] != '"'
  }

  /** Arguments that, inside an open string, are plain words. */
  predicate PlainWords(words: seq<string>)
  {
    forall k :: 0 <= k < |words| ==> words[k] != [] && QuoteFree(words[k])
  }

  /** Each word preceded by one space. */
  function SpaceJoined(words: seq<string>): string
  {
    if words == [] then "" else " " + words[0] + SpaceJoined(words[1..])
  }

  lemma {:induction false} WordsInsideString(st: TokState, words: seq<string>, i: nat)
    requires st.stringBeginArgumentIndex >= 0 && st.deferredToken == None
    requires PlainWords(words)
    ensures Run(st, words, i) == Ok(st.(stringContents := st.stringContents + SpaceJoined(words)))
    decreases |words|
  {
    if words != [] {
      var w := words[0];
      var next := st.(stringContents := st.stringContents + " " + w);
      assert StepArg(st, w, i) == Ok(next);
      assert PlainWords(words[1..]) by {
        forall k | 0 <= k < |words[1..]| ensures words[1..][k] != [] && QuoteFree(words[1..][k]) {
          assert words[1..][k] == words[k + 1];
        }
      }
      WordsInsideString(next, words[1..], i + 1);
      assert Run(st, words, i) == Run(next, words[1..], i + 1);
      assert next.stringContents + SpaceJoined(words[1..]) == st.stringContents + SpaceJoined(words);
    } else {
      assert st.stringContents + SpaceJoined(words) == st.stringContents;
    }
  }

  /** The argument that opens a multi-argument string. */
  lemma OpenString(st: TokState, a: string, i: nat)
    requires st.stringBeginArgumentIndex == -1 && st.stringContents == ""
    requires QuoteFree(a) && (a == [] || a[|a| - 1] != ')')
    ensures StepArg(st, ['"'] + a, i) == Ok(Flush(st).(stringBeginArgumentIndex := i, stringContents := a))
  {
    var arg := ['"'] + a;
    assert arg[1..] == a;
    assert arg[|arg| - 1] != ')';
    forall k | 1 <= k < |arg| ensures arg[k] != '"' {
      assert arg[k] == a[k - 1];
    }
    assert IndexOf(arg, '"', 1).None?;
    var s := Flush(st);
    assert StepArg(st, arg, i) == StripClosing(s, arg, i);
    assert StripClosing(s, arg, i) == ScanArgument(s, arg, i);
    if a == [] {
      assert ScanArgument(s, arg, i) == Ok(s.(stringBeginArgumentIndex := i));
    } else {
      assert ScanArgument(s, arg, i) == Ok(s.(stringBeginArgumentIndex := i, stringContents := s.stringContents + arg[1..]));
      assert s.stringContents + arg[1..] == a;
    }
  }

  /** The argument that closes a multi-argument string. */
  lemma CloseString(st: TokState, c: string, i: nat)
    requires st.stringBeginArgumentIndex >= 0 && st.deferredToken == None
    requires QuoteFree(c)
    ensures StepArg(st, c + ['"'], i) ==
      Ok(TokState(st.result + [QuotedStringToken(st.stringBeginArgumentIndex, st.stringContents + " " + c)], None, -1, ""))
  {
    var arg := c + ['"'];
    assert arg[..|arg| - 1] == c;
    if c == [] {
      assert arg == ['"'];
      assert st.stringContents + " " + c == st.stringContents + " ";
    } else {
      assert arg[0] == c[0];
    }
  }

  /** `"a`, `b`, ..., `c"` becomes one quoted token, at the index of its
      opening argument, holding the words joined by single spaces; a lone
      `"` at either end contributes an empty word. */
  lemma MultiArgumentString(st: TokState, a: string, words: seq<string>, c: string, i: nat)
    requires st.stringBeginArgumentIndex == -1 && st.stringContents == ""
    requires QuoteFree(a) && QuoteFree(c) && PlainWords(words)
    requires a == [] || a[|a| - 1] != ')'
    ensures Run(st, [['"'] + a] + words + [c + ['"']], i) ==
      Ok(TokState(Flush(st).result + [QuotedStringToken(i, a + SpaceJoined(words) + " " + c)], None, -1, ""))
  {
    OpenString(st, a, i);
    var openState := Flush(st).(stringBeginArgumentIndex := i, stringContents := a);
    assert Run(st, [['"'] + a], i) == Ok(openState);
    WordsInsideString(openState, words, i + 1);
    RunConcat(openState, words, [c + ['"']], i + 1);
    var inside := openState.(stringContents := a + SpaceJoined(words));
    CloseString(inside, c, i + 1 + |words|);
    assert Run(inside, [c + ['"']], i + 1 + |words|) == StepArg(inside, c + ['"'], i + 1 + |words|);
    RunConcat(st, [['"'] + a], words + [c + ['"']], i);
    assert [['"'] + a] + words + [c + ['"']] == [['"'] + a] + (words + [c + ['"']]);
  }

  /** An opening argument followed by plain words leaves the string open,
      holding the words joined by single spaces. */
  lemma OpenStringThenWords(st: TokState, a: string, words: seq<string>, i: nat)
    requires st.stringBeginArgumentIndex == -1 && st.stringContents == ""
    requires QuoteFree(a) && PlainWords(words)
    requires a == [] || a[|a| - 1] != ')'
    ensures Run(st, [['"'] + a] + words, i) ==
      Ok(Flush(st).(stringBeginArgumentIndex := i, stringContents := a + SpaceJoined(words)))
  {
    var opening := [['"'] + a];
    OpenString(st, a, i);
    var openState := Flush(st).(stringBeginArgumentIndex := i, stringContents := a);
    assert Run(st, opening, i) == Ok(openState) by {
      assert opening[0] == ['"'] + a && opening[1..] == [];
    }
    WordsInsideString(openState, words, i + 1);
    RunConcat(st, opening, words, i);
  }

  /** Input that ends inside a string fails at the opening argument,
      whatever arguments came before it. */
  lemma UnterminatedString(prefix: seq<string>, st: TokState, a: string, words: seq<string>)
    requires Run(Initial, prefix, 0) == Ok(st) && st.stringBeginArgumentIndex == -1
    requires QuoteFree(a) && PlainWords(words)
    requires a == [] || a[|a| - 1] != ')'
    ensures Tokenize(prefix + [['"'] + a] + words) == Err(ParseError(|prefix|, MissingStringTermination))
  {
    var rest := [['"'] + a] + words;
    assert st.stringContents == "" by {
      RunPreservesValid(Initial, prefix, 0);
    }
    OpenStringThenWords(st, a, words, |prefix|);
    var inside := Flush(st).(stringBeginArgumentIndex := |prefix|, stringContents := a + SpaceJoined(words));
    RunConcatOk(Initial, prefix, rest, 0, st, |prefix|);
    assert prefix + [['"'] + a] + words == prefix + rest;
  }

  // ---------------------------------------------------------------------
  // Quirks of the source, kept as written

  /** The first `c` at or after `from` is the one `IndexOf` finds. */
  lemma IndexOfFound(s: string, c: char, from: nat, k: nat)
    requires from <= k < |s| && s[k] == c
    requires forall j :: from <= j < k ==> s[j] != c
    ensures IndexOf(s, c, from) == Some(k)
  {
  }

  /** An empty argument inside an open string yields an empty unquoted
      token and leaves the string open; that token comes before the quoted
      token, although its argument comes after the opening one. */
  lemma EmptyArgumentInsideString(st: TokState, a: string, c: string, i: nat)
    requires st.stringBeginArgumentIndex == -1 && st.stringContents == ""
    requires QuoteFree(a) && QuoteFree(c) && (a == [] || a[|a| - 1] != ')')
    ensures Run(st, [['"'] + a, "", c + ['"']], i) ==
      Ok(TokState(Flush(st).result + [UnquotedStringToken(i + 1, ""), QuotedStringToken(i, a + " " + c)], None, -1, ""))
  {
    var args := [['"'] + a, "", c + ['"']];
    OpenString(st, a, i);
    var openState := Flush(st).(stringBeginArgumentIndex := i, stringContents := a);
    var withEmpty := openState.(result := openState.result + [UnquotedStringToken(i + 1, "")]);
    assert StepArg(openState, "", i + 1) == Ok(withEmpty);
    CloseString(withEmpty, c, i + 2);
    var closed := TokState(withEmpty.result + [QuotedStringToken(i, a + " " + c)], None, -1, "");
    assert args[1..] == ["", c + ['"']] && args[1..][1..] == [c + ['"']] && args[1..][1..][1..] == [];
    assert Run(st, args, i) == Run(openState, args[1..], i + 1);
    assert Run(openState, args[1..], i + 1) == Run(withEmpty, args[1..][1..], i + 2);
    assert Run(withEmpty, args[1..][1..], i + 2) == Run(closed, [], i + 3);
    assert Flush(st).result + [UnquotedStringToken(i + 1, "")] + [QuotedStringToken(i, a + " " + c)]
        == Flush(st).result + [UnquotedStringToken(i + 1, ""), QuotedStringToken(i, a + " " + c)];
  }

  /** A self-contained quoted argument drops its first and its last
      character, even when its second quote is not the last character. */
  lemma SecondQuoteNotLast(st: TokState, x: string, y: string, i: nat)
    requires QuoteFree(x) && QuoteFree(y)
    requires y != [] && y[|y| - 1] != ')'
    ensures StepArg(st, ['"'] + x + ['"'] + y, i) ==
      Ok(Flush(st).(result := Flush(st).result + [QuotedStringToken(i, x + ['"'] + y[..|y| - 1])]))
  {
    var arg := ['"'] + x + ['"'] + y;
    var n := |arg|;
    assert arg[n - 1] == y[|y| - 1];
    forall k | 1 <= k < |x| + 1 ensures arg[k] != '"' {
      assert arg[k] == x[k - 1];
    }
    assert arg[|x| + 1] == '"';
    assert IndexOf(arg, '"', 1) == Some(|x| + 1);
    forall k | |x| + 2 <= k < n ensures arg[k] != '"' {
      assert arg[k] == y[k - |x| - 2];
    }
    assert IndexOf(arg, '"', |x| + 2) == None;
    assert arg[1..n - 1] == x + ['"'] + y[..|y| - 1];
  }

  /** A self-contained quoted argument inside an open string is emitted on
      its own, and the open string goes on unchanged. */
  lemma SelfContainedInsideOpenString(st: TokState, x: string, i: nat)
    requires st.stringBeginArgumentIndex >= 0
    requires QuoteFree(x)
    ensures StepArg(st, ['"'] + x + ['"'], i) ==
      Ok(Flush(st).(result := Flush(st).result + [QuotedStringToken(i, x)]))
  {
    var arg := ['"'] + x + ['"'];
    var n := |arg|;
    forall k | 1 <= k < n - 1 ensures arg[k] != '"' {
      assert arg[k] == x[k - 1];
    }
    IndexOfFound(arg, '"', 1, n - 1);
    assert arg[1..n - 1] == x;
  }

  // ---------------------------------------------------------------------
  // Single arguments outside strings, and the error cases

  /** A lone '*' outside a string is the integer wildcard; inside an open
      string it is text. */
  lemma WildcardArgument(st: TokState, i: nat)
    ensures StepArg(st, "*", i) ==
      if st.stringBeginArgumentIndex == -1
      then Ok(Flush(st).(result := Flush(st).result + [IntegerToken(i, None, false)]))
      else Ok(Flush(st).(stringContents := st.stringContents + " *"))
  {
    var arg := "*";
    assert |arg| == 1 && arg[0] == '*' && arg[0] != '"' && arg[0] != '(' && arg[0] != ')';
    if st.stringBeginArgumentIndex != -1 {
      assert st.stringContents + " " + arg == st.stringContents + " *";
    }
  }

  /** A digit-led argument outside a string is an integer literal, or fails
      with ExpectedInteger when some character is neither digit nor ':'. */
  lemma DigitLedArgument(st: TokState, arg: string, i: nat)
    requires st.stringBeginArgumentIndex == -1
    requires |arg| > 0 && IsDigit(arg[0])
    requires arg[|arg| - 1] != ')' && arg[|arg| - 1] != '"'
    ensures !WellFormedLiteral(arg) ==> StepArg(st, arg, i) == Err(ParseError(i, ExpectedInteger))
    ensures WellFormedLiteral(arg) ==>
      StepArg(st, arg, i) ==
        Ok(Flush(st).(result := Flush(st).result + [IntegerToken(i, Some(LiteralValue(arg)), ':' in arg)]))
  {
  }

  /** A third quote in an argument that starts with a quote. */
  lemma ThirdQuoteIsMalformed(st: TokState, arg: string, i: nat, p: nat, q: nat)
    requires 0 < p < q < |arg| && arg[0] == '"' && arg[p] == '"' && arg[q] == '"'
    requires arg[|arg| - 1] != ')'
    ensures StepArg(st, arg, i) == Err(ParseError(i, MalformedStringArgument))
  {
    var t := IndexOf(arg, '"', 1);
    assert t.Some?;
    assert IndexOf(arg, '"', t.value + 1).Some? by {
      if t.value < p {
        assert arg[p] == '"';
      } else {
        assert arg[q] == '"';
      }
    }
  }

  /** A leading quote on a longer argument while a string is open. */
  lemma LeadingQuoteWhileOpenIsMalformed(st: TokState, arg: string, i: nat)
    requires st.stringBeginArgumentIndex >= 0
    requires |arg| >= 2 && arg[0] == '"' && QuoteFree(arg[1..])
    requires arg[|arg| - 1] != ')'
    ensures StepArg(st, arg, i) == Err(ParseError(i, MalformedStringArgument))
  {
    forall k | 1 <= k < |arg| ensures arg[k] != '"' {
      assert arg[k] == arg[1..][k - 1];
    }
  }

  /** A trailing quote with no string open. */
  lemma TrailingQuoteWithoutStringIsMalformed(st: TokState, arg: string, i: nat)
    requires st.stringBeginArgumentIndex == -1
    requires |arg| > 0 && arg[0] != '"' && arg[0] != '(' && arg[|arg| - 1] == '"'
    ensures StepArg(st, arg, i) == Err(ParseError(i, MalformedStringArgument))
  {
  }

  /** A quote strictly inside an unquoted search term. */
  lemma InnerQuoteIsMalformed(st: TokState, arg: string, i: nat)
    requires st.stringBeginArgumentIndex == -1
    requires |arg| > 0 && arg[0] != '"' && arg[0] != '(' && !IsDigit(arg[0])
    requires arg[|arg| - 1] != '"' && arg[|arg| - 1] != ')'
    requires HasInnerQuote(arg)
    ensures StepArg(st, arg, i) == Err(ParseError(i, MalformedStringArgument))
  {
  }
}
