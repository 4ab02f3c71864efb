/** Properties of parsePredicates and its helpers, stated on the
    specification functions that the methods of PredicateParser compute. */
module PredicateParserLemmas {
  import opened Tokens
  import opened PredicateParser

  // -----------------------------------------------------------------------
  // Tokens that are not search terms

  /** A quoted token is a text search with the same value; the registry is
      not consulted, so the outcome is the same for every registry. */
  lemma QuotedTokenIsTextSearch(i: nat, text: string, rest: seq<Token>, registry: string -> SearchResult,
                                other: string -> SearchResult)
    ensures Predicates([QuotedStringToken(i, text)] + rest, registry) ==
      Prepend([TextSearchPredicate(text)], Predicates(rest, registry))
    ensures Step([QuotedStringToken(i, text)] + rest, registry) == Step([QuotedStringToken(i, text)] + rest, other)
  {
    assert ([QuotedStringToken(i, text)] + rest)[1..] == rest;
  }

  /** An integer or a parenthesis token where a search term is expected
      fails at that token's argument. */
  lemma NonSearchTokenRejected(t: Token, rest: seq<Token>, registry: string -> SearchResult)
    requires t.IntegerToken? || t.ParenthesisToken?
    ensures Predicates([t] + rest, registry) == Err(ParseError(t.argumentIndex, ExpectedSearchPattern))
  {
    assert ([t] + rest)[0] == t;
  }

  /** An empty unquoted token adds nothing and takes nothing after it. */
  lemma EmptyTermSkipped(i: nat, rest: seq<Token>, registry: string -> SearchResult)
    ensures Predicates([UnquotedStringToken(i, "")] + rest, registry) == Predicates(rest, registry)
  {
    var tokens := [UnquotedStringToken(i, "")] + rest;
    assert tokens[1..] == rest;
    assert Step(tokens, registry) == Ok(Parsed(None, rest));
    if Predicates(rest, registry).Ok? {
      assert [] + Predicates(rest, registry).value == Predicates(rest, registry).value;
    }
  }

  // -----------------------------------------------------------------------
  // Wildcard searches

  /** A registry answer with repeated wildcards is an error at the term. */
  lemma WildcardConflict(i: nat, s: string, rest: seq<Token>, registry: string -> SearchResult)
    requires s != [] && registry(s).wildcardPresence == ConflictOccurredRepeatedly
    ensures Predicates([UnquotedStringToken(i, s)] + rest, registry) ==
      Err(ParseError(i, MultipleSearchPatternWildcards))
  {
    assert ([UnquotedStringToken(i, s)] + rest)[0] == UnquotedStringToken(i, s);
  }

  /** A wildcard search keeps exactly the material entries, in registry
      order, fails when there are none, and takes no integer after it. */
  lemma WildcardMaterials(i: nat, s: string, rest: seq<Token>, registry: string -> SearchResult)
    requires s != [] && registry(s).wildcardPresence == Present
    ensures MaterialsOf(registry(s).result) == [] ==>
      Step([UnquotedStringToken(i, s)] + rest, registry) == Err(ParseError(i, NoSearchMatch))
    ensures MaterialsOf(registry(s).result) != [] ==>
      Step([UnquotedStringToken(i, s)] + rest, registry) ==
        Ok(Parsed(Some(MaterialPredicate(None, UnquotedStringToken(i, s), MaterialsOf(registry(s).result))), rest))
  {
    assert ([UnquotedStringToken(i, s)] + rest)[1..] == rest;
  }

  /** The materials of two lists one after the other. */
  lemma {:induction false} MaterialsOfAppend(a: seq<TranslatedTranslatable>, b: seq<TranslatedTranslatable>)
    ensures MaterialsOf(a + b) == MaterialsOf(a) + MaterialsOf(b)
    decreases |b|
  {
    if b == [] {
      assert a + b == a;
    } else {
      var last := b[|b| - 1];
      var tail := if last.translatable.Material? then [last.translatable.name] else [];
      assert (a + b)[..|a + b| - 1] == a + b[..|b| - 1];
      MaterialsOfAppend(a, b[..|b| - 1]);
      assert MaterialsOf(a + b) == MaterialsOf(a) + MaterialsOf(b[..|b| - 1]) + tail;
    }
  }

  /** A material is kept iff some entry names it. */
  lemma {:induction false} MaterialsOfMembers(entries: seq<TranslatedTranslatable>, name: string)
    ensures name in MaterialsOf(entries) <==>
      exists k :: 0 <= k < |entries| && entries[k].translatable == Material(name)
    decreases |entries|
  {
    if entries != [] {
      var prefix := entries[..|entries| - 1];
      MaterialsOfMembers(prefix, name);
      var last := entries[|entries| - 1];
      if name in MaterialsOf(entries) {
        if name !in MaterialsOf(prefix) {
          assert last.translatable == Material(name);
        } else {
          var k :| 0 <= k < |prefix| && prefix[k].translatable == Material(name);
          assert entries[k] == prefix[k];
        }
      }
      if exists k :: 0 <= k < |entries| && entries[k].translatable == Material(name) {
        var k :| 0 <= k < |entries| && entries[k].translatable == Material(name);
        if k < |prefix| {
          assert prefix[k] == entries[k];
        }
      }
    }
  }

  /** No materials are kept iff no entry is a material. */
  lemma {:induction false} MaterialsOfEmpty(entries: seq<TranslatedTranslatable>)
    ensures MaterialsOf(entries) == [] <==> forall k :: 0 <= k < |entries| ==> !entries[k].translatable.Material?
    decreases |entries|
  {
    if entries != [] {
      var prefix := entries[..|entries| - 1];
      MaterialsOfEmpty(prefix);
      assert forall k :: 0 <= k < |prefix| ==> prefix[k] == entries[k];
    }
  }

  // -----------------------------------------------------------------------
  // Searches without a wildcard

  /** No entries: no search match. */
  lemma NoEntriesNoMatch(i: nat, s: string, rest: seq<Token>, registry: string -> SearchResult)
    requires s != [] && registry(s).wildcardPresence == Absent && registry(s).result == []
    ensures Predicates([UnquotedStringToken(i, s)] + rest, registry) == Err(ParseError(i, NoSearchMatch))
  {
    assert ([UnquotedStringToken(i, s)] + rest)[0] == UnquotedStringToken(i, s);
  }

  /** Otherwise the first entry of shortest translation decides what the
      term is, and its category decides the rest. */
  lemma ShortestEntryDecides(i: nat, s: string, rest: seq<Token>, registry: string -> SearchResult)
    requires s != [] && registry(s).wildcardPresence == Absent && registry(s).result != []
    ensures var entries := registry(s).result;
      var k := ShortestMatchIndex(entries);
      (forall j :: 0 <= j < |entries| ==> TranslationLength(entries[k]) <= TranslationLength(entries[j])) &&
      (forall j :: 0 <= j < k ==> TranslationLength(entries[k]) < TranslationLength(entries[j])) &&
      Step([UnquotedStringToken(i, s)] + rest, registry) == Dispatch(UnquotedStringToken(i, s), entries[k], rest)
  {
    assert ([UnquotedStringToken(i, s)] + rest)[1..] == rest;
  }

  /** Lengths are UTF-16 lengths: two characters outside the Basic
      Multilingual Plane are four units, longer than three plain ones. */
  lemma SupplementaryCharactersCountTwice(e: char, a: char, b: char, c: char, x: Translatable, y: Translatable)
    requires e as int > 0xFFFF && a as int <= 0xFFFF && b as int <= 0xFFFF && c as int <= 0xFFFF
    ensures ShortestMatchIndex([TranslatedTranslatable([e, e], x), TranslatedTranslatable([a, b, c], y)]) == 1
  {
    assert [e, e][..1] == [e] && [e][..0] == [];
    assert [a, b, c][..2] == [a, b] && [a, b][..1] == [a] && [a][..0] == [];
    assert Utf16Length([e]) == 2 && Utf16Length([e, e]) == 4;
    assert Utf16Length([a]) == 1 && Utf16Length([a, b]) == 2 && Utf16Length([a, b, c]) == 3;
  }

  // -----------------------------------------------------------------------
  // Trailing integer arguments

  /** How many integer arguments a category takes at most. */
  function Arity(t: Translatable): nat
  {
    match t
    case Material(_) => 0
    case Enchantment(_) => 1
    case PotionEffectType(_) => 2
    case DeteriorationKey(_) => 2
    case OtherTranslatable(_) => 0
  }

  /** The number of integer tokens at the front of `tokens`. */
  function LeadingIntegers(tokens: seq<Token>): (n: nat)
    ensures n <= |tokens|
    ensures forall k :: 0 <= k < n ==> tokens[k].IntegerToken?
    ensures n < |tokens| ==> !tokens[n].IntegerToken?
  {
    if tokens == [] || !tokens[0].IntegerToken? then 0
    else
      var n := LeadingIntegers(tokens[1..]);
      assert forall k :: 1 <= k < n + 1 ==> tokens[k] == tokens[1..][k - 1];
      n + 1
  }

  function Min(a: nat, b: nat): nat
  {
    if a <= b then a else b
  }

  /** A successful dispatch takes as many integer tokens as its category
      allows and as there are, and no other token. */
  lemma DispatchConsumes(search: Token, m: TranslatedTranslatable, rest: seq<Token>)
    requires Dispatch(search, m, rest).Ok?
    ensures Dispatch(search, m, rest).value.remaining == rest[Min(Arity(m.translatable), LeadingIntegers(rest))..]
  {
    var first := ConsumeInteger(rest);
    ConsumeIntegerLeading(rest);
    ConsumeIntegerLeading(first.remaining);
    if first.integer.Some? && ConsumeInteger(first.remaining).integer.Some? {
      assert rest[1..][1..] == rest[2..];
    }
  }

  lemma ConsumeIntegerLeading(rest: seq<Token>)
    ensures ConsumeInteger(rest).integer.Some? ==> LeadingIntegers(rest) == LeadingIntegers(rest[1..]) + 1
    ensures ConsumeInteger(rest).integer.None? ==> LeadingIntegers(rest) == 0
  {
  }

  /** An enchantment level in time notation is an error at that level. */
  lemma EnchantmentLevelTimeNotation(search: Token, m: TranslatedTranslatable, j: nat, n: Option<nat>, more: seq<Token>)
    requires m.translatable.Enchantment?
    ensures Dispatch(search, m, [IntegerToken(j, n, true)] + more) == Err(ParseError(j, DoesNotAcceptTimeNotation))
  {
  }

  /** A potion amplifier in time notation is an error at the amplifier,
      whatever follows it. */
  lemma PotionAmplifierTimeNotation(search: Token, m: TranslatedTranslatable, j: nat, n: Option<nat>, more: seq<Token>)
    requires m.translatable.PotionEffectType?
    ensures Dispatch(search, m, [IntegerToken(j, n, true)] + more) == Err(ParseError(j, DoesNotAcceptTimeNotation))
  {
  }

  /** The potion duration is never checked for time notation. */
  lemma PotionDurationUnchecked(search: Token, m: TranslatedTranslatable, amplifier: Token, duration: Token,
                                more: seq<Token>)
    requires m.translatable.PotionEffectType?
    requires amplifier.IntegerToken? && !amplifier.wasTimeNotation && duration.IntegerToken?
    ensures Dispatch(search, m, [amplifier, duration] + more) ==
      Ok(Parsed(Some(PotionEffectPredicate(m, m.translatable.name, Some(amplifier), Some(duration))), more))
  {
    assert ([amplifier, duration] + more)[1..] == [duration] + more;
    assert ([duration] + more)[1..] == more;
  }

  /** A minimum deterioration bound in time notation is an error at that
      bound, before any maximum is taken. */
  lemma DeteriorationMinTimeNotation(search: Token, m: TranslatedTranslatable, j: nat, n: Option<nat>, more: seq<Token>)
    requires m.translatable.DeteriorationKey?
    ensures Dispatch(search, m, [IntegerToken(j, n, true)] + more) == Err(ParseError(j, DoesNotAcceptTimeNotation))
  {
    var min := ConsumeInteger([IntegerToken(j, n, true)] + more);
    assert min.integer == Some(IntegerToken(j, n, true));
    assert TimeNotationConflict(min.integer) == Some(ParseError(j, DoesNotAcceptTimeNotation));
  }

  /** A maximum deterioration bound in time notation is an error at that
      bound. */
  lemma DeteriorationMaxTimeNotation(search: Token, m: TranslatedTranslatable, min: Token, j: nat, n: Option<nat>,
                                     more: seq<Token>)
    requires m.translatable.DeteriorationKey?
    requires min.IntegerToken? && !min.wasTimeNotation
    ensures Dispatch(search, m, [min, IntegerToken(j, n, true)] + more) == Err(ParseError(j, DoesNotAcceptTimeNotation))
  {
    assert ([min, IntegerToken(j, n, true)] + more)[1..] == [IntegerToken(j, n, true)] + more;
  }

  /** A category with no predicate is an error at the search term. */
  lemma OtherTranslatableUnimplemented(search: Token, m: TranslatedTranslatable, rest: seq<Token>)
    requires m.translatable.OtherTranslatable?
    ensures Dispatch(search, m, rest) == Err(ParseError(search.argumentIndex, UnimplementedTranslatable))
  {
  }

  // -----------------------------------------------------------------------
  // The whole loop

  /** Every error is reported at the argument index of one of the tokens. */
  lemma {:induction false} ErrorAtSomeToken(tokens: seq<Token>, registry: string -> SearchResult)
    requires Predicates(tokens, registry).Err?
    ensures exists k :: 0 <= k < |tokens| && tokens[k].argumentIndex == Predicates(tokens, registry).error.argumentIndex
    decreases |tokens|
  {
    var step := Step(tokens, registry);
    var e := Predicates(tokens, registry).error;
    if step.Err? {
      StepErrorAtSomeToken(tokens, registry);
    } else {
      var remaining := step.value.remaining;
      ErrorAtSomeToken(remaining, registry);
      var k :| 0 <= k < |remaining| && remaining[k].argumentIndex == e.argumentIndex;
      var offset := |tokens| - |remaining|;
      assert tokens[1..][|tokens[1..]| - |remaining|..] == remaining;
      assert tokens[offset + k] == remaining[k];
    }
  }

  lemma StepErrorAtSomeToken(tokens: seq<Token>, registry: string -> SearchResult)
    requires tokens != [] && Step(tokens, registry).Err?
    ensures exists k :: 0 <= k < |tokens| && tokens[k].argumentIndex == Step(tokens, registry).error.argumentIndex
  {
    var e := Step(tokens, registry).error;
    if e.argumentIndex != tokens[0].argumentIndex {
      // Only a time-notation conflict names another token: the head of the rest.
      assert tokens[1].argumentIndex == e.argumentIndex || tokens[2].argumentIndex == e.argumentIndex;
    }
  }

  /** Each token adds at most one predicate. */
  lemma {:induction false} AtMostOnePredicatePerToken(tokens: seq<Token>, registry: string -> SearchResult)
    requires Predicates(tokens, registry).Ok?
    ensures |Predicates(tokens, registry).value| <= |tokens|
    decreases |tokens|
  {
    if tokens != [] {
      var parsed := Step(tokens, registry).value;
      AtMostOnePredicatePerToken(parsed.remaining, registry);
    }
  }

  predicate AllQuoted(tokens: seq<Token>)
  {
    forall k :: 0 <= k < |tokens| ==> tokens[k].QuotedStringToken?
  }

  /** Quoted tokens only: one text search per token, in order. */
  lemma {:induction false} QuotedTokensOnly(tokens: seq<Token>, registry: string -> SearchResult)
    requires AllQuoted(tokens)
    ensures Predicates(tokens, registry).Ok?
    ensures |Predicates(tokens, registry).value| == |tokens|
    ensures forall k :: 0 <= k < |tokens| ==> Predicates(tokens, registry).value[k] == TextSearchPredicate(tokens[k].value)
    decreases |tokens|
  {
    if tokens != [] {
      assert AllQuoted(tokens[1..]) by {
        forall k | 0 <= k < |tokens[1..]| ensures tokens[1..][k].QuotedStringToken? {
          assert tokens[1..][k] == tokens[k + 1];
        }
      }
      QuotedTokensOnly(tokens[1..], registry);
      assert Step(tokens, registry) == Ok(Parsed(Some(TextSearchPredicate(tokens[0].value)), tokens[1..]));
      PredicatesStepOk(tokens, registry);
      var restTexts := Predicates(tokens[1..], registry).value;
      assert Predicates(tokens, registry).value == [TextSearchPredicate(tokens[0].value)] + restTexts;
      forall k | 1 <= k < |tokens|
        ensures Predicates(tokens, registry).value[k] == TextSearchPredicate(tokens[k].value)
      {
        assert tokens[1..][k - 1] == tokens[k];
      }
    }
  }
}
