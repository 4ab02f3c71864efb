/** The second stage: turning tokens into item predicates. The search
    registry is an abstract function parameter. `Predicates` and its helpers
    specify the loop; `ParsePredicates`, `TryConsumeIntegerArgument` and
    `GetShortestMatch` are the loops and in-place list updates of the
    source, each proved to compute its specification. */
module PredicateParser {
  import opened Tokens

  /** What String.length() reports: UTF-16 code units, so a character
      outside the Basic Multilingual Plane (a surrogate pair) counts twice. */
  function Utf16Length(s: string): (n: nat)
    ensures |s| <= n <= 2 * |s|
  {
    if s == [] then 0
    else Utf16Length(s[..|s| - 1]) + (if s[|s| - 1] as int > 0xFFFF then 2 else 1)
  }

  /** A Java string: its length is an `int`. */
  type JavaString = s: string | Utf16Length(s) <= INT_MAX

  /** What a registry entry stands for, by category. */
  datatype Translatable =
    | Material(name: string)
    | Enchantment(name: string)
    | PotionEffectType(name: string)
    | DeteriorationKey(name: string)
    | OtherTranslatable(name: string)

  /** A registry entry: the translation that matched, and what it names. */
  datatype TranslatedTranslatable = TranslatedTranslatable(translation: JavaString, translatable: Translatable)

  datatype SearchWildcardPresence = Absent | Present | ConflictOccurredRepeatedly

  /** The answer of the registry to one search string, entries in registry order. */
  datatype SearchResult = SearchResult(result: seq<TranslatedTranslatable>, wildcardPresence: SearchWildcardPresence)

  /** The predicates as plain records of what was matched and which integer
      tokens were taken for it; the material predicate keeps its search token. */
  datatype ItemPredicate =
    | TextSearchPredicate(text: string)
    | MaterialPredicate(shortestMatch: Option<TranslatedTranslatable>, search: Token, materials: seq<string>)
    | EnchantmentPredicate(translated: TranslatedTranslatable, enchantment: string, level: Option<Token>)
    | PotionEffectPredicate(translated: TranslatedTranslatable, potionEffect: string,
                            amplifier: Option<Token>, duration: Option<Token>)
    | DeteriorationPredicate(translated: TranslatedTranslatable, min: Option<Token>, max: Option<Token>)

  // -----------------------------------------------------------------------
  // Helpers

  /** The result of tryConsumeIntegerArgument: the integer token taken, if
      any, and the list that is left. */
  datatype Consumed = Consumed(integer: Option<Token>, remaining: seq<Token>)

  /** tryConsumeIntegerArgument on the list's value: the head is taken iff it
      is an integer token, and nothing else is ever taken. */
  function ConsumeInteger(tokens: seq<Token>): (r: Consumed)
    ensures r.integer.Some? <==> tokens != [] && tokens[0].IntegerToken?
    ensures r.integer.Some? ==> r.integer.value == tokens[0] && r.remaining == tokens[1..]
    ensures r.integer.None? ==> r.remaining == tokens
  {
    if tokens != [] && tokens[0].IntegerToken? then Consumed(Some(tokens[0]), tokens[1..])
    else Consumed(None, tokens)
  }

  /** throwOnTimeNotation: an integer token written in time notation is an
      error at its own argument index; no token, or a plain one, passes. */
  function TimeNotationConflict(token: Option<Token>): (r: Option<ParseError>)
    ensures r.Some? <==> token.Some? && token.value.IntegerToken? && token.value.wasTimeNotation
    ensures r.Some? ==> r.value == ParseError(token.value.argumentIndex, DoesNotAcceptTimeNotation)
  {
    match token
    case Some(IntegerToken(i, _, true)) => Some(ParseError(i, DoesNotAcceptTimeNotation))
    case _ => None
  }

  /** The material entries among `entries`, in registry order. */
  function MaterialsOf(entries: seq<TranslatedTranslatable>): (ms: seq<string>)
    ensures |ms| <= |entries|
  {
    if entries == [] then []
    else
      var last := entries[|entries| - 1];
      MaterialsOf(entries[..|entries| - 1]) + (if last.translatable.Material? then [last.translatable.name] else [])
  }

  /** The length of an entry's translation, as String.length() counts it. */
  function TranslationLength(m: TranslatedTranslatable): nat
  {
    Utf16Length(m.translation)
  }

  /** The index of the first entry whose translation is shortest. */
  function ShortestMatchIndex(matches: seq<TranslatedTranslatable>): (k: nat)
    requires matches != []
    ensures k < |matches|
    ensures forall j :: 0 <= j < |matches| ==> TranslationLength(matches[k]) <= TranslationLength(matches[j])
    ensures forall j :: 0 <= j < k ==> TranslationLength(matches[k]) < TranslationLength(matches[j])
  {
    if |matches| == 1 then 0
    else
      var prefix := matches[..|matches| - 1];
      var k := ShortestMatchIndex(prefix);
      assert forall j :: 0 <= j < |prefix| ==> prefix[j] == matches[j];
      if TranslationLength(matches[|matches| - 1]) < TranslationLength(matches[k]) then |matches| - 1 else k
  }

  /** getShortestMatch: nothing for no matches, otherwise the first entry of
      minimal translation length. */
  function ShortestMatch(matches: seq<TranslatedTranslatable>): (r: Option<TranslatedTranslatable>)
    ensures r.None? <==> matches == []
    ensures r.Some? ==> r.value in matches
  {
    if matches == [] then None else Some(matches[ShortestMatchIndex(matches)])
  }

  // -----------------------------------------------------------------------
  // Specification of parsePredicates

  /** One pass of the loop of parsePredicates: the predicate it adds, if
      any, and the tokens left. */
  datatype Parsed = Parsed(added: Option<ItemPredicate>, remaining: seq<Token>)

  /** `tail` is what is left of `tokens` after dropping some of its front. */
  predicate SuffixOf(tail: seq<Token>, tokens: seq<Token>)
  {
    |tail| <= |tokens| && tokens[|tokens| - |tail|..] == tail
  }

  /** The category dispatch on the chosen match, which takes its trailing
      integer tokens from the front of `rest`. */
  function Dispatch(search: Token, m: TranslatedTranslatable, rest: seq<Token>): (r: Result<Parsed>)
    ensures r.Ok? ==> SuffixOf(r.value.remaining, rest)
  {
    match m.translatable
    case Material(name) =>
      Ok(Parsed(Some(MaterialPredicate(Some(m), search, [name])), rest))
    case Enchantment(name) =>
      var level := ConsumeInteger(rest);
      if TimeNotationConflict(level.integer).Some? then Err(TimeNotationConflict(level.integer).value)
      else Ok(Parsed(Some(EnchantmentPredicate(m, name, level.integer)), level.remaining))
    case PotionEffectType(name) =>
      var amplifier := ConsumeInteger(rest);
      if TimeNotationConflict(amplifier.integer).Some? then Err(TimeNotationConflict(amplifier.integer).value)
      else
        var duration := ConsumeInteger(amplifier.remaining);
        Ok(Parsed(Some(PotionEffectPredicate(m, name, amplifier.integer, duration.integer)), duration.remaining))
    case DeteriorationKey(_) =>
      var min := ConsumeInteger(rest);
      if TimeNotationConflict(min.integer).Some? then Err(TimeNotationConflict(min.integer).value)
      else
        var max := ConsumeInteger(min.remaining);
        if TimeNotationConflict(max.integer).Some? then Err(TimeNotationConflict(max.integer).value)
        else Ok(Parsed(Some(DeteriorationPredicate(m, min.integer, max.integer)), max.remaining))
    case OtherTranslatable(_) =>
      Err(ParseError(search.argumentIndex, UnimplementedTranslatable))
  }

  /** One pass of the loop, on the first of `tokens`. */
  function Step(tokens: seq<Token>, registry: string -> SearchResult): (r: Result<Parsed>)
    requires tokens != []
    ensures r.Ok? ==> SuffixOf(r.value.remaining, tokens[1..])
  {
    var current := tokens[0];
    var rest := tokens[1..];
    match current
    case QuotedStringToken(_, text) => Ok(Parsed(Some(TextSearchPredicate(text)), rest))
    case UnquotedStringToken(i, searchString) =>
      if searchString == [] then Ok(Parsed(None, rest))
      else
        var searchResult := registry(searchString);
        if searchResult.wildcardPresence == ConflictOccurredRepeatedly then
          Err(ParseError(i, MultipleSearchPatternWildcards))
        else if searchResult.wildcardPresence == Present then
          var materials := MaterialsOf(searchResult.result);
          if materials == [] then Err(ParseError(i, NoSearchMatch))
          else Ok(Parsed(Some(MaterialPredicate(None, current, materials)), rest))
        else
          var shortestMatch := ShortestMatch(searchResult.result);
          if shortestMatch.None? then Err(ParseError(i, NoSearchMatch))
          else Dispatch(current, shortestMatch.value, rest)
    case _ => Err(ParseError(current.argumentIndex, ExpectedSearchPattern))
  }

  function OptionToSeq(p: Option<ItemPredicate>): seq<ItemPredicate>
  {
    match p
    case None => []
    case Some(q) => [q]
  }

  /** `done` in front of the predicates of a parse that went on, or that
      parse's error. */
  function Prepend(done: seq<ItemPredicate>, r: Result<seq<ItemPredicate>>): Result<seq<ItemPredicate>>
  {
    match r
    case Err(e) => Err(e)
    case Ok(ps) => Ok(done + ps)
  }

  /** parsePredicates: the predicates of the tokens in order, or the first
      error. */
  function Predicates(tokens: seq<Token>, registry: string -> SearchResult): Result<seq<ItemPredicate>>
    decreases |tokens|
  {
    if tokens == [] then Ok([])
    else
      match Step(tokens, registry)
      case Err(e) => Err(e)
      case Ok(parsed) => Prepend(OptionToSeq(parsed.added), Predicates(parsed.remaining, registry))
  }

  lemma PrependPrepend(a: seq<ItemPredicate>, b: seq<ItemPredicate>, r: Result<seq<ItemPredicate>>)
    ensures Prepend(a, Prepend(b, r)) == Prepend(a + b, r)
  {
    if r.Ok? {
      assert a + (b + r.value) == (a + b) + r.value;
    }
  }

  lemma PredicatesStepOk(tokens: seq<Token>, registry: string -> SearchResult)
    requires tokens != [] && Step(tokens, registry).Ok?
    ensures Predicates(tokens, registry) ==
      Prepend(OptionToSeq(Step(tokens, registry).value.added), Predicates(Step(tokens, registry).value.remaining, registry))
  {
  }

  lemma PredicatesStepErr(tokens: seq<Token>, registry: string -> SearchResult)
    requires tokens != [] && Step(tokens, registry).Err?
    ensures Predicates(tokens, registry) == Err(Step(tokens, registry).error)
  {
  }

  // -----------------------------------------------------------------------
  // The imperative code

  /** The working copy of the token list that parsePredicates drains from
      the front. */
  class TokenList {
    var items: seq<Token>

    constructor(tokens: seq<Token>)
      ensures items == tokens
    {
      items := tokens;
    }
  }

  /** tryConsumeIntegerArgument: removes the head of the list in place when
      it is an integer token, and returns it. */
  method TryConsumeIntegerArgument(tokens: TokenList) returns (integerToken: Option<Token>)
    modifies tokens
    ensures ConsumeInteger(old(tokens.items)) == Consumed(integerToken, tokens.items)
  {
    integerToken := None;
    if tokens.items != [] {
      var nextToken := tokens.items[0];
      if nextToken.IntegerToken? {
        integerToken := Some(nextToken);
        tokens.items := tokens.items[1..];
      }
    }
  }

  /** getShortestMatch, with its running minimum that starts at
      Integer.MAX_VALUE. */
  method GetShortestMatch(matches: seq<TranslatedTranslatable>) returns (r: Option<TranslatedTranslatable>)
    ensures r == ShortestMatch(matches)
  {
    if matches == [] {
      return None;
    }
    var numberOfMatches := |matches|;
    if numberOfMatches == 1 {
      return Some(matches[0]);
    }
    var shortestMatchLength := INT_MAX;
    var shortestMatchIndex := 0;
    for matchIndex := 0 to numberOfMatches
      invariant matchIndex == 0 ==> shortestMatchLength == INT_MAX && shortestMatchIndex == 0
      invariant matchIndex > 0 ==> shortestMatchIndex == ShortestMatchIndex(matches[..matchIndex])
      invariant matchIndex > 0 ==> shortestMatchLength == TranslationLength(matches[shortestMatchIndex])
    {
      var currentLength := Utf16Length(matches[matchIndex].translation);
      assert matches[..matchIndex + 1][..matchIndex] == matches[..matchIndex];
      if currentLength < shortestMatchLength {
        shortestMatchLength := currentLength;
        shortestMatchIndex := matchIndex;
      }
    }
    assert matches[..numberOfMatches] == matches;
    return Some(matches[shortestMatchIndex]);
  }

  /** The material loop of the wildcard branch. */
  method CollectMaterials(entries: seq<TranslatedTranslatable>) returns (materials: seq<string>)
    ensures materials == MaterialsOf(entries)
  {
    materials := [];
    for k := 0 to |entries|
      invariant materials == MaterialsOf(entries[..k])
    {
      assert entries[..k + 1][..k] == entries[..k];
      if entries[k].translatable.Material? {
        materials := materials + [entries[k].translatable.name];
      }
    }
    assert entries[..|entries|] == entries;
  }

  /** parsePredicates: drains a copy of `tokens` from the front, appending
      one predicate per search term. */
  method ParsePredicates(tokens: seq<Token>, registry: string -> SearchResult) returns (r: Result<seq<ItemPredicate>>)
    ensures r == Predicates(tokens, registry)
  {
    var result: seq<ItemPredicate> := [];
    var remainingTokens := new TokenList(tokens);
    assert Prepend([], Predicates(tokens, registry)) == Predicates(tokens, registry) by {
      if Predicates(tokens, registry).Ok? {
        assert [] + Predicates(tokens, registry).value == Predicates(tokens, registry).value;
      }
    }
    while remainingTokens.items != []
      invariant Predicates(tokens, registry) == Prepend(result, Predicates(remainingTokens.items, registry))
      decreases |remainingTokens.items|
    {
      ghost var before := remainingTokens.items;
      var currentToken := remainingTokens.items[0];
      remainingTokens.items := remainingTokens.items[1..];
      assert before == [currentToken] + remainingTokens.items;
      var parsed := ParseCurrent(currentToken, remainingTokens, registry);
      if parsed.Err? {
        PredicatesStepErr(before, registry);
        return Err(parsed.error);
      }
      PredicatesStepOk(before, registry);
      PrependPrepend(result, OptionToSeq(parsed.value), Predicates(remainingTokens.items, registry));
      result := result + OptionToSeq(parsed.value);
    }
    assert result + [] == result;
    return Ok(result);
  }

  /** The body of the loop of parsePredicates after `currentToken` was
      removed: the predicate it adds, taking trailing integer tokens from
      `remainingTokens` in place. */
  method ParseCurrent(currentToken: Token, remainingTokens: TokenList, registry: string -> SearchResult)
    returns (r: Result<Option<ItemPredicate>>)
    modifies remainingTokens
    ensures match Step([currentToken] + old(remainingTokens.items), registry)
            case Err(e) => r == Err(e)
            case Ok(parsed) => r == Ok(parsed.added) && remainingTokens.items == parsed.remaining
  {
    ghost var tokens := [currentToken] + remainingTokens.items;
    assert tokens[0] == currentToken && tokens[1..] == remainingTokens.items;
    if currentToken.QuotedStringToken? {
      return Ok(Some(TextSearchPredicate(currentToken.value)));
    }
    if !currentToken.UnquotedStringToken? {
      return Err(ParseError(currentToken.argumentIndex, ExpectedSearchPattern));
    }
    var searchString := currentToken.value;
    if searchString == [] {
      return Ok(None);
    }
    var searchResult := registry(searchString);
    if searchResult.wildcardPresence == ConflictOccurredRepeatedly {
      return Err(ParseError(currentToken.argumentIndex, MultipleSearchPatternWildcards));
    }
    var searchResultEntries := searchResult.result;
    if searchResult.wildcardPresence == Present {
      var materials := CollectMaterials(searchResultEntries);
      if materials == [] {
        return Err(ParseError(currentToken.argumentIndex, NoSearchMatch));
      }
      return Ok(Some(MaterialPredicate(None, currentToken, materials)));
    }
    var shortestMatch := GetShortestMatch(searchResultEntries);
    if shortestMatch.None? {
      return Err(ParseError(currentToken.argumentIndex, NoSearchMatch));
    }
    var m := shortestMatch.value;
    assert Step(tokens, registry) == Dispatch(currentToken, m, remainingTokens.items);
    match m.translatable {
      case Material(predicateMaterial) =>
        return Ok(Some(MaterialPredicate(shortestMatch, currentToken, [predicateMaterial])));
      case Enchantment(predicateEnchantment) =>
        var enchantmentLevel := TryConsumeIntegerArgument(remainingTokens);
        var conflict := TimeNotationConflict(enchantmentLevel);
        if conflict.Some? {
          return Err(conflict.value);
        }
        return Ok(Some(EnchantmentPredicate(m, predicateEnchantment, enchantmentLevel)));
      case PotionEffectType(predicatePotionEffect) =>
        var potionEffectAmplifier := TryConsumeIntegerArgument(remainingTokens);
        var conflict := TimeNotationConflict(potionEffectAmplifier);
        if conflict.Some? {
          return Err(conflict.value);
        }
        var potionEffectDuration := TryConsumeIntegerArgument(remainingTokens);
        return Ok(Some(PotionEffectPredicate(m, predicatePotionEffect, potionEffectAmplifier, potionEffectDuration)));
      case DeteriorationKey(_) =>
        var deteriorationPercentageMin := TryConsumeIntegerArgument(remainingTokens);
        var minConflict := TimeNotationConflict(deteriorationPercentageMin);
        if minConflict.Some? {
          return Err(minConflict.value);
        }
        var deteriorationPercentageMax := TryConsumeIntegerArgument(remainingTokens);
        var maxConflict := TimeNotationConflict(deteriorationPercentageMax);
        if maxConflict.Some? {
          return Err(maxConflict.value);
        }
        return Ok(Some(DeteriorationPredicate(m, deteriorationPercentageMin, deteriorationPercentageMax)));
      case OtherTranslatable(_) =>
        return Err(ParseError(currentToken.argumentIndex, UnimplementedTranslatable));
    }
  }
}
