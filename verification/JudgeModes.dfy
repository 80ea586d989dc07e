/** What each mode of the output validator means, token by token. */
module JudgeModes {
  import opened Prelude
  import opened Text
  import opened Judge

  function Mapped<T>(tokens: seq<string>, f: string -> T): (r: seq<T>)
    ensures |r| == |tokens| && forall i :: 0 <= i < |r| ==> r[i] == f(tokens[i])
  {
    if tokens == [] then [] else [f(tokens[0])] + Mapped(tokens[1..], f)
  }

  lemma MappedDrop<T>(tokens: seq<string>, i: nat, f: string -> T)
    requires i < |tokens|
    ensures Mapped(Drop(tokens, i), f) == Drop(Mapped(tokens, f), i)
  {
    var rest := Drop(tokens, i);
    forall k | 0 <= k < |rest| ensures Mapped(rest, f)[k] == Drop(Mapped(tokens, f), i)[k] {
      assert rest[k] == tokens[if k < i then k else k + 1];
    }
  }

  lemma MappedCounts<T>(tokens: seq<string>, i: nat, f: string -> T)
    requires i < |tokens|
    ensures multiset(Mapped(tokens, f)) == multiset(Mapped(Drop(tokens, i), f)) + multiset{f(tokens[i])}
  {
    MappedDrop(tokens, i, f);
    DropCounts(Mapped(tokens, f), i);
  }

  lemma MappedCons<T>(first: string, rest: seq<string>, f: string -> T)
    ensures Mapped([first] + rest, f) == [f(first)] + Mapped(rest, f)
  {
    assert ([first] + rest)[1..] == rest;
  }

  lemma PutFront(tokens: seq<string>, j: nat, rest: seq<string>)
    requires j < |tokens| && multiset(rest) == multiset(Drop(tokens, j))
    ensures multiset([tokens[j]] + rest) == multiset(tokens)
  {
    DropCounts(tokens, j);
  }

  lemma DropFirst<T>(c: seq<T>)
    requires c != []
    ensures c == [c[0]] + Drop(c, 0) && multiset(Drop(c, 0)) == multiset(c) - multiset{c[0]}
  {
    DropCounts(c, 0);
  }

  /** Rearranged images come from rearranged tokens. */
  lemma {:induction false} LiftArrangement<T>(tokens: seq<string>, f: string -> T, c: seq<T>)
    returns (arranged: seq<string>)
    requires multiset(c) == multiset(Mapped(tokens, f))
    ensures multiset(arranged) == multiset(tokens) && Mapped(arranged, f) == c
    decreases |c|
  {
    var all := Mapped(tokens, f);
    assert |c| == |multiset(c)| == |all|;
    if c == [] {
      arranged := [];
    } else {
      assert c[0] in multiset(all);
      var j :| 0 <= j < |all| && all[j] == c[0];
      DropFirst(c);
      MappedCounts(tokens, j, f);
      var rest := LiftArrangement(Drop(tokens, j), f, Drop(c, 0));
      arranged := [tokens[j]] + rest;
      PutFront(tokens, j, rest);
      MappedCons(tokens[j], rest, f);
    }
  }

  lemma {:induction false} ArrangementMaps<T>(tokens: seq<string>, arranged: seq<string>, f: string -> T)
    requires multiset(arranged) == multiset(tokens)
    ensures multiset(Mapped(arranged, f)) == multiset(Mapped(tokens, f))
    decreases |arranged|
  {
    assert |arranged| == |multiset(arranged)| == |tokens|;
    if arranged != [] {
      assert arranged[0] in multiset(tokens);
      var j :| 0 <= j < |tokens| && tokens[j] == arranged[0];
      DropCounts(tokens, j);
      DropCounts(arranged, 0);
      ArrangementMaps(Drop(tokens, j), Drop(arranged, 0), f);
      MappedCounts(tokens, j, f);
      MappedCounts(arranged, 0, f);
    }
  }

  function Spelling(config: ValidatorConfig, p: Platform): string -> string {
    (t: string) => if config.ignoreCase then p.lower(t) else t
  }

  /** Two tokens agree: numbers within the tolerance, or the same text, up to case if case is ignored. */
  predicate Agree(a: string, b: string, config: ValidatorConfig, p: Platform) {
    var (x, y) := (Spelling(config, p)(a), Spelling(config, p)(b));
    if config.isFloat then
      p.parse(x).Some? && p.parse(y).Some?
      && -config.floatEpsilon <= p.parse(x).value - p.parse(y).value <= config.floatEpsilon
    else x == y
  }

  ghost predicate AllAgree(user: seq<string>, expected: seq<string>, config: ValidatorConfig, p: Platform) {
    |user| == |expected| && forall i :: 0 <= i < |user| ==> Agree(user[i], expected[i], config, p)
  }

  ghost predicate SomeArrangementAgrees(user: seq<string>, expected: seq<string>,
                                        config: ValidatorConfig, p: Platform)
  {
    exists arranged :: multiset(arranged) == multiset(expected) && AllAgree(user, arranged, config, p)
  }

  lemma {:induction false} FoldSpells(tokens: seq<string>, config: ValidatorConfig, p: Platform)
    ensures Fold(tokens, config, p) == Mapped(tokens, Spelling(config, p))
  {
    if tokens != [] {
      FoldSpells(tokens[1..], config, p);
    }
  }

  // ---------- numbers ----------

  function Number(p: Platform): string -> Option<real> {
    (t: string) => p.parse(t)
  }

  function Values(numbers: seq<Option<real>>): (r: seq<real>)
    requires forall i :: 0 <= i < |numbers| ==> numbers[i].Some?
    ensures |r| == |numbers| && forall i :: 0 <= i < |r| ==> Some(r[i]) == numbers[i]
  {
    if numbers == [] then [] else [numbers[0].value] + Values(numbers[1..])
  }

  lemma {:induction false} ParsesIff(tokens: seq<string>, p: Platform)
    ensures ParseAll(tokens, p).Some? <==> forall i :: 0 <= i < |tokens| ==> p.parse(tokens[i]).Some?
    ensures ParseAll(tokens, p).Some? ==>
      forall i :: 0 <= i < |tokens| ==> p.parse(tokens[i]) == Some(ParseAll(tokens, p).value[i])
  {
    if tokens != [] {
      ParsesIff(tokens[1..], p);
      assert forall i :: 0 < i < |tokens| ==> tokens[i] == tokens[1..][i - 1];
    }
  }

  function NumberOf(config: ValidatorConfig, p: Platform): string -> real {
    (t: string) => var n := p.parse(Spelling(config, p)(t)); if n.Some? then n.value else 0.0
  }

  ghost predicate AreNumbers(tokens: seq<string>, config: ValidatorConfig, p: Platform) {
    forall i :: 0 <= i < |tokens| ==> p.parse(Spelling(config, p)(tokens[i])).Some?
  }

  lemma NumbersAre(tokens: seq<string>, config: ValidatorConfig, p: Platform)
    ensures var parsed := ParseAll(Fold(tokens, config, p), p);
      && (parsed.Some? <==> AreNumbers(tokens, config, p))
      && (parsed.Some? ==> parsed.value == Mapped(tokens, NumberOf(config, p)))
  {
    FoldSpells(tokens, config, p);
    ParsesIff(Fold(tokens, config, p), p);
    var folded := Mapped(tokens, Spelling(config, p));
    assert forall i :: 0 <= i < |tokens| ==> folded[i] == Spelling(config, p)(tokens[i]);
  }

  lemma ArrangedNumbers(tokens: seq<string>, arranged: seq<string>, config: ValidatorConfig, p: Platform)
    requires multiset(arranged) == multiset(tokens) && AreNumbers(tokens, config, p)
    ensures AreNumbers(arranged, config, p)
  {
    forall i | 0 <= i < |arranged| ensures p.parse(Spelling(config, p)(arranged[i])).Some? {
      assert arranged[i] in multiset(tokens);
    }
  }

  lemma CloseAgrees(user: seq<string>, expected: seq<string>, config: ValidatorConfig, p: Platform)
    requires config.isFloat && AreNumbers(user, config, p) && AreNumbers(expected, config, p)
    ensures Close(Mapped(user, NumberOf(config, p)), Mapped(expected, NumberOf(config, p)), config.floatEpsilon)
       <==> AllAgree(user, expected, config, p)
  {
    var u, e := Mapped(user, NumberOf(config, p)), Mapped(expected, NumberOf(config, p));
    if |user| == |expected| {
      forall i | 0 <= i < |user|
        ensures Abs(u[i] - e[i]) <= config.floatEpsilon <==> Agree(user[i], expected[i], config, p)
      {
      }
    }
  }

  lemma AgreeingNumbers(user: seq<string>, expected: seq<string>, config: ValidatorConfig, p: Platform)
    requires config.isFloat && AllAgree(user, expected, config, p)
    ensures AreNumbers(user, config, p) && AreNumbers(expected, config, p)
  {
    forall i | 0 <= i < |user|
      ensures p.parse(Spelling(config, p)(user[i])).Some? && p.parse(Spelling(config, p)(expected[i])).Some?
    {
      assert Agree(user[i], expected[i], config, p);
    }
  }

  lemma FloatInOrder(user: seq<string>, expected: seq<string>, config: ValidatorConfig, p: Platform)
    requires config.isFloat && !config.isUnordered
    ensures FloatAccepts(Fold(user, config, p), Fold(expected, config, p), config, p)
       <==> AllAgree(user, expected, config, p)
  {
    NumbersAre(user, config, p);
    NumbersAre(expected, config, p);
    if AllAgree(user, expected, config, p) {
      AgreeingNumbers(user, expected, config, p);
    }
    if AreNumbers(user, config, p) && AreNumbers(expected, config, p) {
      CloseAgrees(user, expected, config, p);
    }
  }

  lemma MatchableAgrees(user: seq<string>, expected: seq<string>, config: ValidatorConfig, p: Platform)
    requires config.isFloat && AreNumbers(user, config, p) && AreNumbers(expected, config, p)
    ensures Matchable(Mapped(user, NumberOf(config, p)), Mapped(expected, NumberOf(config, p)), config.floatEpsilon)
       <==> SomeArrangementAgrees(user, expected, config, p)
  {
    var f := NumberOf(config, p);
    if Matchable(Mapped(user, f), Mapped(expected, f), config.floatEpsilon) {
      var c :| multiset(c) == multiset(Mapped(expected, f)) && Close(Mapped(user, f), c, config.floatEpsilon);
      var arranged := LiftArrangement(expected, f, c);
      ArrangedNumbers(expected, arranged, config, p);
      CloseAgrees(user, arranged, config, p);
    }
    if arranged :| multiset(arranged) == multiset(expected) && AllAgree(user, arranged, config, p) {
      ArrangementMaps(expected, arranged, f);
      ArrangedNumbers(expected, arranged, config, p);
      CloseAgrees(user, arranged, config, p);
    }
  }

  lemma FloatInAnyOrder(user: seq<string>, expected: seq<string>, config: ValidatorConfig, p: Platform)
    requires config.isFloat && config.isUnordered
    ensures FloatAccepts(Fold(user, config, p), Fold(expected, config, p), config, p)
       <==> SomeArrangementAgrees(user, expected, config, p)
  {
    NumbersAre(user, config, p);
    NumbersAre(expected, config, p);
    if arranged :| multiset(arranged) == multiset(expected) && AllAgree(user, arranged, config, p) {
      AgreeingNumbers(user, arranged, config, p);
      ArrangedNumbers(arranged, expected, config, p);
    }
    if AreNumbers(user, config, p) && AreNumbers(expected, config, p) {
      MatchableAgrees(user, expected, config, p);
    }
  }

  // ---------- texts ----------

  lemma TextInOrder(user: seq<string>, expected: seq<string>, config: ValidatorConfig, p: Platform)
    requires !config.isFloat
    ensures Fold(user, config, p) == Fold(expected, config, p) <==> AllAgree(user, expected, config, p)
  {
    var f := Spelling(config, p);
    FoldSpells(user, config, p);
    FoldSpells(expected, config, p);
    if |user| == |expected| {
      forall i | 0 <= i < |user|
        ensures Mapped(user, f)[i] == Mapped(expected, f)[i] <==> Agree(user[i], expected[i], config, p)
      {
      }
    }
  }

  lemma TextInAnyOrder(user: seq<string>, expected: seq<string>, config: ValidatorConfig, p: Platform)
    requires !config.isFloat
    ensures multiset(Fold(user, config, p)) == multiset(Fold(expected, config, p))
       <==> SomeArrangementAgrees(user, expected, config, p)
  {
    var f := Spelling(config, p);
    FoldSpells(user, config, p);
    FoldSpells(expected, config, p);
    if multiset(Mapped(user, f)) == multiset(Mapped(expected, f)) {
      var arranged := LiftArrangement(expected, f, Mapped(user, f));
      FoldSpells(arranged, config, p);
      TextInOrder(user, arranged, config, p);
    }
    if arranged :| multiset(arranged) == multiset(expected) && AllAgree(user, arranged, config, p) {
      ArrangementMaps(expected, arranged, f);
      FoldSpells(arranged, config, p);
      TextInOrder(user, arranged, config, p);
    }
  }

  /**
   What the modes mean. Outputs compared verbatim must agree as a whole. Otherwise only
   their tokens count: they must agree one by one, in order, or when order does not
   matter against some arrangement of the expected ones.
   */
  lemma ModesMean(user: string, expected: string, config: ValidatorConfig, p: Platform)
    ensures Accepts(user, expected, config, p) <==>
      if !config.ignoreWhitespace && !config.isFloat && !config.isUnordered && !config.isTokenMode
      then Agree(user, expected, config, p)
      else if config.isUnordered then SomeArrangementAgrees(Tokenize(user), Tokenize(expected), config, p)
      else AllAgree(Tokenize(user), Tokenize(expected), config, p)
  {
    var u, e := Tokenize(user), Tokenize(expected);
    if config.isFloat {
      if config.isUnordered {
        FloatInAnyOrder(u, e, config, p);
      } else {
        FloatInOrder(u, e, config, p);
      }
    } else {
      TextInOrder(u, e, config, p);
      TextInAnyOrder(u, e, config, p);
    }
  }

  /**
   A validator configuration is used as it is; with anything else, whatever the judge
   method says, two outputs are accepted if and only if they have the same tokens.
   */
  lemma DefaultComparesTokens(user: string, expected: string, config: Option<JudgeConfig>, p: Platform)
    ensures if config.Some? && config.value.judgeMethod.Validator? && config.value.validator.Some?
      then EffectiveConfig(config) == config.value.validator.value
      else Accepts(user, expected, EffectiveConfig(config), p) <==> Tokenize(user) == Tokenize(expected)
  {
  }
}
