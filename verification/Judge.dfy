/** The output validator: what it accepts, stated without sorting, and its code. */
module Judge {
  import opened Prelude
  import opened Sorting
  import opened Text

  datatype ValidatorConfig = ValidatorConfig(
    ignoreWhitespace: bool, ignoreCase: bool, isUnordered: bool, isTokenMode: bool, isFloat: bool, floatEpsilon: real)

  datatype JudgeMethod = Validator | Spj

  datatype JudgeConfig = JudgeConfig(judgeMethod: JudgeMethod, validator: Option<ValidatorConfig>)

  datatype CaseJudgeStatus = Accepted | WrongAnswer

  /** What the platform supplies: lower-casing and reading a number, any functions. Numbers are reals. */
  datatype Platform = Platform(lower: string -> string, parse: string -> Option<real>)

  const DEFAULT_CONFIG := ValidatorConfig(true, false, false, false, false, 0.0)

  function EffectiveConfig(config: Option<JudgeConfig>): ValidatorConfig {
    if config.Some? && config.value.judgeMethod.Validator? && config.value.validator.Some?
    then config.value.validator.value else DEFAULT_CONFIG
  }

  // ---------- what is accepted ----------

  predicate Verbatim(config: ValidatorConfig) {
    !config.ignoreWhitespace && !config.isFloat && !config.isUnordered && !config.isTokenMode
  }

  function MapTokens(tokens: seq<string>, f: string -> string): (r: seq<string>)
    ensures |r| == |tokens|
  {
    if tokens == [] then [] else [f(tokens[0])] + MapTokens(tokens[1..], f)
  }

  function Fold(tokens: seq<string>, config: ValidatorConfig, p: Platform): seq<string> {
    if config.ignoreCase then MapTokens(tokens, p.lower) else tokens
  }

  function Abs(x: real): real {
    if x < 0.0 then -x else x
  }

  ghost predicate Close(a: seq<real>, b: seq<real>, epsilon: real) {
    |a| == |b| && forall i :: 0 <= i < |a| ==> Abs(a[i] - b[i]) <= epsilon
  }

  /** Some arrangement of the expected numbers matches the user's, number by number. */
  ghost predicate Matchable(user: seq<real>, expected: seq<real>, epsilon: real) {
    exists c :: multiset(c) == multiset(expected) && Close(user, c, epsilon)
  }

  function ParseAll(tokens: seq<string>, p: Platform): (r: Option<seq<real>>)
    ensures r.Some? ==> |r.value| == |tokens|
  {
    if tokens == [] then Some([])
    else
      var head, tail := p.parse(tokens[0]), ParseAll(tokens[1..], p);
      if head.Some? && tail.Some? then Some([head.value] + tail.value) else None
  }

  ghost predicate FloatAccepts(user: seq<string>, expected: seq<string>, config: ValidatorConfig, p: Platform) {
    var u, e := ParseAll(user, p), ParseAll(expected, p);
    && u.Some? && e.Some?
    && if config.isUnordered then Matchable(u.value, e.value, config.floatEpsilon)
       else Close(u.value, e.value, config.floatEpsilon)
  }

  ghost predicate Accepts(user: string, expected: string, config: ValidatorConfig, p: Platform) {
    if Verbatim(config) then
      if config.ignoreCase then p.lower(user) == p.lower(expected) else user == expected
    else
      var u, e := Fold(Tokenize(user), config, p), Fold(Tokenize(expected), config, p);
      if config.isFloat then FloatAccepts(u, e, config, p)
      else if config.isUnordered then multiset(u) == multiset(e)
      else u == e
  }

  // ---------- the exchange argument ----------
  // Sorting both sides and comparing position by position decides what is accepted in any order.

  function Drop<T>(s: seq<T>, i: nat): seq<T>
    requires i < |s|
  {
    s[..i] + s[i + 1..]
  }

  lemma DropCounts<T>(s: seq<T>, i: nat)
    requires i < |s|
    ensures multiset(Drop(s, i)) == multiset(s) - multiset{s[i]}
  {
    assert s == s[..i] + [s[i]] + s[i + 1..];
  }

  lemma SameTail(u: seq<real>, u': seq<real>, j: nat)
    requires u != [] && j < |u'| && u'[j] == u[0] && multiset(u) == multiset(u')
    ensures multiset(u[1..]) == multiset(Drop(u', j))
  {
    DropCounts(u', j);
    DropCounts(u, 0);
    assert Drop(u, 0) == u[1..];
  }

  lemma ConsCounts(c: seq<real>, j: nat, rest: seq<real>)
    requires j < |c| && multiset(rest) == multiset(Drop(c, j))
    ensures multiset([c[j]] + rest) == multiset(c)
  {
    DropCounts(c, j);
  }

  /** Rearranging one side of a matching rearranges the other side along with it. */
  lemma {:induction false} Rearrange(u: seq<real>, u': seq<real>, c': seq<real>, epsilon: real) returns (c: seq<real>)
    requires multiset(u) == multiset(u') && Close(u', c', epsilon)
    ensures multiset(c) == multiset(c') && Close(u, c, epsilon)
  {
    assert |u| == |multiset(u)| == |u'|;
    if u == [] {
      c := [];
    } else {
      assert u[0] in multiset(u');
      var j :| 0 <= j < |u'| && u'[j] == u[0];
      SameTail(u, u', j);
      var rest := Rearrange(u[1..], Drop(u', j), Drop(c', j), epsilon);
      CloseCons(u, c'[j], rest, epsilon);
      ConsCounts(c', j, rest);
      c := [c'[j]] + rest;
    }
  }

  /** Against sorted numbers, an insertion into sorted order keeps every pair close. */
  lemma {:induction false} InsertClose(u: seq<real>, x: real, s: seq<real>, epsilon: real)
    requires Sorted(u, RealLeq) && Close(u, [x] + s, epsilon)
    ensures Close(u, Insert(x, s, RealLeq), epsilon)
  {
    if s != [] && x > s[0] {
      assert ([x] + s)[1] == s[0];
      assert Close(u[1..], [x] + s[1..], epsilon) by {
        forall i | 0 <= i < |u| - 1 ensures Abs(u[1..][i] - ([x] + s[1..])[i]) <= epsilon {
          assert Abs(u[i + 1] - ([x] + s)[i + 1]) <= epsilon && RealLeq(u[0], u[1]);
        }
      }
      InsertClose(u[1..], x, s[1..], epsilon);
      assert Abs(u[0] - s[0]) <= epsilon by {
        assert Abs(u[0] - ([x] + s)[0]) <= epsilon && Abs(u[1] - ([x] + s)[1]) <= epsilon && RealLeq(u[0], u[1]);
      }
      CloseCons(u, s[0], Insert(x, s[1..], RealLeq), epsilon);
    }
  }

  lemma CloseCons(u: seq<real>, x: real, t: seq<real>, epsilon: real)
    requires u != [] && Abs(u[0] - x) <= epsilon && Close(u[1..], t, epsilon)
    ensures Close(u, [x] + t, epsilon)
  {
    forall i | 0 <= i < |u| ensures Abs(u[i] - ([x] + t)[i]) <= epsilon {
      if i > 0 {
        assert Abs(u[1..][i - 1] - t[i - 1]) <= epsilon;
      }
    }
  }

  lemma {:induction false} SortClose(u: seq<real>, c: seq<real>, epsilon: real)
    requires Sorted(u, RealLeq) && Close(u, c, epsilon)
    ensures Close(u, Sort(c, RealLeq), epsilon)
  {
    if c != [] {
      assert Close(u[1..], c[1..], epsilon) by {
        forall i | 0 <= i < |u| - 1 ensures Abs(u[1..][i] - c[1..][i]) <= epsilon {
          assert Abs(u[i + 1] - c[i + 1]) <= epsilon;
        }
      }
      SortClose(u[1..], c[1..], epsilon);
      CloseCons(u, c[0], Sort(c[1..], RealLeq), epsilon);
      InsertClose(u, c[0], Sort(c[1..], RealLeq), epsilon);
    }
  }

  /**
   Sorting both sides and comparing position by position accepts exactly when some
   permutation of the expected numbers matches.
   */
  lemma SortedPairingDecides(user: seq<real>, expected: seq<real>, epsilon: real)
    ensures Close(Sort(user, RealLeq), Sort(expected, RealLeq), epsilon) <==> Matchable(user, expected, epsilon)
  {
    SortSorts(user, RealLeq);
    SortSorts(expected, RealLeq);
    if Close(Sort(user, RealLeq), Sort(expected, RealLeq), epsilon) {
      var c := Rearrange(user, Sort(user, RealLeq), Sort(expected, RealLeq), epsilon);
    }
    if Matchable(user, expected, epsilon) {
      var c :| multiset(c) == multiset(expected) && Close(user, c, epsilon);
      var d := Rearrange(Sort(user, RealLeq), user, c, epsilon);
      SortClose(Sort(user, RealLeq), d, epsilon);
      SortCanonical(d, expected, RealLeq);
    }
  }

  // ---------- the code ----------

  method ValidateOutput(user: string, expected: string, config: Option<JudgeConfig>, p: Platform)
    returns (status: CaseJudgeStatus)
    ensures status.Accepted? <==> Accepts(user, expected, EffectiveConfig(config), p)
  {
    var accepted := CompareOutputs(user, expected, EffectiveConfig(config), p);
    status := if accepted then Accepted else WrongAnswer;
  }

  method LowerTokens(tokens: seq<string>, p: Platform) returns (lowered: seq<string>)
    ensures lowered == MapTokens(tokens, p.lower)
  {
    lowered := tokens;
    var i := 0;
    while i < |lowered|
      invariant i <= |lowered| == |tokens|
      invariant lowered[i..] == tokens[i..]
      invariant lowered[..i] + MapTokens(tokens[i..], p.lower) == MapTokens(tokens, p.lower)
    {
      assert tokens[i..][1..] == tokens[i + 1..] && tokens[i] == lowered[i..][0];
      lowered := lowered[i := p.lower(lowered[i])];
      i := i + 1;
    }
  }

  method CompareOutputs(user: string, expected: string, config: ValidatorConfig, p: Platform) returns (ok: bool)
    ensures ok <==> Accepts(user, expected, config, p)
  {
    if !config.ignoreWhitespace && !config.isFloat && !config.isUnordered && !config.isTokenMode {
      if config.ignoreCase {
        return p.lower(user) == p.lower(expected);
      }
      return user == expected;
    }
    var userTokens, expectedTokens := Tokenize(user), Tokenize(expected);
    if config.ignoreCase {
      userTokens := LowerTokens(userTokens, p);
      expectedTokens := LowerTokens(expectedTokens, p);
    }
    if config.isFloat {
      ok := CompareFloatTokens(userTokens, expectedTokens, config, p);
      return;
    }
    if config.isUnordered {
      StringLeqTotal();
      SortCanonical(userTokens, expectedTokens, StringLeq);
      userTokens := Sort(userTokens, StringLeq);
      expectedTokens := Sort(expectedTokens, StringLeq);
    }
    return userTokens == expectedTokens;
  }

  method CompareFloatTokens(user: seq<string>, expected: seq<string>, config: ValidatorConfig, p: Platform)
    returns (ok: bool)
    ensures ok <==> FloatAccepts(user, expected, config, p)
  {
    if |user| != |expected| {
      LengthsDiffer(user, expected, config, p);
      return false;
    }
    var parsedUser, parsedExpected := ParseAll(user, p), ParseAll(expected, p);
    if parsedUser.None? || parsedExpected.None? {
      return false;
    }
    var userNumbers, expectedNumbers := parsedUser.value, parsedExpected.value;
    if config.isUnordered {
      SortedPairingDecides(userNumbers, expectedNumbers, config.floatEpsilon);
      userNumbers := Sort(userNumbers, RealLeq);
      expectedNumbers := Sort(expectedNumbers, RealLeq);
    }
    var i := 0;
    while i < |userNumbers|
      invariant i <= |userNumbers| == |expectedNumbers|
      invariant forall j :: 0 <= j < i ==> Abs(userNumbers[j] - expectedNumbers[j]) <= config.floatEpsilon
    {
      if Abs(userNumbers[i] - expectedNumbers[i]) > config.floatEpsilon {
        return false;
      }
      i := i + 1;
    }
    return true;
  }

  lemma LengthsDiffer(user: seq<string>, expected: seq<string>, config: ValidatorConfig, p: Platform)
    requires |user| != |expected|
    ensures !FloatAccepts(user, expected, config, p)
  {
    if ParseAll(user, p).Some? && ParseAll(expected, p).Some? {
      MatchableLength(ParseAll(user, p).value, ParseAll(expected, p).value, config.floatEpsilon);
    }
  }

  lemma MatchableLength(user: seq<real>, expected: seq<real>, epsilon: real)
    ensures Matchable(user, expected, epsilon) ==> |user| == |expected|
  {
    if Matchable(user, expected, epsilon) {
      var c :| multiset(c) == multiset(expected) && Close(user, c, epsilon);
      assert |c| == |multiset(c)|;
    }
  }

  // ---------- what the modes promise ----------

  /** Except when comparing verbatim, only the tokens matter, however they are laid out. */
  lemma LayoutIndependent(lead: string, pieces: seq<Piece>, lead': string, pieces': seq<Piece>,
                          expected: string, config: ValidatorConfig, p: Platform)
    requires !Verbatim(config) && Blank(lead) && Separated(pieces) && Blank(lead') && Separated(pieces')
    requires TokensOf(pieces) == TokensOf(pieces')
    ensures Accepts(Layout(lead, pieces), expected, config, p) <==> Accepts(Layout(lead', pieces'), expected, config, p)
    ensures Accepts(expected, Layout(lead, pieces), config, p) <==> Accepts(expected, Layout(lead', pieces'), config, p)
  {
    TokenizeLayout(lead, pieces);
    TokenizeLayout(lead', pieces');
  }

  /** Unless numbers are compared, acceptance is an equivalence relation. */
  lemma NonFloatIsEquivalence(x: string, y: string, z: string, config: ValidatorConfig, p: Platform)
    requires !config.isFloat
    ensures Accepts(x, x, config, p)
    ensures Accepts(x, y, config, p) ==> Accepts(y, x, config, p)
    ensures Accepts(x, y, config, p) && Accepts(y, z, config, p) ==> Accepts(x, z, config, p)
  {
  }

  /** Comparing numbers in any order is still symmetric. */
  lemma MatchableSymmetric(user: seq<real>, expected: seq<real>, epsilon: real)
    ensures Matchable(user, expected, epsilon) <==> Matchable(expected, user, epsilon)
  {
    SortedPairingDecides(user, expected, epsilon);
    SortedPairingDecides(expected, user, epsilon);
  }

  lemma MatchableStep(x: real, y: real, epsilon: real)
    ensures Matchable([x], [y], epsilon) <==> Abs(x - y) <= epsilon
  {
    SortedPairingDecides([x], [y], epsilon);
    assert [x][0] == x && [y][0] == y;
  }

  /** Without a tolerance only rearranging is left. */
  lemma MatchableExactly(x: seq<real>, y: seq<real>, epsilon: real)
    requires epsilon <= 0.0 && Matchable(x, y, epsilon)
    ensures multiset(x) == multiset(y)
  {
    var c :| multiset(c) == multiset(y) && Close(x, c, epsilon);
    forall i | 0 <= i < |x| ensures x[i] == c[i] {
      assert Abs(x[i] - c[i]) <= epsilon;
    }
    assert x == c;
  }

  lemma {:induction false} MatchableRearranged(x: seq<real>, y: seq<real>, z: seq<real>, epsilon: real)
    requires multiset(x) == multiset(y) && Matchable(y, z, epsilon)
    ensures Matchable(x, z, epsilon)
  {
    var c :| multiset(c) == multiset(z) && Close(y, c, epsilon);
    var d := Rearrange(x, y, c, epsilon);
  }

  ghost predicate MatchesThrough(x: seq<real>, y: seq<real>, z: seq<real>, epsilon: real) {
    Matchable(x, y, epsilon) && Matchable(y, z, epsilon) ==> Matchable(x, z, epsilon)
  }

  /** But it is transitive exactly without a tolerance. */
  lemma MatchingTransitiveIff(epsilon: real)
    ensures (forall x, y, z :: MatchesThrough(x, y, z, epsilon)) <==> epsilon <= 0.0
  {
    if epsilon <= 0.0 {
      forall x, y, z ensures MatchesThrough(x, y, z, epsilon) {
        if Matchable(x, y, epsilon) && Matchable(y, z, epsilon) {
          MatchableExactly(x, y, epsilon);
          MatchableRearranged(x, y, z, epsilon);
        }
      }
    } else {
      MatchableStep(0.0, epsilon, epsilon);
      MatchableStep(epsilon, 2.0 * epsilon, epsilon);
      MatchableStep(0.0, 2.0 * epsilon, epsilon);
      assert !MatchesThrough([0.0], [epsilon], [2.0 * epsilon], epsilon);
    }
  }
}
