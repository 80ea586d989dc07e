/**
 The names a route gets at a broker: its main queue or stream, the place its
 delayed retries wait in and its dead-letter place, all derived from one prefix.
 */
module Topology {

  datatype Kind = Main | Retry | Dead

  predicate Kept(c: char) {
    'a' <= c <= 'z' || 'A' <= c <= 'Z' || '0' <= c <= '9' || c == '_' || c == '-' || c == '.'
  }

  function SanitizeSegment(value: string): (r: string)
    ensures |r| == |value|
    ensures forall i :: 0 <= i < |r| ==> r[i] == if Kept(value[i]) then value[i] else '_'
  {
    if value == [] then []
    else [if Kept(value[0]) then value[0] else '_'] + SanitizeSegment(value[1..])
  }

  function Suffix(kind: Kind): string {
    match kind
    case Main => []
    case Retry => ".retry"
    case Dead => ".dead"
  }

  function RouteName(queue: string, lane: string): string {
    SanitizeSegment(queue) + ['.'] + SanitizeSegment(lane)
  }

  /** RabbitMQ's queue names and the keys of the Redis streams are built alike. */
  function Name(prefix: string, queue: string, lane: string, kind: Kind): string {
    prefix + ['.'] + RouteName(queue, lane) + Suffix(kind)
  }

  function RegistryName(prefix: string): string {
    prefix + ['.'] + "__routes"
  }

  // ---------- letters ----------

  lemma SanitizeKeepsDots(value: string)
    ensures '.' in SanitizeSegment(value) <==> '.' in value
  {
    var r := SanitizeSegment(value);
    if '.' in value {
      var i :| 0 <= i < |value| && value[i] == '.';
      assert r[i] == '.';
    }
    if '.' in r {
      var i :| 0 <= i < |r| && r[i] == '.';
      assert value[i] == '.';
    }
  }

  predicate Clean(value: string) {
    forall i :: 0 <= i < |value| ==> Kept(value[i]) && value[i] != '.'
  }

  predicate AllKept(value: string) {
    forall i :: 0 <= i < |value| ==> Kept(value[i])
  }

  lemma SanitizeKept(value: string)
    requires AllKept(value)
    ensures SanitizeSegment(value) == value
  {
  }

  lemma SanitizeClean(value: string)
    requires Clean(value)
    ensures SanitizeSegment(value) == value && '.' !in value
  {
    SanitizeKept(value);
  }

  /** Over the characters that are kept, names are what one would write. */
  lemma NamesSpelled(prefix: string, queue: string, lane: string)
    requires AllKept(queue) && AllKept(lane)
    ensures Name(prefix, queue, lane, Main) == prefix + "." + queue + "." + lane
    ensures Name(prefix, queue, lane, Retry) == prefix + "." + queue + "." + lane + ".retry"
    ensures Name(prefix, queue, lane, Dead) == prefix + "." + queue + "." + lane + ".dead"
  {
    SanitizeKept(queue);
    SanitizeKept(lane);
    assert prefix + ['.'] + (queue + ['.'] + lane) == prefix + "." + queue + "." + lane;
    assert prefix + "." + queue + "." + lane + [] == prefix + "." + queue + "." + lane;
  }

  lemma CancelFront(prefix: string, a: string, b: string)
    ensures prefix + a == prefix + b <==> a == b
  {
    if prefix + a == prefix + b {
      assert a == (prefix + a)[|prefix|..] && b == (prefix + b)[|prefix|..];
    }
  }

  lemma CancelBack(a: string, b: string, suffix: string)
    ensures a + suffix == b + suffix <==> a == b
  {
    if a + suffix == b + suffix {
      assert a == (a + suffix)[..|a|] && b == (b + suffix)[..|b|];
    }
  }

  /** Nothing ends both ways: the last letters differ. */
  lemma EndsDiffer(a: string, b: string)
    ensures a + ".retry" != b + ".dead"
  {
    var x, y := a + ".retry", b + ".dead";
    assert x[|x| - 1] == 'y' && y[|y| - 1] == 'd';
  }

  // ---------- which names coincide ----------

  /** The tail of a name after its first dot past the prefix. */
  function Tail(lane: string, kind: Kind): string {
    SanitizeSegment(lane) + Suffix(kind)
  }

  lemma TailsCoincide(lane: string, kind: Kind, lane': string, kind': Kind)
    ensures Tail(lane, kind) == Tail(lane', kind') <==>
      var (l, l') := (SanitizeSegment(lane), SanitizeSegment(lane'));
      || (kind == kind' && l == l')
      || (kind == Main && kind' != Main && l == l' + Suffix(kind'))
      || (kind' == Main && kind != Main && l' == l + Suffix(kind))
  {
    var l, l' := SanitizeSegment(lane), SanitizeSegment(lane');
    assert l + [] == l && l' + [] == l';
    if kind == kind' {
      CancelBack(l, l', Suffix(kind));
    } else if kind != Main && kind' != Main {
      EndsDiffer(l, l');
      EndsDiffer(l', l);
    }
  }

  lemma NameParts(prefix: string, queue: string, lane: string, kind: Kind)
    ensures Name(prefix, queue, lane, kind) ==
      (prefix + ['.']) + (SanitizeSegment(queue) + ['.'] + Tail(lane, kind))
  {
    var q, l, k := SanitizeSegment(queue), SanitizeSegment(lane), Suffix(kind);
    assert (prefix + ['.']) + (q + ['.'] + l) + k == (prefix + ['.']) + (q + ['.'] + (l + k));
  }

  /** The same text cut at two of its dots: what lies between the cuts is x. */
  predicate Shifted(q: string, t: string, q': string, t': string, x: string) {
    q' == q + ['.'] + x && t == x + ['.'] + t'
  }

  lemma ShiftedJoins(q: string, t: string, q': string, t': string, x: string)
    requires Shifted(q, t, q', t', x)
    ensures q + ['.'] + t == q' + ['.'] + t'
  {
    assert q + ['.'] + (x + ['.'] + t') == q + ['.'] + x + ['.'] + t';
  }

  /** If the first cut comes earlier, the text between the two cuts starts and ends with a dot. */
  lemma EarlierCut(q: string, t: string, q': string, t': string) returns (x: string)
    requires q + ['.'] + t == q' + ['.'] + t' && |q| < |q'|
    ensures Shifted(q, t, q', t', x)
  {
    var s, s' := q + ['.'] + t, q' + ['.'] + t';
    x := q'[|q| + 1..];
    assert q == s[..|q|] == s'[..|q|] == q'[..|q|];
    assert q'[|q|] == s'[|q|] == s[|q|] == '.';
    assert q' == q'[..|q|] + [q'[|q|]] + q'[|q| + 1..];
    assert t == s[|q| + 1..] == s'[|q| + 1..];
    assert s'[|q| + 1..] == q'[|q| + 1..] + ['.'] + t';
  }

  lemma SameCut(q: string, t: string, q': string, t': string)
    requires q + ['.'] + t == q' + ['.'] + t' && |q| == |q'|
    ensures q == q' && t == t'
  {
    var s, s' := q + ['.'] + t, q' + ['.'] + t';
    assert q == s[..|q|] && q' == s'[..|q|];
    assert t == s[|q| + 1..] && t' == s'[|q| + 1..];
  }

  lemma JoinsCoincide(q: string, t: string, q': string, t': string)
    ensures q + ['.'] + t == q' + ['.'] + t' <==>
      (q == q' && t == t') || (exists x :: Shifted(q, t, q', t', x)) || (exists x :: Shifted(q', t', q, t, x))
  {
    if q + ['.'] + t == q' + ['.'] + t' {
      if |q| < |q'| {
        var x := EarlierCut(q, t, q', t');
      } else if |q'| < |q| {
        var x := EarlierCut(q', t', q, t);
      } else {
        SameCut(q, t, q', t');
      }
    }
    forall x | Shifted(q, t, q', t', x) ensures q + ['.'] + t == q' + ['.'] + t' {
      ShiftedJoins(q, t, q', t', x);
    }
    forall x | Shifted(q', t', q, t, x) ensures q + ['.'] + t == q' + ['.'] + t' {
      ShiftedJoins(q', t', q, t, x);
    }
  }

  /**
   Exactly when two names coincide, for all queues, lanes and kinds: the sanitised queues
   and the tails agree, or a dotted end of one queue is the start of the other's tail.
   */
  lemma NamesCoincide(prefix: string, queue: string, lane: string, kind: Kind,
                      queue': string, lane': string, kind': Kind)
    ensures var (q, q') := (SanitizeSegment(queue), SanitizeSegment(queue'));
      var (t, t') := (Tail(lane, kind), Tail(lane', kind'));
      Name(prefix, queue, lane, kind) == Name(prefix, queue', lane', kind') <==>
        (q == q' && t == t') || (exists x :: Shifted(q, t, q', t', x)) || (exists x :: Shifted(q', t', q, t, x))
  {
    var q, q' := SanitizeSegment(queue), SanitizeSegment(queue');
    var t, t' := Tail(lane, kind), Tail(lane', kind');
    NameParts(prefix, queue, lane, kind);
    NameParts(prefix, queue', lane', kind');
    CancelFront(prefix + ['.'], q + ['.'] + t, q' + ['.'] + t');
    JoinsCoincide(q, t, q', t');
  }

  /**
   With queues free of dots only the lanes can clash: names coincide exactly when the
   sanitised queues agree, and either kind and sanitised lane agree, or the lane of a
   main name spells out the other name's kind.
   */
  lemma DotlessNamesCoincide(prefix: string, queue: string, lane: string, kind: Kind,
                             queue': string, lane': string, kind': Kind)
    requires '.' !in queue && '.' !in queue'
    ensures Name(prefix, queue, lane, kind) == Name(prefix, queue', lane', kind') <==>
      && SanitizeSegment(queue) == SanitizeSegment(queue')
      && var (l, l') := (SanitizeSegment(lane), SanitizeSegment(lane'));
         || (kind == kind' && l == l')
         || (kind == Main && kind' != Main && l == l' + Suffix(kind'))
         || (kind' == Main && kind != Main && l' == l + Suffix(kind))
  {
    var q, q' := SanitizeSegment(queue), SanitizeSegment(queue');
    var t, t' := Tail(lane, kind), Tail(lane', kind');
    SanitizeKeepsDots(queue);
    SanitizeKeepsDots(queue');
    forall x ensures !Shifted(q, t, q', t', x) && !Shifted(q', t', q, t, x) {
    }
    NamesCoincide(prefix, queue, lane, kind, queue', lane', kind');
    TailsCoincide(lane, kind, lane', kind');
  }

  /** Over letters, digits, underscore and hyphen, a name determines queue, lane and kind. */
  lemma NamesInjective(prefix: string, queue: string, lane: string, kind: Kind,
                       queue': string, lane': string, kind': Kind)
    requires Clean(queue) && Clean(lane) && Clean(queue') && Clean(lane')
    requires Name(prefix, queue, lane, kind) == Name(prefix, queue', lane', kind')
    ensures queue == queue' && lane == lane' && kind == kind'
  {
    SanitizeClean(queue);
    SanitizeClean(lane);
    SanitizeClean(queue');
    SanitizeClean(lane');
    DotlessNamesCoincide(prefix, queue, lane, kind, queue', lane', kind');
    assert kind != Main ==> (lane + Suffix(kind))[|lane|] == '.';
    assert kind' != Main ==> (lane' + Suffix(kind'))[|lane'|] == '.';
  }

  /** No route, whatever its queue and lane, is given the name of the route registry. */
  lemma RegistryIsApart(prefix: string, queue: string, lane: string, kind: Kind)
    ensures Name(prefix, queue, lane, kind) != RegistryName(prefix)
  {
    NameParts(prefix, queue, lane, kind);
    var q := SanitizeSegment(queue);
    var rest := q + ['.'] + Tail(lane, kind);
    CancelFront(prefix + ['.'], rest, "__routes");
    assert rest[|q|] == '.' && '.' in rest;
    assert '.' !in "__routes";
  }

  // ---------- where the names do clash ----------

  lemma SanitizeConcat(a: string, b: string)
    ensures SanitizeSegment(a + b) == SanitizeSegment(a) + SanitizeSegment(b)
  {
  }

  /** Any lane that spells out a kind makes a main name some other route's retry or dead-letter name. */
  lemma DottedLaneClashes(prefix: string, queue: string, lane: string, kind: Kind)
    ensures Name(prefix, queue, lane + Suffix(kind), Main) == Name(prefix, queue, lane, kind)
  {
    NameParts(prefix, queue, lane + Suffix(kind), Main);
    NameParts(prefix, queue, lane, kind);
  }

  lemma SanitizeDotted(a: string, b: string)
    ensures SanitizeSegment(a + ['.'] + b) == SanitizeSegment(a) + ['.'] + SanitizeSegment(b)
  {
    SanitizeConcat(a + ['.'], b);
    SanitizeConcat(a, ['.']);
    SanitizeKept(['.']);
  }

  lemma TailDotted(b: string, c: string, kind: Kind)
    ensures Tail(b + ['.'] + c, kind) == SanitizeSegment(b) + ['.'] + Tail(c, kind)
  {
    SanitizeDotted(b, c);
    Regroup(SanitizeSegment(b) + ['.'], SanitizeSegment(c), Suffix(kind));
  }

  lemma Regroup(a: string, b: string, c: string)
    ensures a + b + c == a + (b + c)
  {
  }

  /** Any dot can move between queue and lane without changing a name. */
  lemma DottedQueueClashes(prefix: string, a: string, b: string, c: string, kind: Kind)
    ensures Name(prefix, a + ['.'] + b, c, kind) == Name(prefix, a, b + ['.'] + c, kind)
  {
    SanitizeDotted(a, b);
    TailDotted(b, c, kind);
    NameParts(prefix, a + ['.'] + b, c, kind);
    NameParts(prefix, a, b + ['.'] + c, kind);
    var x, y, t := SanitizeSegment(a), SanitizeSegment(b), Tail(c, kind);
    ShiftedJoins(x, y + ['.'] + t, x + ['.'] + y, t, y);
  }

  lemma SanitizeTwice(value: string)
    ensures SanitizeSegment(SanitizeSegment(value)) == SanitizeSegment(value)
  {
    SanitizeKept(SanitizeSegment(value));
  }

  /**
   A route shares every name with the route of its sanitised queue and lane, which is a
   different one unless every character of both is kept.
   */
  lemma ReplacedCharactersClash(prefix: string, queue: string, lane: string, kind: Kind)
    ensures Name(prefix, queue, lane, kind) == Name(prefix, SanitizeSegment(queue), SanitizeSegment(lane), kind)
    ensures SanitizeSegment(queue) == queue && SanitizeSegment(lane) == lane <==> AllKept(queue) && AllKept(lane)
  {
    SanitizeTwice(queue);
    SanitizeTwice(lane);
  }
}
