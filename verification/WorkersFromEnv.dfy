/**
 Reading the worker groups from their environment variable, written
 `name=queue:lane,queue:lane;name=…`, and the text that spells given groups. Blanks
 around any part are dropped, and so are items and segments of blanks only. A name
 ends at the first `=` of its segment and a queue at the first `:` of its item, so a
 name holds no `=` and a queue no `:`; a lane may hold both.
 */
module WorkersFromEnv {
  import opened Prelude
  import opened Text

  datatype Binding = Binding(queue: string, lane: string)

  datatype Group = Group(name: string, bindings: seq<Binding>)

  datatype Error =
    | InvalidSegment(segment: string)
    | NoBindings(name: string)
    | InvalidBinding(value: string)
    | EmptyField(value: string)
    | NoGroups

  const DEFAULT_GROUPS := [
    Group("oj-fast", [Binding("oj_judge", "fast")]),
    Group("oj-normal", [Binding("oj_judge", "normal")]),
    Group("oj-heavy", [Binding("oj_judge", "heavy")]),
    Group("oj-special", [Binding("oj_judge", "special")])]

  // ---------- strings ----------

  /** The trimmed, non-empty parts between separators. */
  function Fields(s: string, c: char): seq<string> {
    TrimmedParts(Split(s, c))
  }

  function TrimmedParts(parts: seq<string>): (r: seq<string>)
    ensures forall i :: 0 <= i < |r| ==> r[i] != []
  {
    if parts == [] then []
    else (if Trim(parts[0]) == [] then [] else [Trim(parts[0])]) + TrimmedParts(parts[1..])
  }

  // ---------- what is parsed ----------

  function ParseBinding(value: string): Result<Binding, Error> {
    var halves := SplitOnce(value, ':');
    if halves.None? then Err(InvalidBinding(value))
    else
      var (queue, lane) := (Trim(halves.value.0), Trim(halves.value.1));
      if queue == [] || lane == [] then Err(EmptyField(value)) else Ok(Binding(queue, lane))
  }

  /** All results in order, or the first failure. */
  function Collect<T>(parse: string -> Result<T, Error>, items: seq<string>): (r: Result<seq<T>, Error>)
    ensures r.Ok? ==> |r.value| == |items| && forall i :: 0 <= i < |items| ==> parse(items[i]) == Ok(r.value[i])
  {
    if items == [] then Ok([])
    else
      match parse(items[0])
      case Err(e) => Err(e)
      case Ok(first) =>
        match Collect(parse, items[1..])
        case Err(e) => Err(e)
        case Ok(rest) => Ok([first] + rest)
  }

  function ParseSegment(segment: string): Result<Group, Error> {
    match SplitOnce(segment, '=')
    case None => Err(InvalidSegment(segment))
    case Some((name, text)) =>
      match Collect(ParseBinding, Fields(text, ','))
      case Err(e) => Err(e)
      case Ok(bindings) => if bindings == [] then Err(NoBindings(name)) else Ok(Group(Trim(name), bindings))
  }

  function ParseGroups(value: Option<string>): Result<seq<Group>, Error> {
    if value.None? || Trim(value.value) == [] then Ok(DEFAULT_GROUPS)
    else
      match Collect(ParseSegment, Fields(Trim(value.value), ';'))
      case Err(e) => Err(e)
      case Ok(groups) => if groups == [] then Err(NoGroups) else Ok(groups)
  }

  /** What the loop will return once `rest` tells how the items still to come are read. */
  function Prepend<T>(done: seq<T>, rest: Result<seq<T>, Error>): Result<seq<T>, Error> {
    match rest
    case Err(e) => Err(e)
    case Ok(values) => Ok(done + values)
  }

  lemma CollectStep<T>(parse: string -> Result<T, Error>, items: seq<string>, i: nat, done: seq<T>)
    requires i < |items|
    ensures Prepend(done, Collect(parse, items[i..])) ==
      match parse(items[i])
      case Err(e) => Err(e)
      case Ok(value) => Prepend(done + [value], Collect(parse, items[i + 1..]))
  {
    var rest := Collect(parse, items[i + 1..]);
    assert items[i..][0] == items[i] && items[i..][1..] == items[i + 1..];
    if parse(items[i]).Ok? && rest.Ok? {
      var value := parse(items[i]).value;
      assert done + ([value] + rest.value) == done + [value] + rest.value;
    }
  }

  lemma CollectEnds<T>(parse: string -> Result<T, Error>, items: seq<string>, done: seq<T>)
    ensures Prepend([], Collect(parse, items[0..])) == Collect(parse, items)
    ensures Prepend(done, Collect(parse, items[|items|..])) == Ok(done)
  {
    assert items[0..] == items && done + [] == done;
    if Collect(parse, items).Ok? {
      assert [] + Collect(parse, items).value == Collect(parse, items).value;
    }
  }

  method RuntimeWorkerGroupsFromEnv(value: Option<string>) returns (r: Result<seq<Group>, Error>)
    ensures r == ParseGroups(value)
  {
    if value.None? || Trim(value.value) == [] {
      return Ok(DEFAULT_GROUPS);
    }
    var segments := Fields(Trim(value.value), ';');
    var workerGroups: seq<Group> := [];
    var i := 0;
    CollectEnds(ParseSegment, segments, workerGroups);
    while i < |segments|
      invariant i <= |segments|
      invariant Collect(ParseSegment, segments) == Prepend(workerGroups, Collect(ParseSegment, segments[i..]))
    {
      CollectStep(ParseSegment, segments, i, workerGroups);
      var halves := SplitOnce(segments[i], '=');
      if halves.None? {
        return Err(InvalidSegment(segments[i]));
      }
      var bindings := Collect(ParseBinding, Fields(halves.value.1, ','));
      if bindings.Err? {
        return Err(bindings.error);
      }
      if bindings.value == [] {
        return Err(NoBindings(halves.value.0));
      }
      workerGroups := workerGroups + [Group(Trim(halves.value.0), bindings.value)];
      i := i + 1;
    }
    CollectEnds(ParseSegment, segments, workerGroups);
    return if workerGroups == [] then Err(NoGroups) else Ok(workerGroups);
  }

  // ---------- every result is usable ----------

  predicate UsableBinding(b: Binding) {
    b.queue != [] && b.lane != [] && Trimmed(b.queue) && Trimmed(b.lane)
  }

  predicate UsableGroup(group: Group) {
    Trimmed(group.name) && group.bindings != []
    && forall j :: 0 <= j < |group.bindings| ==> UsableBinding(group.bindings[j])
  }

  lemma BindingUsable(item: string, binding: Binding)
    requires ParseBinding(item) == Ok(binding)
    ensures UsableBinding(binding)
  {
    var halves := SplitOnce(item, ':').value;
    TrimTrims(halves.0);
    TrimTrims(halves.1);
  }

  lemma BindingsUsable(items: seq<string>, bindings: seq<Binding>)
    requires Collect(ParseBinding, items) == Ok(bindings)
    ensures forall j :: 0 <= j < |bindings| ==> UsableBinding(bindings[j])
  {
    forall j | 0 <= j < |bindings| ensures UsableBinding(bindings[j]) {
      BindingUsable(items[j], bindings[j]);
    }
  }

  lemma GroupUsable(name: string, items: seq<string>, bindings: seq<Binding>)
    requires Collect(ParseBinding, items) == Ok(bindings) && bindings != []
    ensures UsableGroup(Group(Trim(name), bindings))
  {
    TrimTrims(name);
    BindingsUsable(items, bindings);
  }

  lemma DefaultsUsable()
    ensures forall i :: 0 <= i < |DEFAULT_GROUPS| ==> UsableGroup(DEFAULT_GROUPS[i])
  {
  }

  /** Every successful result has a group, each with a binding, all of whose fields are trimmed and non-empty. */
  lemma ResultsUsable(value: Option<string>, groups: seq<Group>)
    requires ParseGroups(value) == Ok(groups)
    ensures groups != [] && forall i :: 0 <= i < |groups| ==> UsableGroup(groups[i])
  {
    if value.None? || Trim(value.value) == [] {
      DefaultsUsable();
    } else {
      var segments := Fields(Trim(value.value), ';');
      forall i | 0 <= i < |groups| ensures UsableGroup(groups[i]) {
        assert ParseSegment(segments[i]) == Ok(groups[i]);
        var halves := SplitOnce(segments[i], '=').value;
        GroupUsable(halves.0, Fields(halves.1, ','), groups[i].bindings);
      }
    }
  }

  // ---------- spelling groups ----------

  /** One item between commas: nothing but blanks, or a binding with blanks around its parts. */
  datatype Item = Gap(blanks: string) | Entry(a: string, binding: Binding, b: string, c: string, d: string)

  /** One segment between semicolons. */
  datatype Segment = Void(blanks: string) | Spelled(a: string, name: string, b: string, items: seq<Item>)

  function EntryCore(item: Item): string
    requires item.Entry?
  {
    (item.binding.queue + item.b) + [':'] + (item.c + item.binding.lane)
  }

  function ItemText(item: Item): string {
    match item
    case Gap(blanks) => blanks
    case Entry(a, _, _, _, d) => a + EntryCore(item) + d
  }

  function ItemTexts(items: seq<Item>): (r: seq<string>)
    ensures |r| == |items| && forall i :: 0 <= i < |items| ==> r[i] == ItemText(items[i])
  {
    if items == [] then [] else [ItemText(items[0])] + ItemTexts(items[1..])
  }

  function SegmentText(segment: Segment): string {
    match segment
    case Void(blanks) => blanks
    case Spelled(a, name, b, items) => (a + name + b) + ['='] + Join(ItemTexts(items), ',')
  }

  function SegmentTexts(segments: seq<Segment>): (r: seq<string>)
    ensures |r| == |segments| && forall i :: 0 <= i < |segments| ==> r[i] == SegmentText(segments[i])
  {
    if segments == [] then [] else [SegmentText(segments[0])] + SegmentTexts(segments[1..])
  }

  function Present<T>(meanings: seq<Option<T>>): seq<T> {
    if meanings == [] then []
    else (if meanings[0].Some? then [meanings[0].value] else []) + Present(meanings[1..])
  }

  function ItemMeaning(item: Item): Option<Binding> {
    if item.Entry? then Some(item.binding) else None
  }

  function ItemMeanings(items: seq<Item>): (r: seq<Option<Binding>>)
    ensures |r| == |items| && forall i :: 0 <= i < |items| ==> r[i] == ItemMeaning(items[i])
  {
    if items == [] then [] else [ItemMeaning(items[0])] + ItemMeanings(items[1..])
  }

  function BindingsOf(items: seq<Item>): seq<Binding> {
    Present(ItemMeanings(items))
  }

  function SegmentMeaning(segment: Segment): Option<Group> {
    if segment.Spelled? then Some(Group(segment.name, BindingsOf(segment.items))) else None
  }

  function SegmentMeanings(segments: seq<Segment>): (r: seq<Option<Group>>)
    ensures |r| == |segments| && forall i :: 0 <= i < |segments| ==> r[i] == SegmentMeaning(segments[i])
  {
    if segments == [] then [] else [SegmentMeaning(segments[0])] + SegmentMeanings(segments[1..])
  }

  function GroupsOf(segments: seq<Segment>): seq<Group> {
    Present(SegmentMeanings(segments))
  }

  /** Only the separators that would be misread are excluded from a field. */
  predicate PlainBinding(b: Binding) {
    && b.queue != [] && Trimmed(b.queue) && ':' !in b.queue && ',' !in b.queue && ';' !in b.queue
    && b.lane != [] && Trimmed(b.lane) && ',' !in b.lane && ';' !in b.lane
  }

  predicate PlainName(name: string) {
    Trimmed(name) && '=' !in name && ';' !in name
  }

  predicate ItemOk(item: Item) {
    match item
    case Gap(blanks) => Blank(blanks)
    case Entry(a, binding, b, c, d) => Blank(a) && Blank(b) && Blank(c) && Blank(d) && PlainBinding(binding)
  }

  ghost predicate SegmentOk(segment: Segment) {
    match segment
    case Void(blanks) => Blank(blanks)
    case Spelled(a, name, b, items) =>
      Blank(a) && Blank(b) && PlainName(name) && BindingsOf(items) != []
      && forall i :: 0 <= i < |items| ==> ItemOk(items[i])
  }

  // ---------- blanks do not matter ----------

  lemma BlankHasNo(s: string, c: char)
    requires Blank(s) && !IsSpace(c)
    ensures c !in s
  {
  }

  /** A string is its trimmed form between blanks. */
  lemma TrimSplits(s: string) returns (left: string, right: string)
    ensures Blank(left) && Blank(right) && s == left + Trim(s) + right
  {
    var t := s[Leading(s)..];
    left, right := s[..Leading(s)], t[|t| - Trailing(t)..];
  }

  lemma TrimIgnores(left: string, s: string, right: string)
    requires Blank(left) && Blank(right)
    ensures Trim(left + s + right) == Trim(s)
  {
    var l, r := TrimSplits(s);
    TrimTrims(s);
    assert left + s + right == (left + l) + Trim(s) + (r + right);
    TrimPadded(left + l, Trim(s), r + right);
  }

  lemma {:induction false} SplitPrepend(blanks: string, s: string, c: char)
    requires c !in blanks
    ensures Split(blanks + s, c) == [blanks + Split(s, c)[0]] + Split(s, c)[1..]
  {
    if blanks == [] {
      assert blanks + s == s && blanks + Split(s, c)[0] == Split(s, c)[0];
    } else {
      var all, parts := blanks + s, Split(s, c);
      assert all[1..] == blanks[1..] + s && all[0] == blanks[0];
      SplitPrepend(blanks[1..], s, c);
      assert [blanks[0]] + (blanks[1..] + parts[0]) == blanks + parts[0];
      assert ([blanks[1..] + parts[0]] + parts[1..])[1..] == parts[1..];
    }
  }

  function WithLast(parts: seq<string>, tail: string): seq<string>
    requires parts != []
  {
    parts[..|parts| - 1] + [parts[|parts| - 1] + tail]
  }

  lemma WithLastCons(first: string, rest: seq<string>, tail: string)
    requires rest != []
    ensures WithLast([first] + rest, tail) == [first] + WithLast(rest, tail)
  {
    assert ([first] + rest)[..|rest|] == [first] + rest[..|rest| - 1];
  }

  lemma {:induction false} SplitAppend(s: string, blanks: string, c: char)
    requires c !in blanks
    ensures Split(s + blanks, c) == WithLast(Split(s, c), blanks)
  {
    if s == [] {
      assert s + blanks == blanks;
      SplitWhole(blanks, c);
    } else {
      var all, rest := s + blanks, Split(s[1..], c);
      assert all[1..] == s[1..] + blanks && all[0] == s[0];
      SplitAppend(s[1..], blanks, c);
      if s[0] == c {
        WithLastCons([], rest, blanks);
      } else if |rest| == 1 {
        assert [s[0]] + (rest[0] + blanks) == [s[0]] + rest[0] + blanks;
      } else {
        WithLastCons(rest[0], rest[1..], blanks);
        assert rest == [rest[0]] + rest[1..];
        WithLastCons([s[0]] + rest[0], rest[1..], blanks);
      }
    }
  }

  lemma {:induction false} TrimmedPartsConcat(a: seq<string>, b: seq<string>)
    ensures TrimmedParts(a + b) == TrimmedParts(a) + TrimmedParts(b)
  {
    if a == [] {
      assert a + b == b;
    } else {
      assert (a + b)[1..] == a[1..] + b;
      TrimmedPartsConcat(a[1..], b);
    }
  }

  function Part(text: string): seq<string> {
    if Trim(text) == [] then [] else [Trim(text)]
  }

  lemma TrimmedPartsOne(text: string)
    ensures TrimmedParts([text]) == Part(text)
  {
  }

  lemma PartIgnores(left: string, s: string, right: string)
    requires Blank(left) && Blank(right)
    ensures Part(left + s + right) == Part(s)
  {
    TrimIgnores(left, s, right);
  }

  lemma Regroup(a: string, b: string, c: string)
    ensures (a + b) + c == a + (b + c)
  {
  }

  lemma FieldsPrepend(blanks: string, s: string, c: char)
    requires Blank(blanks) && !IsSpace(c)
    ensures Fields(blanks + s, c) == Fields(s, c)
  {
    BlankHasNo(blanks, c);
    SplitPrepend(blanks, s, c);
    var first, rest := Split(s, c)[0], Split(s, c)[1..];
    PartIgnores(blanks, first, []);
    assert blanks + first + [] == blanks + first;
    TrimmedPartsConcat([blanks + first], rest);
    TrimmedPartsConcat([first], rest);
    TrimmedPartsOne(blanks + first);
    TrimmedPartsOne(first);
    assert Split(s, c) == [first] + rest;
  }

  lemma FieldsAppend(s: string, blanks: string, c: char)
    requires Blank(blanks) && !IsSpace(c)
    ensures Fields(s + blanks, c) == Fields(s, c)
  {
    BlankHasNo(blanks, c);
    SplitAppend(s, blanks, c);
    var parts := Split(s, c);
    var front, last := parts[..|parts| - 1], parts[|parts| - 1];
    assert parts == front + [last];
    LastPart(front, last, blanks);
  }

  lemma NothingBefore(s: string, t: string)
    ensures [] + s + t == s + t
  {
  }

  lemma PartAppend(s: string, blanks: string)
    requires Blank(blanks)
    ensures Part(s + blanks) == Part(s)
  {
    PartIgnores([], s, blanks);
    NothingBefore(s, blanks);
  }

  lemma LastPart(front: seq<string>, last: string, blanks: string)
    requires Blank(blanks)
    ensures TrimmedParts(front + [last + blanks]) == TrimmedParts(front + [last])
  {
    PartAppend(last, blanks);
    TrimmedPartsConcat(front, [last + blanks]);
    TrimmedPartsConcat(front, [last]);
    TrimmedPartsOne(last + blanks);
    TrimmedPartsOne(last);
  }

  /** Extra whitespace around the whole text changes nothing. */
  lemma FieldsTrim(s: string, c: char)
    requires !IsSpace(c)
    ensures Fields(Trim(s), c) == Fields(s, c)
  {
    var left, right := TrimSplits(s);
    FieldsPrepend(left, Trim(s) + right, c);
    FieldsAppend(Trim(s), right, c);
    Regroup(left, Trim(s), right);
  }

  // ---------- reading back what was spelled ----------

  /** After trimming, `text` is dropped or read as `meaning`. */
  ghost predicate Reads<T>(parse: string -> Result<T, Error>, text: string, meaning: Option<T>) {
    match meaning
    case None => Part(text) == []
    case Some(value) => |Part(text)| == 1 && parse(Part(text)[0]) == Ok(value)
  }

  lemma {:induction false} AllRead<T>(parse: string -> Result<T, Error>, texts: seq<string>, meanings: seq<Option<T>>)
    requires |texts| == |meanings| && forall i :: 0 <= i < |texts| ==> Reads(parse, texts[i], meanings[i])
    ensures Collect(parse, TrimmedParts(texts)) == Ok(Present(meanings))
  {
    if texts != [] {
      AllRead(parse, texts[1..], meanings[1..]);
      TrimmedPartsConcat([texts[0]], texts[1..]);
      TrimmedPartsOne(texts[0]);
      assert texts == [texts[0]] + texts[1..];
      assert Reads(parse, texts[0], meanings[0]);
      CollectConcat(parse, Part(texts[0]), TrimmedParts(texts[1..]), Present(meanings[1..]));
    }
  }

  lemma CollectConcat<T>(parse: string -> Result<T, Error>, part: seq<string>, parts: seq<string>, values: seq<T>)
    requires |part| <= 1 && Collect(parse, parts) == Ok(values)
    requires part != [] ==> parse(part[0]).Ok?
    ensures Collect(parse, part + parts) == Ok((if part == [] then [] else [parse(part[0]).value]) + values)
  {
    if part == [] {
      assert part + parts == parts && [] + values == values;
    } else {
      assert (part + parts)[0] == part[0] && (part + parts)[1..] == parts;
    }
  }

  lemma PartIs(left: string, core: string, right: string)
    requires Blank(left) && Blank(right) && Trimmed(core) && core != []
    ensures Part(left + core + right) == [core]
  {
    TrimPadded(left, core, right);
  }

  lemma HalvesTrim(q: string, b: string, c: string, l: string)
    requires Blank(b) && Blank(c) && Trimmed(q) && Trimmed(l)
    ensures Trim(q + b) == q && Trim(c + l) == l
  {
    TrimPadded([], q, b);
    TrimPadded(c, l, []);
    assert [] + q + b == q + b && c + l + [] == c + l;
  }

  lemma BindingParses(item: Item)
    requires item.Entry? && ItemOk(item)
    ensures ParseBinding(EntryCore(item)) == Ok(item.binding)
  {
    BlankHasNo(item.b, ':');
    SplitOnceIs(item.binding.queue + item.b, ':', item.c + item.binding.lane);
    HalvesTrim(item.binding.queue, item.b, item.c, item.binding.lane);
  }

  lemma ItemReads(item: Item)
    requires ItemOk(item)
    ensures Reads(ParseBinding, ItemText(item), ItemMeaning(item))
  {
    if item.Gap? {
    } else {
      PartIs(item.a, EntryCore(item), item.d);
      BindingParses(item);
    }
  }

  lemma ItemsRead(items: seq<Item>)
    requires forall i :: 0 <= i < |items| ==> ItemOk(items[i])
    ensures Collect(ParseBinding, TrimmedParts(ItemTexts(items))) == Ok(BindingsOf(items))
  {
    var texts, meanings := ItemTexts(items), ItemMeanings(items);
    forall i | 0 <= i < |items| ensures Reads(ParseBinding, texts[i], meanings[i]) {
      ItemReads(items[i]);
    }
    AllRead(ParseBinding, texts, meanings);
  }

  lemma HasNoConcat(a: string, b: string, c: char)
    requires c !in a && c !in b
    ensures c !in a + b
  {
  }

  lemma ItemTextHasNo(item: Item, c: char)
    requires ItemOk(item) && (c == ',' || c == ';')
    ensures c !in ItemText(item)
  {
    if item.Gap? {
      BlankHasNo(item.blanks, c);
    } else {
      var q, l := item.binding.queue, item.binding.lane;
      BlankHasNo(item.a, c);
      BlankHasNo(item.b, c);
      BlankHasNo(item.c, c);
      BlankHasNo(item.d, c);
      HasNoConcat(q, item.b, c);
      HasNoConcat(q + item.b, [':'], c);
      HasNoConcat(item.c, l, c);
      HasNoConcat(q + item.b + [':'], item.c + l, c);
      HasNoConcat(item.a, EntryCore(item), c);
      HasNoConcat(item.a + EntryCore(item), item.d, c);
    }
  }

  lemma ItemTextsHaveNo(items: seq<Item>, c: char)
    requires (forall i :: 0 <= i < |items| ==> ItemOk(items[i])) && (c == ',' || c == ';')
    ensures forall i :: 0 <= i < |items| ==> c !in ItemTexts(items)[i]
  {
    forall i | 0 <= i < |items| ensures c !in ItemTexts(items)[i] {
      ItemTextHasNo(items[i], c);
    }
  }

  lemma {:induction false} JoinHasNo(parts: seq<string>, separator: char, c: char)
    requires c != separator && forall i :: 0 <= i < |parts| ==> c !in parts[i]
    ensures c !in Join(parts, separator)
  {
    if |parts| > 1 {
      JoinHasNo(parts[1..], separator, c);
    }
  }

  lemma Nest(l: string, x: string, m: string, y: string, r: string)
    ensures (l + x) + m + (y + r) == l + (x + m + y) + r
  {
  }

  lemma SplitLeading(s: string) returns (l: string, x: string)
    ensures s == l + x && Blank(l) && (x == [] || !IsSpace(x[0]))
  {
    l, x := s[..Leading(s)], s[Leading(s)..];
  }

  lemma SplitTrailing(s: string) returns (y: string, r: string)
    ensures s == y + r && Blank(r) && (y == [] || !IsSpace(y[|y| - 1]))
  {
    y, r := s[..|s| - Trailing(s)], s[|s| - Trailing(s)..];
  }

  /** Trimming around a separator leaves the text before it trimmed in front, the text after it trimmed behind. */
  lemma TrimAround(left: string, c: char, right: string) returns (l: string, x: string, y: string, r: string)
    requires !IsSpace(c)
    ensures Blank(l) && Blank(r) && left == l + x && right == y + r
    ensures Part(left + [c] + right) == [x + [c] + y]
  {
    l, x := SplitLeading(left);
    y, r := SplitTrailing(right);
    PartIs(l, x + [c] + y, r);
    Nest(l, x, [c], y, r);
  }

  lemma NameReads(segment: Segment, l: string, x: string)
    requires segment.Spelled? && SegmentOk(segment)
    requires Blank(l) && segment.a + segment.name + segment.b == l + x
    ensures '=' !in x && Trim(x) == segment.name
  {
    BlankHasNo(segment.a, '=');
    BlankHasNo(segment.b, '=');
    HasNoConcat(segment.a, segment.name, '=');
    HasNoConcat(segment.a + segment.name, segment.b, '=');
    assert forall i :: 0 <= i < |x| ==> x[i] == (l + x)[|l| + i];
    TrimPadded(segment.a, segment.name, segment.b);
    TrimIgnores(l, x, []);
    assert l + x + [] == l + x;
  }

  lemma FieldsAre(items: seq<Item>, y: string, r: string)
    requires items != [] && forall i :: 0 <= i < |items| ==> ItemOk(items[i])
    requires Blank(r) && Join(ItemTexts(items), ',') == y + r
    ensures Fields(y, ',') == TrimmedParts(ItemTexts(items))
  {
    FieldsAppend(y, r, ',');
    ItemTextsHaveNo(items, ',');
    SplitJoin(ItemTexts(items), ',');
  }

  lemma SegmentReads(segment: Segment)
    requires SegmentOk(segment)
    ensures Reads(ParseSegment, SegmentText(segment), SegmentMeaning(segment))
  {
    if segment.Void? {
    } else {
      var l, x, y, r :=
        TrimAround(segment.a + segment.name + segment.b, '=', Join(ItemTexts(segment.items), ','));
      NameReads(segment, l, x);
      FieldsAre(segment.items, y, r);
      ItemsRead(segment.items);
      SplitOnceIs(x, '=', y);
    }
  }

  lemma SegmentTextHasNo(segment: Segment)
    requires SegmentOk(segment)
    ensures ';' !in SegmentText(segment)
  {
    match segment
    case Void(blanks) => BlankHasNo(blanks, ';');
    case Spelled(a, name, b, items) =>
      BlankHasNo(a, ';');
      BlankHasNo(b, ';');
      ItemTextsHaveNo(items, ';');
      var text := Join(ItemTexts(items), ',');
      JoinHasNo(ItemTexts(items), ',', ';');
      HasNoConcat(a, name, ';');
      HasNoConcat(a + name, b, ';');
      HasNoConcat(a + name + b, ['='], ';');
      HasNoConcat(a + name + b + ['='], text, ';');
  }

  lemma SegmentsRead(segments: seq<Segment>)
    requires segments != [] && forall i :: 0 <= i < |segments| ==> SegmentOk(segments[i])
    ensures Collect(ParseSegment, Fields(Trim(Join(SegmentTexts(segments), ';')), ';')) == Ok(GroupsOf(segments))
  {
    var texts, meanings := SegmentTexts(segments), SegmentMeanings(segments);
    forall i | 0 <= i < |segments|
      ensures ';' !in texts[i] && Reads(ParseSegment, texts[i], meanings[i])
    {
      SegmentTextHasNo(segments[i]);
      SegmentReads(segments[i]);
    }
    SplitJoin(texts, ';');
    FieldsTrim(Join(texts, ';'), ';');
    AllRead(ParseSegment, texts, meanings);
  }

  lemma NothingInBlank(text: string, c: char)
    ensures Trim(text) == [] ==> Fields(Trim(text), c) == []
  {
    assert Split([], c) == [[]];
    TrimmedPartsOne([]);
  }

  lemma GroupsParse(text: string, fields: seq<string>, groups: seq<Group>)
    requires Fields(Trim(text), ';') == fields && (Trim(text) == [] ==> fields == [])
    requires groups != [] && Collect(ParseSegment, fields) == Ok(groups)
    ensures ParseGroups(Some(text)) == Ok(groups)
  {
  }

  /**
   Round trip. Any spelling of groups, with blanks around every part and with empty
   items and segments thrown in, is read back as those groups.
   */
  lemma SpellingIsRead(segments: seq<Segment>)
    requires (forall i :: 0 <= i < |segments| ==> SegmentOk(segments[i])) && GroupsOf(segments) != []
    ensures ParseGroups(Some(Join(SegmentTexts(segments), ';'))) == Ok(GroupsOf(segments))
  {
    var text := Join(SegmentTexts(segments), ';');
    SegmentsRead(segments);
    NothingInBlank(text, ';');
    GroupsParse(text, Fields(Trim(text), ';'), GroupsOf(segments));
  }

  // ---------- the plain printing ----------

  function PrintBindings(bindings: seq<Binding>): seq<string> {
    if bindings == [] then []
    else [bindings[0].queue + ":" + bindings[0].lane] + PrintBindings(bindings[1..])
  }

  function PrintGroups(groups: seq<Group>): seq<string> {
    if groups == [] then []
    else [groups[0].name + "=" + Join(PrintBindings(groups[0].bindings), ',')] + PrintGroups(groups[1..])
  }

  function Print(groups: seq<Group>): string {
    Join(PrintGroups(groups), ';')
  }

  ghost predicate PlainGroup(group: Group) {
    PlainName(group.name) && group.bindings != []
    && forall j :: 0 <= j < |group.bindings| ==> PlainBinding(group.bindings[j])
  }

  function PlainItems(bindings: seq<Binding>): (items: seq<Item>)
    ensures |items| == |bindings|
    ensures forall i :: 0 <= i < |items| ==> items[i] == Entry([], bindings[i], [], [], [])
  {
    if bindings == [] then [] else [Entry([], bindings[0], [], [], [])] + PlainItems(bindings[1..])
  }

  function PlainSegments(groups: seq<Group>): (segments: seq<Segment>)
    ensures |segments| == |groups|
    ensures forall i :: 0 <= i < |segments| ==>
      segments[i] == Spelled([], groups[i].name, [], PlainItems(groups[i].bindings))
  {
    if groups == [] then []
    else [Spelled([], groups[0].name, [], PlainItems(groups[0].bindings))] + PlainSegments(groups[1..])
  }

  lemma {:induction false} PresentAll<T>(meanings: seq<Option<T>>, values: seq<T>)
    requires |meanings| == |values| && forall i :: 0 <= i < |values| ==> meanings[i] == Some(values[i])
    ensures Present(meanings) == values
  {
    if values != [] {
      PresentAll(meanings[1..], values[1..]);
    }
  }

  lemma PlainItemText(b: Binding)
    ensures ItemText(Entry([], b, [], [], [])) == b.queue + ":" + b.lane
  {
    assert b.queue + [] == b.queue && [] + b.lane == b.lane;
    assert [] + (b.queue + [':'] + b.lane) + [] == b.queue + [':'] + b.lane;
  }

  lemma {:induction false} PlainItemsSpell(bindings: seq<Binding>)
    ensures BindingsOf(PlainItems(bindings)) == bindings
    ensures ItemTexts(PlainItems(bindings)) == PrintBindings(bindings)
  {
    PresentAll(ItemMeanings(PlainItems(bindings)), bindings);
    if bindings != [] {
      PlainItemsSpell(bindings[1..]);
      assert PlainItems(bindings)[1..] == PlainItems(bindings[1..]);
      PlainItemText(bindings[0]);
    }
  }

  lemma PlainMeanings(groups: seq<Group>)
    ensures GroupsOf(PlainSegments(groups)) == groups
  {
    var segments := PlainSegments(groups);
    forall i | 0 <= i < |groups| ensures SegmentMeaning(segments[i]) == Some(groups[i]) {
      PlainItemsSpell(groups[i].bindings);
    }
    PresentAll(SegmentMeanings(segments), groups);
  }

  lemma PlainSegmentText(group: Group)
    ensures SegmentText(Spelled([], group.name, [], PlainItems(group.bindings)))
         == group.name + "=" + Join(PrintBindings(group.bindings), ',')
  {
    PlainItemsSpell(group.bindings);
    assert [] + group.name + [] == group.name;
  }

  lemma {:induction false} PlainSegmentsSpell(groups: seq<Group>)
    ensures SegmentTexts(PlainSegments(groups)) == PrintGroups(groups)
  {
    if groups != [] {
      PlainSegmentsSpell(groups[1..]);
      assert PlainSegments(groups)[1..] == PlainSegments(groups[1..]);
      PlainSegmentText(groups[0]);
    }
  }

  /** Printing any non-empty list of groups and parsing it returns the list. */
  lemma PrintParse(groups: seq<Group>)
    requires groups != [] && forall i :: 0 <= i < |groups| ==> PlainGroup(groups[i])
    ensures ParseGroups(Some(Print(groups))) == Ok(groups)
  {
    var segments := PlainSegments(groups);
    PlainSegmentsSpell(groups);
    PlainMeanings(groups);
    forall i | 0 <= i < |segments| ensures SegmentOk(segments[i]) {
      assert PlainGroup(groups[i]);
      PlainItemsSpell(groups[i].bindings);
    }
    SpellingIsRead(segments);
  }
}
