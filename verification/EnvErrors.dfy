/**
 Which text is refused, and with which error. Segments are read one after the other and
 so are the items of a segment, and the first part that cannot be read decides: a
 segment without a name, one without an item, an item without a colon, or one with
 nothing but blanks on one side of it. The error quotes that part. Text that holds no
 segment at all is refused as well; no text, or blanks, stand for the default groups.
 */
module EnvErrors {
  import opened Prelude
  import opened Text
  import opened WorkersFromEnv

  /** The text around the first separator. */
  ghost predicate Halves(s: string, c: char, a: string, b: string) {
    s == a + [c] + b && c !in a
  }

  ghost predicate BindingReads(item: string) {
    exists a, b :: Halves(item, ':', a, b) && !Blank(a) && !Blank(b)
  }

  ghost predicate BindingFails(item: string, e: Error) {
    if ':' !in item then e == InvalidBinding(item)
    else e == EmptyField(item) && exists a, b :: Halves(item, ':', a, b) && (Blank(a) || Blank(b))
  }

  lemma BlankIffTrimmed(s: string)
    ensures Trim(s) == [] <==> Blank(s)
  {
    var left, right := TrimSplits(s);
    if Trim(s) == [] {
      assert s == left + right;
    }
    if Blank(s) {
      TrimPadded(s, [], []);
      assert s + [] + [] == s;
    }
  }

  lemma HalvesAre(s: string, c: char, a: string, b: string)
    requires Halves(s, c, a, b)
    ensures SplitOnce(s, c) == Some((a, b))
  {
    SplitOnceIs(a, c, b);
  }

  lemma HalvesUnique(s: string, c: char)
    requires SplitOnce(s, c).Some?
    ensures Halves(s, c, SplitOnce(s, c).value.0, SplitOnce(s, c).value.1)
    ensures forall a, b :: Halves(s, c, a, b) ==> (a, b) == SplitOnce(s, c).value
  {
    forall a, b | Halves(s, c, a, b) ensures (a, b) == SplitOnce(s, c).value {
      HalvesAre(s, c, a, b);
    }
  }

  lemma HalvesRead(item: string, a: string, b: string)
    requires SplitOnce(item, ':') == Some((a, b))
    ensures BindingReads(item) <==> !Blank(a) && !Blank(b)
    ensures forall e :: BindingFails(item, e) <==> e == EmptyField(item) && (Blank(a) || Blank(b))
  {
    HalvesUnique(item, ':');
  }

  lemma NoHalves(item: string)
    requires ':' !in item
    ensures !BindingReads(item)
  {
    forall a, b ensures !Halves(item, ':', a, b) {
      if Halves(item, ':', a, b) {
        HalvesAre(item, ':', a, b);
      }
    }
  }

  lemma BindingIff(item: string, e: Error)
    ensures ParseBinding(item) == Err(e) <==> BindingFails(item, e)
    ensures ParseBinding(item).Ok? <==> BindingReads(item)
  {
    if ':' in item {
      var (a, b) := SplitOnce(item, ':').value;
      HalvesRead(item, a, b);
      BlankIffTrimmed(a);
      BlankIffTrimmed(b);
    } else {
      NoHalves(item);
    }
  }

  lemma {:induction false} CollectFailsIff<T>(parse: string -> Result<T, Error>, items: seq<string>, e: Error)
    ensures Collect(parse, items) == Err(e) <==> exists i: nat :: FailsAt(parse, items, i, e)
    ensures Collect(parse, items).Ok? <==> forall i :: 0 <= i < |items| ==> parse(items[i]).Ok?
  {
    if items != [] {
      CollectFailsIff(parse, items[1..], e);
      if parse(items[0]) == Err(e) {
        assert FailsAt(parse, items, 0, e);
      } else if parse(items[0]).Ok? {
        if i: nat :| FailsAt(parse, items[1..], i, e) {
          FailsLater(parse, items, i, e);
        }
        if i: nat :| FailsAt(parse, items, i, e) {
          FailsEarlier(parse, items, i, e);
        }
        assert forall i :: 0 < i < |items| ==> items[i] == items[1..][i - 1];
      } else {
        forall i: nat ensures !FailsAt(parse, items, i, e) {
        }
      }
    }
  }

  ghost predicate FailsAt<T>(parse: string -> Result<T, Error>, items: seq<string>, i: nat, e: Error) {
    i < |items| && parse(items[i]) == Err(e) && forall j :: 0 <= j < i ==> parse(items[j]).Ok?
  }

  lemma FailsLater<T>(parse: string -> Result<T, Error>, items: seq<string>, i: nat, e: Error)
    requires items != [] && parse(items[0]).Ok? && FailsAt(parse, items[1..], i, e)
    ensures FailsAt(parse, items, i + 1, e)
  {
    forall j | 0 <= j < i + 1 ensures parse(items[j]).Ok? {
      assert j > 0 ==> items[j] == items[1..][j - 1];
    }
  }

  lemma FailsEarlier<T>(parse: string -> Result<T, Error>, items: seq<string>, i: nat, e: Error)
    requires items != [] && parse(items[0]).Ok? && FailsAt(parse, items, i, e)
    ensures i > 0 && FailsAt(parse, items[1..], i - 1, e)
  {
    forall j | 0 <= j < i - 1 ensures parse(items[1..][j]).Ok? {
      assert items[1..][j] == items[j + 1];
    }
  }

  /** The first item that cannot be read is the one the error quotes. */
  ghost predicate FirstBinding(items: seq<string>, i: nat, e: Error) {
    i < |items| && BindingFails(items[i], e) && forall j :: 0 <= j < i ==> BindingReads(items[j])
  }

  ghost predicate BindingsFail(items: seq<string>, e: Error) {
    exists i: nat :: FirstBinding(items, i, e)
  }

  lemma BindingsIff(items: seq<string>, e: Error)
    ensures Collect(ParseBinding, items) == Err(e) <==> BindingsFail(items, e)
    ensures Collect(ParseBinding, items).Ok? <==> forall i :: 0 <= i < |items| ==> BindingReads(items[i])
  {
    CollectFailsIff(ParseBinding, items, e);
    forall i | 0 <= i < |items|
      ensures ParseBinding(items[i]).Ok? <==> BindingReads(items[i])
      ensures ParseBinding(items[i]) == Err(e) <==> BindingFails(items[i], e)
    {
      BindingIff(items[i], e);
    }
    forall i: nat ensures FailsAt(ParseBinding, items, i, e) <==> FirstBinding(items, i, e) {
    }
  }

  ghost predicate SegmentReads(segment: string) {
    exists name, text :: Halves(segment, '=', name, text) && ItemsRead(Fields(text, ','))
  }

  ghost predicate ItemsRead(items: seq<string>) {
    items != [] && forall i :: 0 <= i < |items| ==> BindingReads(items[i])
  }

  /** No name, no item, or an item that cannot be read. */
  ghost predicate SegmentFails(segment: string, e: Error) {
    if '=' !in segment then e == InvalidSegment(segment)
    else
      exists name, text :: Halves(segment, '=', name, text) && ItemsFail(name, Fields(text, ','), e)
  }

  ghost predicate ItemsFail(name: string, items: seq<string>, e: Error) {
    if items == [] then e == NoBindings(name) else BindingsFail(items, e)
  }

  lemma SegmentHalves(segment: string, name: string, text: string, items: seq<string>)
    requires SplitOnce(segment, '=') == Some((name, text)) && Fields(text, ',') == items
    ensures SegmentReads(segment) <==> ItemsRead(items)
    ensures forall e :: SegmentFails(segment, e) <==> ItemsFail(name, items, e)
  {
    HalvesUnique(segment, '=');
  }

  lemma NoSegmentHalves(segment: string)
    requires '=' !in segment
    ensures !SegmentReads(segment)
  {
    forall a, b ensures !Halves(segment, '=', a, b) {
      if Halves(segment, '=', a, b) {
        HalvesAre(segment, '=', a, b);
      }
    }
  }

  lemma SegmentIff(segment: string, e: Error)
    ensures ParseSegment(segment) == Err(e) <==> SegmentFails(segment, e)
    ensures ParseSegment(segment).Ok? <==> SegmentReads(segment)
  {
    if '=' in segment {
      var (name, text) := SplitOnce(segment, '=').value;
      SegmentHalves(segment, name, text, Fields(text, ','));
      BindingsIff(Fields(text, ','), e);
    } else {
      NoSegmentHalves(segment);
    }
  }

  ghost predicate FirstSegment(segments: seq<string>, i: nat, e: Error) {
    i < |segments| && SegmentFails(segments[i], e) && forall j :: 0 <= j < i ==> SegmentReads(segments[j])
  }

  lemma SegmentsIff(segments: seq<string>, e: Error)
    ensures Collect(ParseSegment, segments) == Err(e) <==> exists i: nat :: FirstSegment(segments, i, e)
    ensures Collect(ParseSegment, segments).Ok? <==> forall i :: 0 <= i < |segments| ==> SegmentReads(segments[i])
  {
    CollectFailsIff(ParseSegment, segments, e);
    forall i | 0 <= i < |segments|
      ensures ParseSegment(segments[i]).Ok? <==> SegmentReads(segments[i])
      ensures ParseSegment(segments[i]) == Err(e) <==> SegmentFails(segments[i], e)
    {
      SegmentIff(segments[i], e);
    }
    forall i: nat ensures FailsAt(ParseSegment, segments, i, e) <==> FirstSegment(segments, i, e) {
    }
  }

  /**
   Exactly which text is refused with which error: that of the first segment that cannot
   be read, and in it of the first item, or that there is no segment at all. Nothing but
   blanks, or no text, gives the default groups.
   */
  lemma RefusedIff(value: Option<string>, e: Error)
    ensures ParseGroups(value) == Err(e) <==>
      value.Some? && !Blank(value.value)
      && var segments := Fields(Trim(value.value), ';');
         if segments == [] then e == NoGroups else exists i: nat :: FirstSegment(segments, i, e)
    ensures value.None? || Blank(value.value) ==> ParseGroups(value) == Ok(DEFAULT_GROUPS)
  {
    if value.Some? {
      BlankIffTrimmed(value.value);
      SegmentsIff(Fields(Trim(value.value), ';'), e);
    }
  }
}
