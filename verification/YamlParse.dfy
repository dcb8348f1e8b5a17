/** `YamlWrapper::parse` as a fold over events, and its round trip. */
module YamlParse {
  import opened YamlTree

  /** libyaml's events; `Other` stands for those that `parse` ignores. */
  datatype Event =
    | SequenceStart
    | SequenceEnd
    | MappingStart
    | MappingEnd
    | ScalarEvent(value: string)
    | StreamEnd
    | Other

  /** The local variables of `parse`. */
  datatype Cursor = Cursor(nodes: Nodes, current: nat, prevWasKey: bool, keyName: string)

  const FRESH: Cursor := Cursor([DOC_NODE], 0, false, "")

  ghost predicate Good(c: Cursor) { Linked(c.nodes) && c.current < |c.nodes| }

  // A scalar is a value here, not a key.
  predicate TakesValue(c: Cursor)
    requires c.current < |c.nodes|
  {
    c.prevWasKey || c.nodes[c.current].kind == SEQUENCE
  }

  function NextKey(c: Cursor): string
    requires c.current < |c.nodes|
  {
    if c.prevWasKey then c.keyName
    else if c.nodes[c.current].kind == SEQUENCE then Decimal(|c.nodes[c.current].children|)
    else ""
  }

  function ValueFor(kind: Kind): string {
    if kind == SEQUENCE then "YamlSequenceValue" else "YamlMappingValue"
  }

  function Grow(c: Cursor, kind: Kind, value: string): Cursor
    requires c.current < |c.nodes|
  {
    c.(nodes := Attach(c.nodes, c.current, kind, NextKey(c), value), prevWasKey := false)
  }

  function Read(c: Cursor, event: Event): Cursor
    requires c.current < |c.nodes|
  {
    match event
    case SequenceStart => Grow(c, SEQUENCE, ValueFor(SEQUENCE)).(current := |c.nodes|)
    case MappingStart => Grow(c, MAPPING, ValueFor(MAPPING)).(current := |c.nodes|)
    case SequenceEnd => c.(current := c.nodes[c.current].parent)
    case MappingEnd => c.(current := c.nodes[c.current].parent)
    case ScalarEvent(value) => if TakesValue(c) then Grow(c, VALUE, value) else c.(prevWasKey := true, keyName := value)
    case _ => c
  }

  lemma ReadKeepsGood(c: Cursor, event: Event)
    requires Good(c)
    ensures Good(Read(c, event))
  {
    match event {
      case SequenceStart => AttachLinked(c.nodes, c.current, SEQUENCE, NextKey(c), ValueFor(SEQUENCE));
      case MappingStart => AttachLinked(c.nodes, c.current, MAPPING, NextKey(c), ValueFor(MAPPING));
      case ScalarEvent(value) => AttachLinked(c.nodes, c.current, VALUE, NextKey(c), value);
      case _ =>
    }
  }

  ghost function ReadAll(c: Cursor, events: seq<Event>): (r: Cursor)
    requires Good(c)
    ensures Good(r)
    decreases |events|
  {
    if events == [] then c
    else
      ReadKeepsGood(c, events[0]);
      ReadAll(Read(c, events[0]), events[1..])
  }

  /** The whole loop: up to the end of the stream, or until libyaml reports an error. */
  ghost function Run(c: Cursor, events: seq<Event>): (r: (Cursor, bool))
    requires Good(c)
    ensures Good(r.0)
    decreases |events|
  {
    if events == [] then (c, false)
    else if events[0] == StreamEnd then (c, true)
    else
      ReadKeepsGood(c, events[0]);
      Run(Read(c, events[0]), events[1..])
  }

  /** Where the stream ends, or the number of events. */
  function EndAt(events: seq<Event>): (k: nat)
    ensures k <= |events| && StreamEnd !in events[..k] && (k < |events| ==> events[k] == StreamEnd)
  {
    if events == [] || events[0] == StreamEnd then 0
    else
      var k := 1 + EndAt(events[1..]);
      assert events[..k] == [events[0]] + events[1..][..k - 1];
      k
  }

  /** `parse` succeeds if and only if the end of the stream comes, and has read exactly what comes before it. */
  lemma {:induction false} RunExact(c: Cursor, events: seq<Event>)
    requires Good(c)
    ensures Run(c, events) == (ReadAll(c, events[..EndAt(events)]), EndAt(events) < |events|)
    ensures Run(c, events).1 <==> StreamEnd in events
    decreases |events|
  {
    var k := EndAt(events);
    if k > 0 {
      ReadKeepsGood(c, events[0]);
      RunExact(Read(c, events[0]), events[1..]);
      assert events[..k][0] == events[0] && events[..k][1..] == events[1..][..k - 1];
    }
    EndAtExact(events);
  }

  lemma EndAtExact(events: seq<Event>)
    ensures EndAt(events) < |events| <==> StreamEnd in events
  {
    assert events[..|events|] == events;
  }

  lemma {:induction false} ReadAllConcat(c: Cursor, a: seq<Event>, b: seq<Event>)
    requires Good(c)
    ensures ReadAll(c, a + b) == ReadAll(ReadAll(c, a), b)
    decreases |a|
  {
    if a == [] {
      assert a + b == b;
    } else {
      assert (a + b)[1..] == a[1..] + b;
      ReadKeepsGood(c, a[0]);
      ReadAllConcat(Read(c, a[0]), a[1..], b);
    }
  }

  lemma ReadOne(c: Cursor, event: Event)
    requires Good(c)
    ensures ReadAll(c, [event]) == Read(c, event) && Good(Read(c, event))
  {
    ReadKeepsGood(c, event);
    assert ReadAll(Read(c, event), []) == Read(c, event);
    assert [event][1..] == [];
  }

  function Meaningful(events: seq<Event>): seq<Event> {
    if events == [] then []
    else (if events[0] == Other then [] else [events[0]]) + Meaningful(events[1..])
  }

  lemma {:induction false} RunReads(c: Cursor, events: seq<Event>, tail: seq<Event>)
    requires Good(c) && StreamEnd !in Meaningful(events)
    ensures Run(c, events + [StreamEnd] + tail) == (ReadAll(c, Meaningful(events)), true)
    decreases |events|
  {
    var all := events + [StreamEnd] + tail;
    if events != [] {
      assert all[0] == events[0] && all[1..] == events[1..] + [StreamEnd] + tail;
      assert StreamEnd !in Meaningful(events[1..]);
      ReadKeepsGood(c, events[0]);
      RunReads(Read(c, events[0]), events[1..], tail);
      if events[0] == Other {
        assert Meaningful(events) == Meaningful(events[1..]);
      } else {
        assert Meaningful(events)[1..] == Meaningful(events[1..]);
        assert events[0] == Meaningful(events)[0];
      }
    }
  }

  // ----- documents and their events -----

  datatype Entry = Entry(key: string, doc: Doc)

  datatype Doc =
    | Scalar(text: string)
    | Sequence(items: seq<Doc>)
    | Mapping(entries: seq<Entry>)

  function Size(doc: Doc): nat {
    match doc
    case Scalar(_) => 0
    case Sequence(items) => |items|
    case Mapping(entries) => |entries|
  }

  function Child(doc: Doc, k: nat): (r: Doc)
    requires k < Size(doc)
    ensures r < doc
  {
    if doc.Sequence? then doc.items[k] else doc.entries[k].doc
  }

  function ChildKey(doc: Doc, k: nat): string
    requires k < Size(doc)
  {
    if doc.Sequence? then Decimal(k) else doc.entries[k].key
  }

  function Flatten(doc: Doc): seq<Event>
    decreases doc, Size(doc) + 1
  {
    match doc
    case Scalar(text) => [ScalarEvent(text)]
    case Sequence(_) => [SequenceStart] + FlattenFrom(doc, 0) + [SequenceEnd]
    case Mapping(_) => [MappingStart] + FlattenFrom(doc, 0) + [MappingEnd]
  }

  /** The events of the children of `doc` from the `k`th on. */
  function FlattenFrom(doc: Doc, k: nat): seq<Event>
    requires k <= Size(doc)
    decreases doc, Size(doc) - k
  {
    if k == Size(doc) then []
    else
      Lead(doc, k) + Flatten(Child(doc, k)) + FlattenFrom(doc, k + 1)
  }

  function Lead(doc: Doc, k: nat): seq<Event>
    requires k < Size(doc)
  {
    if doc.Mapping? then [ScalarEvent(ChildKey(doc, k))] else []
  }

  lemma {:induction false} FlattenHasNoEnd(doc: Doc)
    ensures StreamEnd !in Flatten(doc)
    decreases doc, Size(doc) + 1
  {
    if !doc.Scalar? { FlattenFromHasNoEnd(doc, 0); }
  }

  lemma {:induction false} FlattenFromHasNoEnd(doc: Doc, k: nat)
    requires k <= Size(doc)
    ensures StreamEnd !in FlattenFrom(doc, k)
    decreases doc, Size(doc) - k
  {
    if k < Size(doc) {
      FlattenHasNoEnd(Child(doc, k));
      FlattenFromHasNoEnd(doc, k + 1);
    }
  }

  function KindOf(doc: Doc): Kind {
    match doc
    case Scalar(_) => VALUE
    case Sequence(_) => SEQUENCE
    case Mapping(_) => MAPPING
  }

  /** The tree that a document stands for: sequence children are keyed by their position. */
  function TreeOf(key: string, doc: Doc): (t: Tree)
    ensures t.key == key && |t.children| == Size(doc)
    decreases doc
  {
    if doc.Scalar? then Tree(VALUE, key, doc.text, [])
    else
      Tree(KindOf(doc), key, ValueFor(KindOf(doc)),
           seq(Size(doc), k requires 0 <= k < Size(doc) => TreeOf(ChildKey(doc, k), Child(doc, k))))
  }

  /** Nothing of the document is lost: this reads it back. */
  function DocOf(t: Tree): Doc {
    match t.kind
    case SEQUENCE => Sequence(seq(|t.children|, k requires 0 <= k < |t.children| => DocOf(t.children[k])))
    case MAPPING =>
      Mapping(seq(|t.children|, k requires 0 <= k < |t.children| => Entry(t.children[k].key, DocOf(t.children[k]))))
    case _ => Scalar(t.value)
  }

  lemma {:induction false} TreeKeepsDoc(key: string, doc: Doc)
    ensures DocOf(TreeOf(key, doc)) == doc
    decreases doc
  {
    forall k | 0 <= k < Size(doc) ensures DocOf(TreeOf(ChildKey(doc, k), Child(doc, k))) == Child(doc, k) {
      TreeKeepsDoc(ChildKey(doc, k), Child(doc, k));
    }
    var again := DocOf(TreeOf(key, doc));
    match doc {
      case Scalar(_) =>
      case Sequence(items) => assert again.items == items;
      case Mapping(entries) => assert again.entries == entries;
    }
  }

  // ----- reading the events of a document -----

  /** `after` is `before` with children added to its current node, whose trees are `trees`; the cursor is back. */
  ghost predicate Extended(before: Cursor, after: Cursor, trees: seq<Tree>) {
    && Good(before) && Good(after) && |after.nodes| >= |before.nodes|
    && after.current == before.current && !after.prevWasKey
    && (forall j :: 0 <= j < |before.nodes| && j != before.current ==> after.nodes[j] == before.nodes[j])
    && (var was, now := before.nodes[before.current], after.nodes[before.current];
        && now == was.(children := now.children)
        && |now.children| == |was.children| + |trees|
        && now.children[..|was.children|] == was.children
        && forall m :: |was.children| <= m < |now.children| ==>
             now.children[m] >= |before.nodes| && TreeAt(after.nodes, now.children[m]) == trees[m - |was.children|])
  }

  lemma ExtendTwice(a: Cursor, b: Cursor, c: Cursor, first: seq<Tree>, second: seq<Tree>)
    requires Extended(a, b, first) && Extended(b, c, second)
    ensures Extended(a, c, first + second)
  {
    var i := a.current;
    var base, mid := |a.nodes[i].children|, |b.nodes[i].children|;
    assert c.nodes[i].children[..base] == b.nodes[i].children[..base];
    forall m | base <= m < |c.nodes[i].children|
      ensures c.nodes[i].children[m] >= |a.nodes|
              && TreeAt(c.nodes, c.nodes[i].children[m]) == (first + second)[m - base]
    {
      if m < mid {
        assert c.nodes[i].children[m] == b.nodes[i].children[m];
        TreeFrame(b.nodes, c.nodes, b.nodes[i].children[m]);
      }
    }
  }

  /** One more child that `Attach` made and whose own part is finished. */
  lemma ScalarExtends(c: Cursor, text: string)
    requires Good(c) && TakesValue(c)
    ensures Extended(c, Read(c, ScalarEvent(text)), [TreeOf(NextKey(c), Scalar(text))])
  {
    ReadKeepsGood(c, ScalarEvent(text));
  }

  lemma {:induction false} FlattenExtends(c: Cursor, doc: Doc)
    requires Good(c) && (doc.Scalar? ==> TakesValue(c))
    ensures Extended(c, ReadAll(c, Flatten(doc)), [TreeOf(NextKey(c), doc)])
    decreases doc, Size(doc) + 1
  {
    if doc.Scalar? {
      ReadOne(c, ScalarEvent(doc.text));
      ScalarExtends(c, doc.text);
    } else {
      var opening := if doc.Sequence? then SequenceStart else MappingStart;
      var closing := if doc.Sequence? then SequenceEnd else MappingEnd;
      var c1 := Read(c, opening);
      ReadOne(c, opening);
      FlattenFromExtends(c1, doc, 0);
      var c2 := ReadAll(c1, FlattenFrom(doc, 0));
      ReadOne(c2, closing);
      ReadAllConcat(c, [opening] + FlattenFrom(doc, 0), [closing]);
      ReadAllConcat(c, [opening], FlattenFrom(doc, 0));
      CollectionExtends(c, doc, c2);
    }
  }

  lemma CollectionExtends(c: Cursor, doc: Doc, c2: Cursor)
    requires Good(c) && !doc.Scalar?
    requires var c1 := Read(c, if doc.Sequence? then SequenceStart else MappingStart);
             Extended(c1, c2, TreeOf(NextKey(c), doc).children)
    ensures Extended(c, Read(c2, if doc.Sequence? then SequenceEnd else MappingEnd), [TreeOf(NextKey(c), doc)])
  {
    var n := |c.nodes|;
    var tree := TreeOf(NextKey(c), doc);
    assert c2.nodes[n].parent == c.current;
    assert TreeAt(c2.nodes, n) == tree by {
      assert TreeAt(c2.nodes, n).children == tree.children;
    }
    assert c2.nodes[c.current].children == c.nodes[c.current].children + [n];
  }

  lemma {:induction false} FlattenFromExtends(c: Cursor, doc: Doc, k: nat)
    requires Good(c) && !c.prevWasKey && !doc.Scalar? && k <= Size(doc)
    requires c.nodes[c.current].kind == KindOf(doc) && |c.nodes[c.current].children| == k
    ensures Extended(c, ReadAll(c, FlattenFrom(doc, k)), TreeOf("", doc).children[k..])
    decreases doc, Size(doc) - k
  {
    if k < Size(doc) {
      var child, key := Child(doc, k), ChildKey(doc, k);
      var c1 := ReadLead(c, doc, k);
      FlattenExtends(c1, child);
      var c2 := ReadAll(c1, Flatten(child));
      assert Extended(c, c2, [TreeOf(key, child)]);
      FlattenFromExtends(c2, doc, k + 1);
      var c3 := ReadAll(c2, FlattenFrom(doc, k + 1));
      RestExtends(c, c2, c3, doc, k);
      ReadAllConcat(c, Lead(doc, k) + Flatten(child), FlattenFrom(doc, k + 1));
      ReadAllConcat(c, Lead(doc, k), Flatten(child));
    }
  }

  lemma RestExtends(c: Cursor, c2: Cursor, c3: Cursor, doc: Doc, k: nat)
    requires !doc.Scalar? && k < Size(doc)
    requires Extended(c, c2, [TreeOf(ChildKey(doc, k), Child(doc, k))])
    requires Extended(c2, c3, TreeOf("", doc).children[k + 1..])
    ensures Extended(c, c3, TreeOf("", doc).children[k..])
  {
    var trees := TreeOf("", doc).children;
    var tree := TreeOf(ChildKey(doc, k), Child(doc, k));
    ExtendTwice(c, c2, c3, [tree], trees[k + 1..]);
    assert [tree] + trees[k + 1..] == trees[k..];
  }

  /** A key waits for the next node of a mapping. */
  ghost function ReadLead(c: Cursor, doc: Doc, k: nat): (c1: Cursor)
    requires Good(c) && !c.prevWasKey && !doc.Scalar? && k < Size(doc)
    requires c.nodes[c.current].kind == KindOf(doc) && |c.nodes[c.current].children| == k
    ensures c1 == ReadAll(c, Lead(doc, k)) && c1.nodes == c.nodes && c1.current == c.current
    ensures NextKey(c1) == ChildKey(doc, k) && TakesValue(c1)
  {
    if doc.Mapping? then
      ReadOne(c, ScalarEvent(ChildKey(doc, k)));
      Read(c, ScalarEvent(ChildKey(doc, k)))
    else c
  }

  // ----- the round trip -----

  /** The tree of a whole document: its top node has the empty key. */
  function DocTree(doc: Doc): Tree { Tree(DOC, "", "YamlDocValue", [TreeOf("", doc)]) }

  /**
   Reading the events of a document gives exactly its tree, with the cursor back at the root and
   no key pending, whatever ignored events lie between and whatever follows the end.
   */
  lemma RoundTrip(doc: Doc, events: seq<Event>, tail: seq<Event>)
    requires !doc.Scalar? && Meaningful(events) == Flatten(doc)
    ensures var (c, ok) := Run(FRESH, events + [StreamEnd] + tail);
            && ok && c.current == 0 && !c.prevWasKey
            && TreeAt(c.nodes, 0) == DocTree(doc)
            && DocOf(TreeAt(c.nodes, 0).children[0]) == doc
  {
    FlattenHasNoEnd(doc);
    RunReads(FRESH, events, tail);
    FlattenExtends(FRESH, doc);
    TreeKeepsDoc("", doc);
    var c := ReadAll(FRESH, Flatten(doc));
    assert TreeAt(c.nodes, 0).children == [TreeOf("", doc)];
  }

  /** The condition is exact: a bare scalar is taken for a key and leaves the tree empty. */
  lemma RoundTripExactly(doc: Doc, events: seq<Event>, tail: seq<Event>)
    requires Meaningful(events) == Flatten(doc)
    ensures TreeAt(Run(FRESH, events + [StreamEnd] + tail).0.nodes, 0) == DocTree(doc) <==> !doc.Scalar?
    ensures doc.Scalar? ==> Run(FRESH, events + [StreamEnd] + tail).0 == Cursor([DOC_NODE], 0, true, doc.text)
  {
    if doc.Scalar? {
      FlattenHasNoEnd(doc);
      RunReads(FRESH, events, tail);
      ReadOne(FRESH, ScalarEvent(doc.text));
      assert |TreeAt([DOC_NODE], 0).children| == 0;
    } else {
      RoundTrip(doc, events, tail);
    }
  }
}
