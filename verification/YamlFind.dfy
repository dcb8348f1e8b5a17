/**
 What an access path means in a document, told without the tree: a numeral stands for a position
 in a sequence and anything else for a key of a mapping. The parser and the lookup agree with it.
 */
module YamlFind {
  import opened Options
  import opened YamlTree
  import opened YamlParse
  import opened YamlLookup

  /** The first entry with the key, or the number of entries. */
  function EntryAt(entries: seq<Entry>, key: string): (i: nat)
    ensures i <= |entries| && (i < |entries| ==> entries[i].key == key)
    ensures forall j :: 0 <= j < i ==> entries[j].key != key
  {
    if entries == [] || entries[0].key == key then 0 else 1 + EntryAt(entries[1..], key)
  }

  /** The child of a document that one element of a path names. */
  function ChildNamed(doc: Doc, element: string): Option<nat> {
    match doc
    case Scalar(_) => None
    case Sequence(items) =>
      if Canonical(element) && 0 <= ValueOf(element) < |items| then Some(ValueOf(element)) else None
    case Mapping(entries) =>
      if EntryAt(entries, element) < |entries| then Some(EntryAt(entries, element)) else None
  }

  function Find(doc: Doc, elements: seq<string>): Option<Doc>
    decreases |elements|
  {
    if elements == [] then Some(doc)
    else
      match ChildNamed(doc, elements[0])
      case None => None
      case Some(k) => if k < Size(doc) then Find(Child(doc, k), elements[1..]) else None
  }

  /** What is stored for a node: its text, or what a collection has instead. */
  function TextOf(doc: Doc): string {
    match doc
    case Scalar(text) => text
    case Sequence(_) => "YamlSequenceValue"
    case Mapping(_) => "YamlMappingValue"
  }

  lemma TreeText(key: string, doc: Doc)
    ensures TreeOf(key, doc).value == TextOf(doc)
  {
  }

  /** The first child of the tree with that key is the child so named. */
  lemma NamedIsFirst(key: string, doc: Doc, element: string)
    ensures var kids := TreeOf(key, doc).children;
            var i := FirstWith(kids, element);
            match ChildNamed(doc, element)
            case None => i == |kids|
            case Some(k) => k < Size(doc) && i == k && kids[k] == TreeOf(ChildKey(doc, k), Child(doc, k))
  {
    var kids := TreeOf(key, doc).children;
    if doc.Sequence? {
      forall k | 0 <= k < |kids| ensures kids[k].key == element <==> Canonical(element) && ValueOf(element) == k {
        DecimalExact(k, element);
      }
      var named := ChildNamed(doc, element);
      assert named.Some? ==> kids[named.value].key == element;
    } else if doc.Mapping? {
      forall k | 0 <= k < |kids| ensures kids[k].key == doc.entries[k].key { }
    }
  }

  lemma {:induction false} ResolveIsFind(key: string, doc: Doc, elements: seq<string>)
    requires elements != []
    ensures Resolve(TreeOf(key, doc), elements).Some? <==> Find(doc, elements).Some?
    ensures Find(doc, elements).Some? ==> Resolve(TreeOf(key, doc), elements).value.value == TextOf(Find(doc, elements).value)
    decreases |elements|
  {
    NamedIsFirst(key, doc, elements[0]);
    var named := ChildNamed(doc, elements[0]);
    if named.Some? {
      var k := named.value;
      TreeText(ChildKey(doc, k), Child(doc, k));
      if |elements| > 1 {
        ResolveIsFind(ChildKey(doc, k), Child(doc, k), elements[1..]);
      }
    }
  }

  /** The text found under a path: the path begins with a separator, and the rest of it names a node. */
  function TextAt(doc: Doc, path: string, separator: char): string {
    var elements := Split(path, separator);
    if elements == [] || elements[0] != "" || Find(doc, elements[1..]) == None then NOT_FOUND
    else TextOf(Find(doc, elements[1..]).value)
  }

  /** A lookup in the tree of a document finds what the path means, for every document and path. */
  lemma LookupIsText(doc: Doc, path: string, separator: char)
    ensures Lookup(DocTree(doc), path, separator) == TextAt(doc, path, separator)
  {
    if path != "" {
      SplitPlain(path, separator);
      var elements := Split(path, separator);
      TopOnly(doc, elements);
      TreeText("", doc);
      if |elements| > 1 { ResolveIsFind("", doc, elements[1..]); }
    }
  }

  // Below the root there is one node, with the empty key.
  lemma TopOnly(doc: Doc, elements: seq<string>)
    requires elements != []
    ensures Resolve(DocTree(doc), elements)
            == if elements[0] != "" then None
               else if |elements| == 1 then Some(TreeOf("", doc))
               else Resolve(TreeOf("", doc), elements[1..])
  {
    var kids := DocTree(doc).children;
    assert kids == [TreeOf("", doc)];
    assert FirstWith(kids, elements[0]) == if elements[0] == "" then 0 else 1;
  }

  /** Positions count from zero: the only item of `- foo` is found under "/0", and under no other numeral. */
  lemma FirstItem(text: string, numeral: string)
    requires '/' !in numeral && numeral != ""
    ensures Lookup(DocTree(Sequence([Scalar(text)])), "/" + numeral, '/') == if numeral == "0" then text else NOT_FOUND
  {
    var doc := Sequence([Scalar(text)]);
    LookupIsText(doc, "/" + numeral, '/');
    SplitStep("", '/', numeral);
    SplitStep(numeral, '/', "");
    assert "" + ['/'] + numeral == "/" + numeral;
    var elements := ["", numeral];
    assert Split("/" + numeral, '/') == elements;
    DecimalExact(0, numeral);
    assert Decimal(0) == "0";
    assert elements[1..] == [numeral] && [numeral][1..] == [];
    assert ChildNamed(doc, numeral) == if numeral == "0" then Some(0) else None;
    assert numeral == "0" ==> Find(doc, [numeral]) == Find(doc.items[0], []);
  }
}
