/** Access paths: splitting, first-match resolution, and what can be found. */
module YamlLookup {
  import opened Options
  import opened YamlTree
  import opened YamlParse

  const NOT_FOUND := "Not Found"

  // ----- std::getline with a delimiter -----

  /** Where `separator` first stands in `s`, or the length. */
  function FirstAt(s: string, separator: char): (i: nat)
    ensures i <= |s| && separator !in s[..i]
    ensures i < |s| ==> s[i] == separator
  {
    if s == "" || s[0] == separator then 0
    else
      var i := 1 + FirstAt(s[1..], separator);
      assert s[..i] == [s[0]] + s[1..][..i - 1];
      i
  }

  /** The elements `getline` yields: an empty rest at the end yields none. */
  function Split(s: string, separator: char): seq<string>
    decreases |s|
  {
    if s == "" then []
    else
      var i := FirstAt(s, separator);
      [s[..i]] + (if i < |s| then Split(s[i + 1..], separator) else [])
  }

  function Join(elements: seq<string>, separator: char): string {
    if |elements| == 0 then ""
    else if |elements| == 1 then elements[0]
    else elements[0] + [separator] + Join(elements[1..], separator)
  }

  predicate Plain(elements: seq<string>, separator: char) {
    forall i :: 0 <= i < |elements| ==> separator !in elements[i]
  }

  lemma {:induction false} SplitPlain(s: string, separator: char)
    ensures Plain(Split(s, separator), separator)
    ensures s != "" ==> Split(s, separator) != []
    decreases |s|
  {
    if s != "" {
      var i := FirstAt(s, separator);
      if i < |s| { SplitPlain(s[i + 1..], separator); }
    }
  }

  lemma FirstAtIs(s: string, separator: char, n: nat)
    requires n <= |s| && separator !in s[..n] && (n < |s| ==> s[n] == separator)
    ensures FirstAt(s, separator) == n
  {
    var i := FirstAt(s, separator);
    assert forall k :: 0 <= k < n ==> s[k] == s[..n][k];
    assert forall k :: 0 <= k < i ==> s[k] == s[..i][k];
  }

  lemma SplitStep(element: string, separator: char, tail: string)
    requires separator !in element
    ensures Split(element + [separator] + tail, separator) == [element] + Split(tail, separator)
    ensures Split(element, separator) == if element == "" then [] else [element]
  {
    var s := element + [separator] + tail;
    assert s[..|element|] == element && s[|element| + 1..] == tail;
    FirstAtIs(s, separator, |element|);
    assert element[..|element|] == element;
    FirstAtIs(element, separator, |element|);
  }

  /** Splitting undoes joining exactly when no element holds the separator and the last is not empty. */
  lemma {:induction false} SplitOfJoin(elements: seq<string>, separator: char)
    ensures Split(Join(elements, separator), separator) == elements
            <==> Plain(elements, separator) && (elements != [] ==> elements[|elements| - 1] != "")
  {
    if Plain(elements, separator) {
      SplitOfJoinPlain(elements, separator);
    } else {
      SplitPlain(Join(elements, separator), separator);
    }
  }

  lemma {:induction false} SplitOfJoinPlain(elements: seq<string>, separator: char)
    requires Plain(elements, separator)
    ensures Split(Join(elements, separator), separator) == elements
            <==> (elements != [] ==> elements[|elements| - 1] != "")
  {
    if |elements| == 1 {
      SplitStep(elements[0], separator, "");
    } else if |elements| > 1 {
      var rest := elements[1..];
      var tail := Join(rest, separator);
      SplitStep(elements[0], separator, tail);
      SplitOfJoinPlain(rest, separator);
      Cons(elements[0], Split(tail, separator), rest);
      assert elements == [elements[0]] + rest;
    }
  }

  // A separator at the very end.
  function Ending(s: string, separator: char): string { if s != "" && s[|s| - 1] == separator then [separator] else "" }

  lemma JoinFirst(first: string, later: seq<string>, separator: char)
    ensures Join([first] + later, separator) == if later == [] then first else first + [separator] + Join(later, separator)
  {
    assert ([first] + later)[1..] == later;
  }

  lemma Together(a: string, b: string, c: string, d: string)
    ensures a + b + (c + d) == a + b + c + d
  {
  }

  lemma JoinOneMore(first: string, rest: string, separator: char)
    requires separator !in first && rest == Join(Split(rest, separator), separator) + Ending(rest, separator)
    ensures var s := first + [separator] + rest;
            s == Join(Split(s, separator), separator) + Ending(s, separator)
  {
    SplitStep(first, separator, rest);
    SplitPlain(rest, separator);
    JoinFirst(first, Split(rest, separator), separator);
    Together(first, [separator], Join(Split(rest, separator), separator), Ending(rest, separator));
  }

  /** Joining undoes splitting but for a separator at the very end. */
  lemma {:induction false} JoinOfSplit(s: string, separator: char)
    ensures s == Join(Split(s, separator), separator) + Ending(s, separator)
    decreases |s|
  {
    if s != "" {
      var i := FirstAt(s, separator);
      var first := s[..i];
      if i < |s| {
        var rest := s[i + 1..];
        assert s == first + [separator] + rest;
        JoinOfSplit(rest, separator);
        JoinOneMore(first, rest, separator);
      } else {
        JoinFirst(first, [], separator);
        assert s == first && s[|s| - 1] in first;
      }
    }
  }

  lemma Cons(x: string, a: seq<string>, b: seq<string>)
    ensures [x] + a == [x] + b <==> a == b
  {
    assert ([x] + a)[1..] == a && ([x] + b)[1..] == b;
  }

  // ----- resolution -----

  /** The first of `nodes` with the key, or their number. */
  function FirstWith(nodes: seq<Tree>, key: string): (i: nat)
    ensures i <= |nodes|
    ensures forall j :: 0 <= j < i ==> nodes[j].key != key
    ensures i < |nodes| ==> nodes[i].key == key
  {
    if nodes == [] || nodes[0].key == key then 0 else 1 + FirstWith(nodes[1..], key)
  }

  function Resolve(t: Tree, elements: seq<string>): Option<Tree>
    requires elements != []
    decreases |elements|
  {
    var i := FirstWith(t.children, elements[0]);
    if i == |t.children| then None
    else if |elements| == 1 then Some(t.children[i])
    else Resolve(t.children[i], elements[1..])
  }

  function Lookup(t: Tree, path: string, separator: char): string {
    if path == "" then NOT_FOUND
    else
      SplitPlain(path, separator);
      var found := Resolve(t, Split(path, separator));
      if found.Some? then found.value.value else NOT_FOUND
  }

  // ----- reference: walking by position -----

  predicate Leads(t: Tree, steps: seq<nat>) {
    steps == [] || (steps[0] < |t.children| && Leads(t.children[steps[0]], steps[1..]))
  }

  function At(t: Tree, steps: seq<nat>): Tree
    requires Leads(t, steps)
  {
    if steps == [] then t else At(t.children[steps[0]], steps[1..])
  }

  function Keys(t: Tree, steps: seq<nat>): (keys: seq<string>)
    requires Leads(t, steps)
    ensures |keys| == |steps|
  {
    if steps == [] then [] else [t.children[steps[0]].key] + Keys(t.children[steps[0]], steps[1..])
  }

  predicate DistinctKeys(t: Tree) {
    && (forall i, j :: 0 <= i < j < |t.children| ==> t.children[i].key != t.children[j].key)
    && (forall i :: 0 <= i < |t.children| ==> DistinctKeys(t.children[i]))
  }

  /** With distinct keys, the keys on the way to a node resolve to that node. */
  lemma {:induction false} ResolveReaches(t: Tree, steps: seq<nat>)
    requires DistinctKeys(t) && Leads(t, steps) && steps != []
    ensures Resolve(t, Keys(t, steps)) == Some(At(t, steps))
    decreases |steps|
  {
    var kid := t.children[steps[0]];
    var i := FirstWith(t.children, kid.key);
    assert i == steps[0];
    assert Keys(t, steps)[1..] == Keys(kid, steps[1..]);
    if |steps| == 1 {
      assert At(kid, steps[1..]) == kid;
    } else {
      ResolveReaches(kid, steps[1..]);
    }
  }

  /** On the way `steps` no earlier sibling has the same key. */
  predicate FirstWay(t: Tree, steps: seq<nat>)
    requires Leads(t, steps)
  {
    steps == [] ||
    var kids := t.children;
    && (forall j :: 0 <= j < steps[0] ==> kids[j].key != kids[steps[0]].key)
    && FirstWay(kids[steps[0]], steps[1..])
  }

  /** What is resolved, with distinct keys or not, stands at the end of a way of first matches with these keys. */
  lemma {:induction false} ResolveIsReal(t: Tree, elements: seq<string>) returns (steps: seq<nat>)
    requires elements != [] && Resolve(t, elements).Some?
    ensures steps != [] && Leads(t, steps) && FirstWay(t, steps) && Keys(t, steps) == elements
    ensures Resolve(t, elements) == Some(At(t, steps))
    decreases |elements|
  {
    var i := FirstWith(t.children, elements[0]);
    if |elements| == 1 {
      steps := [i];
      assert steps[1..] == [];
      assert Keys(t.children[i], []) == [];
    } else {
      var rest := ResolveIsReal(t.children[i], elements[1..]);
      steps := [i] + rest;
      assert steps[1..] == rest;
      assert elements == [elements[0]] + elements[1..];
    }
  }

  /** And every way of first matches is resolved: there is no going back to a later sibling. */
  lemma {:induction false} FirstWayResolves(t: Tree, steps: seq<nat>)
    requires Leads(t, steps) && steps != [] && FirstWay(t, steps)
    ensures Resolve(t, Keys(t, steps)) == Some(At(t, steps))
    decreases |steps|
  {
    var kid := t.children[steps[0]];
    assert FirstWith(t.children, kid.key) == steps[0];
    assert Keys(t, steps)[1..] == Keys(kid, steps[1..]);
    if |steps| == 1 {
      assert At(kid, steps[1..]) == kid;
    } else {
      FirstWayResolves(kid, steps[1..]);
    }
  }

  // ----- parsed documents -----

  /** Section 3.2.1.1 of YAML 1.2: the keys of a mapping differ. */
  predicate DistinctEntries(doc: Doc) {
    match doc
    case Scalar(_) => true
    case Sequence(items) => forall k :: 0 <= k < |items| ==> DistinctEntries(items[k])
    case Mapping(entries) =>
      && (forall j, k :: 0 <= j < k < |entries| ==> entries[j].key != entries[k].key)
      && (forall k :: 0 <= k < |entries| ==> DistinctEntries(entries[k].doc))
  }

  lemma {:induction false} DistinctTree(key: string, doc: Doc)
    requires DistinctEntries(doc)
    ensures DistinctKeys(TreeOf(key, doc))
    decreases doc
  {
    var kids := TreeOf(key, doc).children;
    forall i | 0 <= i < |kids| ensures DistinctKeys(kids[i]) {
      DistinctTree(ChildKey(doc, i), Child(doc, i));
    }
    forall i, j | 0 <= i < j < |kids| ensures kids[i].key != kids[j].key {
      DecimalInjective(i, j);
    }
  }

  /**
   Every node below the top of a document is found under its keys, each led by a separator, if no
   key holds the separator and the last is not empty.
   */
  lemma LookupFinds(doc: Doc, steps: seq<nat>, separator: char)
    requires DistinctEntries(doc) && steps != [] && Leads(TreeOf("", doc), steps)
    requires var keys := Keys(TreeOf("", doc), steps); Plain(keys, separator) && keys[|keys| - 1] != ""
    ensures Lookup(DocTree(doc), [separator] + Join(Keys(TreeOf("", doc), steps), separator), separator)
            == At(TreeOf("", doc), steps).value
  {
    var keys := Keys(TreeOf("", doc), steps);
    ResolveBelowTop(doc, steps);
    JoinBelowTop(keys, separator);
    SplitOfJoin([""] + keys, separator);
    LookupResolves(DocTree(doc), [separator] + Join(keys, separator), separator, [""] + keys);
  }

  lemma JoinBelowTop(keys: seq<string>, separator: char)
    requires keys != []
    ensures Join([""] + keys, separator) == [separator] + Join(keys, separator)
  {
    assert ([""] + keys)[1..] == keys;
  }

  lemma LookupResolves(t: Tree, path: string, separator: char, elements: seq<string>)
    requires path != "" && elements != [] && Split(path, separator) == elements && Resolve(t, elements).Some?
    ensures Lookup(t, path, separator) == Resolve(t, elements).value.value
  {
  }

  lemma DistinctDocTree(doc: Doc)
    requires DistinctEntries(doc)
    ensures DistinctKeys(DocTree(doc))
  {
    DistinctTree("", doc);
  }

  lemma ResolveBelowTop(doc: Doc, steps: seq<nat>)
    requires DistinctEntries(doc) && Leads(TreeOf("", doc), steps)
    ensures Resolve(DocTree(doc), [""] + Keys(TreeOf("", doc), steps)) == Some(At(TreeOf("", doc), steps))
  {
    DistinctDocTree(doc);
    assert ([0] + steps)[1..] == steps;
    ResolveReaches(DocTree(doc), [0] + steps);
  }

  /** In a document with distinct keys a lookup resolves iff its elements are the keys of some way from the root. */
  lemma LookupExact(doc: Doc, path: string, separator: char)
    requires DistinctEntries(doc) && path != ""
    ensures Split(path, separator) != []
    ensures Resolve(DocTree(doc), Split(path, separator)).Some?
            <==> exists steps: seq<nat> :: Leads(DocTree(doc), steps) && Keys(DocTree(doc), steps) == Split(path, separator)
  {
    var t, elements := DocTree(doc), Split(path, separator);
    SplitPlain(path, separator);
    DistinctDocTree(doc);
    if Resolve(t, elements).Some? {
      var steps := ResolveIsReal(t, elements);
    } else if steps: seq<nat> :| Leads(t, steps) && Keys(t, steps) == elements {
      ResolveReaches(t, steps);
    }
  }

  /** A path that does not begin with the separator finds nothing, for the top node's key is empty. */
  lemma RelativePathFindsNothing(doc: Doc, path: string, separator: char)
    requires path != "" ==> path[0] != separator
    ensures Lookup(DocTree(doc), path, separator) == NOT_FOUND
  {
    if path != "" {
      SplitPlain(path, separator);
      assert FirstAt(path, separator) > 0;
      assert Split(path, separator)[0] != "";
    }
  }
}
