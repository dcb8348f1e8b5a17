/** `YamlWrapper` of `common/cxx/config_cxx/src/yaml_wrapper.cpp`, from the event stream on. */
module YamlWrapperClass {
  import opened Options
  import opened YamlTree
  import opened YamlParse
  import opened YamlLookup
  import opened YamlFind

  lemma Regroup(elements: seq<string>, element: string, later: seq<string>)
    ensures elements + ([element] + later) == elements + [element] + later
  {
  }

  class YamlWrapper {
    var nodes: Nodes // what root_ owns; node 0 is root_

    ghost predicate Valid()
      reads this
    {
      Linked(nodes)
    }

    constructor ()
      ensures Valid() && nodes == FRESH.nodes
    {
      nodes := [DOC_NODE];
    }

    /** `events` is what libyaml delivers; an error is its end before StreamEnd. */
    method Parse(events: seq<Event>) returns (ok: bool)
      requires Valid()
      modifies this
      ensures Valid()
      ensures (Cursor(nodes, 0, false, "").nodes, ok)
              == (Run(Cursor(old(nodes), 0, false, ""), events).0.nodes, Run(Cursor(old(nodes), 0, false, ""), events).1)
    {
      var prevWasKey, keyName := false, "";
      var current: nat, i := 0, 0;
      ghost var whole := Run(Cursor(nodes, 0, false, ""), events);
      while true
        invariant i <= |events| && Good(Cursor(nodes, current, prevWasKey, keyName))
        invariant whole == Run(Cursor(nodes, current, prevWasKey, keyName), events[i..])
        decreases |events| - i
      {
        if i == |events| {
          return false;
        }
        var event := events[i];
        ghost var before := Cursor(nodes, current, prevWasKey, keyName);
        ReadKeepsGood(before, event);
        assert events[i..][1..] == events[i + 1..];
        i := i + 1;
        match event {
          case SequenceStart =>
            current, prevWasKey := Append(SEQUENCE, current, prevWasKey, keyName, "YamlSequenceValue");
          case SequenceEnd =>
            current := nodes[current].parent;
          case MappingStart =>
            current, prevWasKey := Append(MAPPING, current, prevWasKey, keyName, "YamlMappingValue");
          case MappingEnd =>
            current := nodes[current].parent;
          case ScalarEvent(value) =>
            if !prevWasKey && nodes[current].kind != SEQUENCE {
              prevWasKey, keyName := true, value;
            } else {
              var made;
              made, prevWasKey := Append(VALUE, current, prevWasKey, keyName, value);
            }
          case _ =>
        }
        if event == StreamEnd {
          return true;
        }
        assert Cursor(nodes, current, prevWasKey, keyName) == Read(before, event);
      }
    }

    /** The three ways in which a new child of `current` gets its key. */
    method Append(kind: Kind, current: nat, prevWasKey: bool, keyName: string, value: string)
      returns (made: nat, key: bool)
      requires Valid() && current < |nodes|
      modifies this
      ensures made == old(|nodes|) && !key
      ensures nodes == Attach(old(nodes), current, kind, NextKey(Cursor(old(nodes), current, prevWasKey, keyName)), value)
    {
      made, key := |nodes|, false;
      var name := keyName;
      if !prevWasKey && nodes[current].kind == SEQUENCE {
        name := Decimal(|nodes[current].children|);
      } else if !prevWasKey {
        name := "";
      }
      var kids := nodes[current].children + [made];
      nodes := nodes[current := nodes[current].(children := kids)] + [YamlNode(kind, name, value, current, [])];
    }

    method PathElements(accessPath: string, separator: char) returns (elements: seq<string>)
      ensures elements == Split(accessPath, separator)
    {
      elements := [];
      var rest := accessPath;
      while rest != ""
        invariant elements + Split(rest, separator) == Split(accessPath, separator)
        decreases |rest|
      {
        var i := FirstAt(rest, separator);
        var later := if i < |rest| then rest[i + 1..] else "";
        assert Split(rest, separator) == [rest[..i]] + Split(later, separator);
        Regroup(elements, rest[..i], Split(later, separator));
        elements := elements + [rest[..i]];
        rest := later;
      }
    }

    // The inner loop of getValueImpl.
    method ChildWithKey(current: nat, key: string) returns (i: nat)
      requires Valid() && current < |nodes|
      ensures i == FirstWith(TreeAt(nodes, current).children, key)
    {
      ghost var here := TreeAt(nodes, current);
      i := 0;
      while i < |nodes[current].children|
        invariant i <= FirstWith(here.children, key)
      {
        assert here.children[i] == TreeAt(nodes, nodes[current].children[i]);
        if key == nodes[nodes[current].children[i]].key {
          return;
        }
        i := i + 1;
      }
    }

    /** The destructive walk of getValueImpl finds what the recursive resolution finds. */
    method GetValueImpl(accessPath: string, separator: char) returns (value: string)
      requires Valid()
      ensures value == Lookup(TreeAt(nodes, 0), accessPath, separator)
    {
      if accessPath == "" {
        return NOT_FOUND;
      }
      var pathElements := PathElements(accessPath, separator);
      SplitPlain(accessPath, separator);
      ghost var answer := Resolve(TreeAt(nodes, 0), pathElements);
      var current: nat := 0;
      var pathValid := true;
      while pathValid
        invariant current < |nodes| && pathElements != []
        invariant pathValid ==> answer == Resolve(TreeAt(nodes, current), pathElements)
        invariant !pathValid ==> answer == None
        decreases |pathElements|, pathValid
      {
        pathValid := false;
        var i := ChildWithKey(current, pathElements[0]);
        if i < |nodes[current].children| {
          if |pathElements| == 1 {
            return nodes[nodes[current].children[i]].value;
          }
          pathValid := true;
          current := nodes[current].children[i];
          pathElements := pathElements[1..];
        }
      }
      return NOT_FOUND;
    }

    /** getValue<std::string>: the flag is false also for a node whose value is the not-found text. */
    method GetString(accessPath: string, separator: char) returns (valid: bool, value: string)
      requires Valid()
      ensures value == Lookup(TreeAt(nodes, 0), accessPath, separator)
      ensures valid <==> accessPath != "" && Split(accessPath, separator) != []
                         && Resolve(TreeAt(nodes, 0), Split(accessPath, separator)).Some? && value != NOT_FOUND
    {
      value := GetValueImpl(accessPath, separator);
      SplitPlain(accessPath, separator);
      valid := value != NOT_FOUND;
    }

    method GetBool(accessPath: string, separator: char) returns (valid: bool, value: bool)
      requires Valid()
      ensures valid <==> Lookup(TreeAt(nodes, 0), accessPath, separator) in {"true", "True", "1", "false", "False", "0"}
      ensures value <==> Lookup(TreeAt(nodes, 0), accessPath, separator) in {"true", "True", "1"}
    {
      var text := GetValueImpl(accessPath, separator);
      if text == "true" || text == "True" || text == "1" {
        return true, true;
      }
      if text == "false" || text == "False" || text == "0" {
        return true, false;
      }
      return false, false;
    }
  }

  /** From the events of a document to the value of any of its nodes. */
  method ParseThenFind(doc: Doc, events: seq<Event>, steps: seq<nat>, separator: char) returns (value: string)
    requires !doc.Scalar? && Meaningful(events) == Flatten(doc) && DistinctEntries(doc)
    requires steps != [] && Leads(TreeOf("", doc), steps)
    requires var keys := Keys(TreeOf("", doc), steps); Plain(keys, separator) && keys[|keys| - 1] != ""
    ensures value == At(TreeOf("", doc), steps).value
  {
    var wrapper := new YamlWrapper();
    RoundTrip(doc, events, []);
    assert events + [StreamEnd] + [] == events + [StreamEnd];
    var ok := wrapper.Parse(events + [StreamEnd]);
    LookupFinds(doc, steps, separator);
    value := wrapper.GetValueImpl([separator] + Join(Keys(TreeOf("", doc), steps), separator), separator);
  }

  /** From the events of a document to whatever a path means in it, found or not. */
  method ParseThenLookup(doc: Doc, events: seq<Event>, path: string, separator: char) returns (value: string)
    requires !doc.Scalar? && Meaningful(events) == Flatten(doc)
    ensures value == TextAt(doc, path, separator)
  {
    var wrapper := new YamlWrapper();
    RoundTrip(doc, events, []);
    assert events + [StreamEnd] + [] == events + [StreamEnd];
    var ok := wrapper.Parse(events + [StreamEnd]);
    LookupIsText(doc, path, separator);
    value := wrapper.GetValueImpl(path, separator);
  }
}
