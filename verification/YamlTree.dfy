/**
 The node tree of `common/cxx/config_cxx/include/config_cxx/yaml_wrapper.hpp`. The nodes stand in
 one sequence in the order of their creation; parent and children are positions in it. `TreeAt`
 reads the tree below a node, which is what the rest of the model speaks about.
 */
module YamlTree {
  datatype Kind = VALUE | SEQUENCE | MAPPING | DOC

  datatype YamlNode = YamlNode(kind: Kind, key: string, value: string, parent: nat, children: seq<nat>)

  type Nodes = seq<YamlNode>

  // The parent of the document node is the node itself.
  const DOC_NODE: YamlNode := YamlNode(DOC, "", "YamlDocValue", 0, [])

  /** Node 0 is the document, children point back to their parents, and no node is its own descendant. */
  ghost predicate Linked(nodes: Nodes) {
    && |nodes| > 0 && nodes[0].kind == DOC && nodes[0].parent == 0
    && (forall i :: 0 < i < |nodes| ==> nodes[i].parent < i && nodes[i].kind != DOC)
    && (forall i, k :: 0 <= i < |nodes| && 0 <= k < |nodes[i].children| ==>
          i < nodes[i].children[k] < |nodes| && nodes[nodes[i].children[k]].parent == i)
  }

  datatype Tree = Tree(kind: Kind, key: string, value: string, children: seq<Tree>)

  ghost function TreeAt(nodes: Nodes, i: nat): (t: Tree)
    requires Linked(nodes) && i < |nodes|
    ensures |t.children| == |nodes[i].children|
    ensures t.kind == nodes[i].kind && t.key == nodes[i].key && t.value == nodes[i].value
    decreases |nodes| - i
  {
    var kids := nodes[i].children;
    Tree(nodes[i].kind, nodes[i].key, nodes[i].value,
         seq(|kids|, k requires 0 <= k < |kids| => TreeAt(nodes, kids[k])))
  }

  /** Nothing below `i` changes when the nodes from `i` on stay as they are. */
  lemma {:induction false} TreeFrame(old_: Nodes, new_: Nodes, i: nat)
    requires Linked(old_) && Linked(new_) && i < |old_| <= |new_|
    requires forall j :: i <= j < |old_| ==> new_[j] == old_[j]
    ensures TreeAt(new_, i) == TreeAt(old_, i)
    decreases |old_| - i
  {
    var kids := old_[i].children;
    forall k | 0 <= k < |kids| ensures TreeAt(new_, kids[k]) == TreeAt(old_, kids[k]) {
      TreeFrame(old_, new_, kids[k]);
    }
  }

  /** A new last child of `parent`. */
  function Attach(nodes: Nodes, parent: nat, kind: Kind, key: string, value: string): Nodes
    requires parent < |nodes|
  {
    nodes[parent := nodes[parent].(children := nodes[parent].children + [|nodes|])]
    + [YamlNode(kind, key, value, parent, [])]
  }

  lemma AttachLinked(nodes: Nodes, parent: nat, kind: Kind, key: string, value: string)
    requires Linked(nodes) && parent < |nodes| && kind != DOC
    ensures Linked(Attach(nodes, parent, kind, key, value))
  {
    var made := Attach(nodes, parent, kind, key, value);
    forall i, k | 0 <= i < |made| && 0 <= k < |made[i].children|
      ensures i < made[i].children[k] < |made| && made[made[i].children[k]].parent == i
    {
      if i < |nodes| && k < |nodes[i].children| {
        assert made[i].children[k] == nodes[i].children[k];
      }
    }
  }

  // ----- std::to_string of a position -----

  function Decimal(n: nat): (s: string)
    ensures s != ""
  {
    var digit := ['0' + (n % 10) as char];
    if n < 10 then digit else Decimal(n / 10) + digit
  }

  function ValueOf(s: string): int {
    if s == "" then 0 else 10 * ValueOf(s[..|s| - 1]) + (s[|s| - 1] as int - '0' as int)
  }

  lemma {:induction false} DecimalValue(n: nat)
    ensures ValueOf(Decimal(n)) == n
  {
    var s := Decimal(n);
    if n < 10 {
      assert s[..|s| - 1] == "";
    } else {
      DecimalValue(n / 10);
      assert s[..|s| - 1] == Decimal(n / 10);
    }
  }

  predicate IsDigit(c: char) { '0' <= c <= '9' }

  /** A decimal numeral as `std::to_string` writes it: digits only, and no leading zero. */
  predicate Canonical(s: string) {
    s != "" && (forall i :: 0 <= i < |s| ==> IsDigit(s[i])) && (|s| > 1 ==> s[0] != '0')
  }

  lemma {:induction false} DecimalCanonical(n: nat)
    ensures Canonical(Decimal(n)) && (n > 0 ==> Decimal(n)[0] != '0')
  {
    if n >= 10 {
      DecimalCanonical(n / 10);
    }
  }

  lemma {:induction false} CanonicalPositive(s: string)
    requires Canonical(s)
    ensures ValueOf(s) >= if s[0] == '0' then 0 else 1
  {
    var front := s[..|s| - 1];
    if front == "" {
      assert ValueOf(s) == s[0] as int - '0' as int;
    } else {
      CanonicalPositive(front);
    }
  }

  lemma {:induction false} CanonicalIsDecimal(s: string)
    requires Canonical(s)
    ensures ValueOf(s) >= 0 && s == Decimal(ValueOf(s))
  {
    CanonicalPositive(s);
    var front, digit := s[..|s| - 1], s[|s| - 1] as int - '0' as int;
    assert s == front + [s[|s| - 1]];
    if front == "" {
      assert ValueOf(s) == digit;
    } else {
      CanonicalPositive(front);
      CanonicalIsDecimal(front);
      TenfoldPlus(ValueOf(front), digit);
    }
  }

  lemma TenfoldPlus(n: nat, digit: nat)
    requires digit < 10
    ensures (10 * n + digit) / 10 == n && (10 * n + digit) % 10 == digit
  {
  }

  /** The key of position `n` is the one numeral without a leading zero whose value is `n`. */
  lemma DecimalExact(n: nat, s: string)
    ensures s == Decimal(n) <==> Canonical(s) && ValueOf(s) == n
  {
    DecimalCanonical(n);
    DecimalValue(n);
    if Canonical(s) { CanonicalIsDecimal(s); }
  }

  /** Different positions have different keys. */
  lemma DecimalInjective(m: nat, n: nat)
    ensures Decimal(m) == Decimal(n) ==> m == n
  {
    DecimalExact(m, Decimal(m));
    DecimalExact(n, Decimal(n));
  }
}
