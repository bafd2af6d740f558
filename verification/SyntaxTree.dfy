/** Parse trees with positions, and the names they define, bind and refer to. */
module SyntaxTree {
  import opened Strings
  import opened Protocol
  import opened SymbolGraph

  /** A node covers the text from `start` up to `end`; `field` is its role in its parent, if any. */
  datatype Node = Node(kind: string, field: string, named: bool, start: nat, end: nat, children: seq<Node>)

  /** What the context engine knows about a language. */
  datatype Language = Language(defKinds: set<string>, elision: string, symbolKinds: set<string>, keepsDocstring: bool,
                               refKinds: set<string>, binderKinds: set<string>)

  /** Children lie inside their parent, in order and without overlap. */
  predicate WellFormed(n: Node) {
    n.start <= n.end && InOrder(n.children, n.start, n.end)
  }

  predicate InOrder(nodes: seq<Node>, from: nat, to: nat) {
    if nodes == [] then from <= to
    else from <= nodes[0].start && WellFormed(nodes[0]) && InOrder(nodes[1..], nodes[0].end, to)
  }

  // ----- building trees -----

  function Part(kind: string, field: string, start: nat, end: nat, children: seq<Node>): Node {
    Node(kind, field, true, start, end, children)
  }

  lemma Leafs(kind: string, field: string, start: nat, end: nat)
    requires start <= end
    ensures WellFormed(Part(kind, field, start, end, []))
  {
  }

  lemma OneChild(kind: string, field: string, start: nat, end: nat, c: Node)
    requires WellFormed(c) && start <= c.start && c.end <= end && start <= end
    ensures WellFormed(Part(kind, field, start, end, [c]))
  {
    hide WellFormed;
    assert [c][1..] == [] && InOrder([c][1..], c.end, end);
    assert InOrder([c], start, end);
    ByOrder(Part(kind, field, start, end, [c]));
  }

  lemma TwoChildren(kind: string, field: string, start: nat, end: nat, c: Node, d: Node)
    requires WellFormed(c) && WellFormed(d) && start <= c.start && c.end <= d.start && d.end <= end && start <= end
    ensures WellFormed(Part(kind, field, start, end, [c, d]))
  {
    hide WellFormed;
    assert [c, d][1..] == [d] && [d][1..] == [] && InOrder([d][1..], d.end, end);
    assert InOrder([d], c.end, end);
    assert InOrder([c, d], start, end);
    ByOrder(Part(kind, field, start, end, [c, d]));
  }

  lemma ThreeChildren(kind: string, field: string, start: nat, end: nat, c: Node, d: Node, e: Node)
    requires WellFormed(c) && WellFormed(d) && WellFormed(e)
    requires start <= c.start && c.end <= d.start && d.end <= e.start && e.end <= end && start <= end
    ensures WellFormed(Part(kind, field, start, end, [c, d, e]))
  {
    hide WellFormed;
    assert [c, d, e][1..] == [d, e] && [d, e][1..] == [e] && [e][1..] == [] && InOrder([e][1..], e.end, end);
    assert InOrder([e], d.end, end);
    assert InOrder([d, e], c.end, end);
    assert InOrder([c, d, e], start, end);
    ByOrder(Part(kind, field, start, end, [c, d, e]));
  }

  lemma ByOrder(n: Node)
    requires n.start <= n.end && InOrder(n.children, n.start, n.end)
    ensures WellFormed(n)
  {
  }

  // ----- the nodes of a tree -----

  /** A node and all its descendants, parents first. */
  function Nodes(n: Node): seq<Node> {
    [n] + NodesOf(n.children)
  }

  function NodesOf(nodes: seq<Node>): seq<Node> {
    if nodes == [] then [] else Nodes(nodes[0]) + NodesOf(nodes[1..])
  }

  lemma {:induction false} NodesOfAppend(a: seq<Node>, b: seq<Node>)
    ensures NodesOf(a + b) == NodesOf(a) + NodesOf(b)
  {
    hide Nodes;
    if a == [] {
      assert a + b == b;
    } else {
      NodesOfAppend(a[1..], b);
      Regroup(Nodes(a[0]), NodesOf(a[1..]), NodesOf(b));
      assert (a + b)[1..] == a[1..] + b;
    }
  }

  lemma NodesOfNext(nodes: seq<Node>, i: nat)
    requires i < |nodes|
    ensures NodesOf(nodes[..i + 1]) == NodesOf(nodes[..i]) + Nodes(nodes[i])
  {
    assert nodes[..i + 1] == nodes[..i] + [nodes[i]];
    NodesOfAppend(nodes[..i], [nodes[i]]);
    assert NodesOf([nodes[i]]) == Nodes(nodes[i]) + NodesOf([]);
  }

  /** The first child in the given role. */
  function FieldIndex(nodes: seq<Node>, field: string): (i: nat)
    ensures i <= |nodes|
    ensures i < |nodes| ==> nodes[i].field == field
    ensures forall j | 0 <= j < i :: nodes[j].field != field
  {
    if nodes == [] || nodes[0].field == field then 0 else 1 + FieldIndex(nodes[1..], field)
  }

  function ChildByField(n: Node, field: string): (c: Option<Node>)
    ensures c.Some? ==> c.value in n.children
  {
    var i := FieldIndex(n.children, field);
    if i < |n.children| then Some(n.children[i]) else None
  }

  /** The text of a node; positions outside the source, which a parser never produces, give none. */
  function Text(source: string, n: Node): string {
    if n.start <= n.end <= |source| then source[n.start..n.end] else ""
  }

  // ----- references -----

  predicate IsIdentifier(lang: Language, source: string, n: Node, name: string) {
    n.kind in lang.refKinds && Text(source, n) == name
  }

  /** The names written by identifiers among the nodes. */
  function Identifiers(lang: Language, source: string, nodes: seq<Node>): set<string> {
    set n | n in nodes && n.kind in lang.refKinds :: Text(source, n)
  }

  lemma IdentifiersAppend(lang: Language, source: string, a: seq<Node>, b: seq<Node>)
    ensures Identifiers(lang, source, a + b) == Identifiers(lang, source, a) + Identifiers(lang, source, b)
  {
  }

  /** Where a binder introduces its names: its pattern, else its name, else all its children. */
  function BindingPositions(n: Node): seq<Node> {
    match ChildByField(n, "pattern")
    case Some(p) => [p]
    case None => match ChildByField(n, "name") case Some(m) => [m] case None => n.children
  }

  function BoundBy(lang: Language, source: string, n: Node): set<string> {
    if n.kind in lang.binderKinds then Identifiers(lang, source, NodesOf(BindingPositions(n))) else {}
  }

  /** The names bound by some binder among the nodes. */
  function Bound(lang: Language, source: string, nodes: seq<Node>): set<string> {
    set n, x | n in nodes && x in BoundBy(lang, source, n) :: x
  }

  lemma BoundAppend(lang: Language, source: string, a: seq<Node>, b: seq<Node>)
    ensures Bound(lang, source, a + b) == Bound(lang, source, a) + Bound(lang, source, b)
  {
  }

  method CollectIdents(lang: Language, source: string, n: Node, out0: set<string>) returns (out: set<string>)
    ensures out == out0 + Identifiers(lang, source, Nodes(n))
    decreases n
  {
    hide Identifiers, Text;
    out := out0;
    if n.kind in lang.refKinds {
      out := out + {Text(source, n)};
    }
    OneIdentifier(lang, source, n);
    assert [n] + NodesOf(n.children[..0]) == [n];
    for i := 0 to |n.children|
      invariant out == out0 + Identifiers(lang, source, [n] + NodesOf(n.children[..i]))
    {
      NodesOfNext(n.children, i);
      assert [n] + NodesOf(n.children[..i + 1]) == ([n] + NodesOf(n.children[..i])) + Nodes(n.children[i]);
      IdentifiersAppend(lang, source, [n] + NodesOf(n.children[..i]), Nodes(n.children[i]));
      out := CollectIdents(lang, source, n.children[i], out);
    }
    assert n.children[..|n.children|] == n.children;
  }

  lemma OneIdentifier(lang: Language, source: string, n: Node)
    ensures Identifiers(lang, source, [n]) == if n.kind in lang.refKinds then {Text(source, n)} else {}
  {
  }

  /** The names bound locally below a node. */
  method CollectBound(lang: Language, source: string, n: Node, out0: set<string>) returns (out: set<string>)
    ensures out == out0 + Bound(lang, source, Nodes(n))
    decreases n
  {
    hide Identifiers, Text, Bound;
    out := out0;
    if n.kind in lang.binderKinds {
      out := CollectBinder(lang, source, n, out);
    }
    OneBinder(lang, source, n);
    assert [n] + NodesOf(n.children[..0]) == [n];
    for i := 0 to |n.children|
      invariant out == out0 + Bound(lang, source, [n] + NodesOf(n.children[..i]))
    {
      NodesOfNext(n.children, i);
      assert [n] + NodesOf(n.children[..i + 1]) == ([n] + NodesOf(n.children[..i])) + Nodes(n.children[i]);
      BoundAppend(lang, source, [n] + NodesOf(n.children[..i]), Nodes(n.children[i]));
      out := CollectBound(lang, source, n.children[i], out);
    }
    assert n.children[..|n.children|] == n.children;
  }

  lemma OneBinder(lang: Language, source: string, n: Node)
    ensures Bound(lang, source, [n]) == BoundBy(lang, source, n)
  {
    assert n in [n];
  }

  method CollectBinder(lang: Language, source: string, n: Node, out0: set<string>) returns (out: set<string>)
    ensures out == out0 + Identifiers(lang, source, NodesOf(BindingPositions(n)))
  {
    hide Identifiers, Text;
    out := out0;
    var pattern := ChildByField(n, "pattern");
    var target := if pattern.Some? then pattern else ChildByField(n, "name");
    if target.Some? {
      NodesOfNext([target.value], 0);
      assert [target.value][..1] == [target.value] && [] + Nodes(target.value) == Nodes(target.value);
      out := CollectIdents(lang, source, target.value, out);
    } else {
      NoIdentifiers(lang, source);
      for i := 0 to |n.children|
        invariant out == out0 + Identifiers(lang, source, NodesOf(n.children[..i]))
      {
        NodesOfNext(n.children, i);
        IdentifiersAppend(lang, source, NodesOf(n.children[..i]), Nodes(n.children[i]));
        out := CollectIdents(lang, source, n.children[i], out);
      }
      assert n.children[..|n.children|] == n.children;
    }
  }

  lemma NoIdentifiers(lang: Language, source: string)
    ensures Identifiers(lang, source, []) == {}
  {
  }

  /** The identifiers below a node that are not bound. */
  method CollectRefs(lang: Language, source: string, n: Node, bound: set<string>, out0: set<string>) returns (out: set<string>)
    ensures out == out0 + (Identifiers(lang, source, Nodes(n)) - bound)
    decreases n
  {
    hide Identifiers, Text;
    out := out0;
    if n.kind in lang.refKinds {
      var t := Text(source, n);
      if t !in bound {
        out := out + {t};
      }
    }
    OneIdentifier(lang, source, n);
    assert [n] + NodesOf(n.children[..0]) == [n];
    for i := 0 to |n.children|
      invariant out == out0 + (Identifiers(lang, source, [n] + NodesOf(n.children[..i])) - bound)
    {
      NodesOfNext(n.children, i);
      assert [n] + NodesOf(n.children[..i + 1]) == ([n] + NodesOf(n.children[..i])) + Nodes(n.children[i]);
      IdentifiersAppend(lang, source, [n] + NodesOf(n.children[..i]), Nodes(n.children[i]));
      out := CollectRefs(lang, source, n.children[i], bound, out);
    }
    assert n.children[..|n.children|] == n.children;
  }

  // ----- definitions -----

  /** The name that a symbol node defines. */
  function SymbolName(lang: Language, source: string, n: Node): Option<string> {
    if n.kind !in lang.symbolKinds then None
    else match ChildByField(n, "name") case Some(m) => Some(Text(source, m)) case None => None
  }

  /** Identifiers below the node, minus its locals and itself. */
  function DefinitionOf(lang: Language, source: string, n: Node, name: string): Definition {
    Definition(name, Identifiers(lang, source, Nodes(n)) - Bound(lang, source, Nodes(n)) - {name})
  }

  function DefinitionsAmong(lang: Language, source: string, nodes: seq<Node>): seq<Definition> {
    if nodes == [] then []
    else
      var rest := DefinitionsAmong(lang, source, nodes[1..]);
      match SymbolName(lang, source, nodes[0])
      case Some(name) => [DefinitionOf(lang, source, nodes[0], name)] + rest
      case None => rest
  }

  lemma {:induction false} DefinitionsAppend(lang: Language, source: string, a: seq<Node>, b: seq<Node>)
    ensures DefinitionsAmong(lang, source, a + b) == DefinitionsAmong(lang, source, a) + DefinitionsAmong(lang, source, b)
  {
    hide DefinitionOf, SymbolName;
    if a == [] {
      assert a + b == b;
    } else {
      DefinitionsAppend(lang, source, a[1..], b);
      assert (a + b)[1..] == a[1..] + b;
    }
  }

  /** Every symbol below a node with the names it refers to. */
  method WalkSymbols(lang: Language, source: string, n: Node, out0: seq<Definition>) returns (out: seq<Definition>)
    ensures out == out0 + DefinitionsAmong(lang, source, Nodes(n))
    decreases n
  {
    hide Identifiers, Text, Bound, DefinitionsAmong;
    out := out0;
    if n.kind in lang.symbolKinds {
      var name := ChildByField(n, "name");
      if name.Some? {
        var bound := CollectBound(lang, source, n, {});
        var refs := CollectRefs(lang, source, n, bound, {});
        var own := Text(source, name.value);
        assert {} + Bound(lang, source, Nodes(n)) == Bound(lang, source, Nodes(n));
        assert {} + (Identifiers(lang, source, Nodes(n)) - bound) == Identifiers(lang, source, Nodes(n)) - bound;
        out := out + [Definition(own, refs - {own})];
      }
    }
    OneDefinition(lang, source, n);
    assert [n] + NodesOf(n.children[..0]) == [n];
    for i := 0 to |n.children|
      invariant out == out0 + DefinitionsAmong(lang, source, [n] + NodesOf(n.children[..i]))
    {
      NodesOfNext(n.children, i);
      assert [n] + NodesOf(n.children[..i + 1]) == ([n] + NodesOf(n.children[..i])) + Nodes(n.children[i]);
      DefinitionsAppend(lang, source, [n] + NodesOf(n.children[..i]), Nodes(n.children[i]));
      out := WalkSymbols(lang, source, n.children[i], out);
    }
    assert n.children[..|n.children|] == n.children;
  }

  lemma OneDefinition(lang: Language, source: string, n: Node)
    ensures DefinitionsAmong(lang, source, [n]) ==
            match SymbolName(lang, source, n) case Some(name) => [DefinitionOf(lang, source, n, name)] case None => []
  {
    hide DefinitionOf, SymbolName;
    assert [n][1..] == [] && DefinitionsAmong(lang, source, []) == [];
  }

  /** The graph of a single source file. */
  function FileOf(lang: Language, source: string, root: Node): FileInfo {
    FileInfo({}, {}, DefinitionsAmong(lang, source, Nodes(root)))
  }

  method FromSource(lang: Language, source: string, root: Node) returns (g: Graph)
    ensures g == Linked([FileOf(lang, source, root)])
  {
    hide DefinitionsAmong, Linked;
    var defs := WalkSymbols(lang, source, root, []);
    assert [] + DefinitionsAmong(lang, source, Nodes(root)) == DefinitionsAmong(lang, source, Nodes(root));
    g := Link([FileInfo({}, {}, defs)]);
  }

  // ----- what an edge of a single file means -----

  /** A symbol node called `name`. */
  ghost predicate Declares(lang: Language, source: string, root: Node, n: Node, name: string) {
    n in Nodes(root) && SymbolName(lang, source, n) == Some(name)
  }

  /** The node mentions `target` in an identifier and binds no local of that name. */
  ghost predicate Uses(lang: Language, source: string, n: Node, target: string) {
    && (exists i | i in Nodes(n) :: IsIdentifier(lang, source, i, target))
    && forall b | b in Nodes(n) :: target !in BoundBy(lang, source, b)
  }

  /** The node is a symbol, and `d` is its definition. */
  predicate Yields(lang: Language, source: string, n: Node, d: Definition) {
    match SymbolName(lang, source, n) case Some(name) => d == DefinitionOf(lang, source, n, name) case None => false
  }

  lemma {:induction false} DefinitionsComeFromNodes(lang: Language, source: string, nodes: seq<Node>, d: Definition)
    ensures d in DefinitionsAmong(lang, source, nodes) <==>
            exists n | n in nodes :: Yields(lang, source, n, d)
  {
    hide DefinitionOf, SymbolName;
    if nodes != [] {
      DefinitionsComeFromNodes(lang, source, nodes[1..], d);
      assert nodes == [nodes[0]] + nodes[1..] && nodes[0] in nodes;
      assert forall n | n in nodes :: n == nodes[0] || n in nodes[1..];
      assert Yields(lang, source, nodes[0], d) ==> exists n | n in nodes :: Yields(lang, source, n, d);
    }
  }

  lemma IsDefinedByNode(lang: Language, source: string, root: Node, name: string)
    ensures Defines(FileOf(lang, source, root), name) <==> exists n :: Declares(lang, source, root, n, name)
  {
    hide SymbolName, DefinitionsAmong;
    var defs := FileOf(lang, source, root).defs;
    forall n | Declares(lang, source, root, n, name)
      ensures Defines(FileOf(lang, source, root), name)
    {
      var d := DefinitionOf(lang, source, n, name);
      assert Yields(lang, source, n, d);
      DefinitionsComeFromNodes(lang, source, Nodes(root), d);
      assert d in defs;
    }
    if Defines(FileOf(lang, source, root), name) {
      var i :| 0 <= i < |defs| && defs[i].name == name;
      DefinitionsComeFromNodes(lang, source, Nodes(root), defs[i]);
      var n :| n in Nodes(root) && Yields(lang, source, n, defs[i]);
      assert Declares(lang, source, root, n, name);
    }
  }

  lemma UsesAreReferences(lang: Language, source: string, n: Node, name: string, target: string)
    ensures target in DefinitionOf(lang, source, n, name).refs <==> target != name && Uses(lang, source, n, target)
  {
    hide BoundBy, Text;
    if exists i | i in Nodes(n) :: IsIdentifier(lang, source, i, target) {
      var i :| i in Nodes(n) && IsIdentifier(lang, source, i, target);
      assert target in Identifiers(lang, source, Nodes(n));
    }
    if target in Bound(lang, source, Nodes(n)) {
      var b :| b in Nodes(n) && target in BoundBy(lang, source, b);
      assert !Uses(lang, source, n, target);
    }
  }

  lemma IsMentionedByNode(lang: Language, source: string, root: Node, name: string, target: string)
    ensures var f := FileOf(lang, source, root);
            Mentions(f, name, target, |f.defs|) <==>
            target != name && exists n :: Declares(lang, source, root, n, name) && Uses(lang, source, n, target)
  {
    hide SymbolName, DefinitionsAmong, Uses, DefinitionOf;
    var f := FileOf(lang, source, root);
    forall n | Declares(lang, source, root, n, name) && Uses(lang, source, n, target) && target != name
      ensures Mentions(f, name, target, |f.defs|)
    {
      var d := DefinitionOf(lang, source, n, name);
      assert Yields(lang, source, n, d);
      DefinitionsComeFromNodes(lang, source, Nodes(root), d);
      UsesAreReferences(lang, source, n, name, target);
      assert d in f.defs && d.name == name by { NamedSo(lang, source, n, name); }
    }
    if Mentions(f, name, target, |f.defs|) {
      var i :| 0 <= i < |f.defs| && f.defs[i].name == name && target in f.defs[i].refs;
      DefinitionsComeFromNodes(lang, source, Nodes(root), f.defs[i]);
      var n :| n in Nodes(root) && Yields(lang, source, n, f.defs[i]);
      NamedSo(lang, source, n, SymbolName(lang, source, n).value);
      UsesAreReferences(lang, source, n, name, target);
      assert Declares(lang, source, root, n, name);
    }
  }

  lemma NamedSo(lang: Language, source: string, n: Node, name: string)
    ensures DefinitionOf(lang, source, n, name).name == name
  {
  }

  /** In a single file there is an edge exactly from a symbol to each other symbol that an identifier
      below it names and that nothing below it binds: mentions in strings or comments and shadowed
      names make none. */
  lemma EdgesOfOneFile(lang: Language, source: string, root: Node, name: string, target: string)
    ensures var edges := Linked([FileOf(lang, source, root)]).edges;
            Symbol(0, name) in edges && Symbol(0, target) in edges[Symbol(0, name)] <==>
            && target != name && (exists m :: Declares(lang, source, root, m, target))
            && exists n :: Declares(lang, source, root, n, name) && Uses(lang, source, n, target)
  {
    hide Declares, Uses, Defines, Edges, Mentions, FileOf;
    var files := [FileOf(lang, source, root)];
    var s, t := Symbol(0, name), Symbol(0, target);
    IsDefinedByNode(lang, source, root, name);
    IsDefinedByNode(lang, source, root, target);
    IsMentionedByNode(lang, source, root, name, target);
    if Defines(files[0], name) {
      EdgeMeans(files, s, t);
    } else if s in Edges(files) {
      EdgeSources(files, s);
    }
  }
}
