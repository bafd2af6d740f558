/** Which edges a graph has, told from the files and from the tree alone. */
module LinkedExactly {
  import opened Protocol
  import opened SymbolGraph
  import opened SyntaxTree
  import Skeleton

  // ----- across files -----

  predicate Has(files: seq<FileInfo>, s: Symbol) {
    s.file < |files| && exists i | 0 <= i < |files[s.file].defs| :: files[s.file].defs[i].name == s.name
  }

  /** A definition called `name` in the file refers to `target`. */
  predicate RefersTo(info: FileInfo, name: string, target: string) {
    exists i | 0 <= i < |info.defs| :: info.defs[i].name == name && target in info.defs[i].refs
  }

  /** No other definer of the name has more words of its path among the imports. */
  predicate IsBestEvidenced(files: seq<FileInfo>, from: nat, t: Symbol)
    requires from < |files| && t.file < |files|
  {
    forall f | 0 <= f < |files| && Has(files, Symbol(f, t.name)) ::
      |files[from].imports * files[f].pathTokens| <= |files[from].imports * files[t.file].pathTokens|
  }

  /** There is an edge exactly from a symbol to each other name it refers to: in its own file if that defines
      the name, and otherwise in every definer of which the imports say most. */
  lemma EdgesExactly(files: seq<FileInfo>, s: Symbol, t: Symbol)
    ensures var edges := Linked(files).edges;
            s in edges && t in edges[s] <==>
            && Has(files, s) && Has(files, t) && s.name != t.name && RefersTo(files[s.file], s.name, t.name)
            && (if Has(files, Symbol(s.file, t.name)) then s.file == t.file else IsBestEvidenced(files, s.file, t))
  {
    hide Symbols, Edges, Defines, InBestTier, IsBestEvidenced, RefersTo, Mentions, Score;
    forall x: Symbol
      ensures Has(files, x) <==> IsDefiner(files, x.file, x.name)
    {
      HasIsDefiner(files, x);
    }
    if s in Edges(files) {
      EdgeSources(files, s);
    }
    if Has(files, s) {
      EdgeMeans(files, s, t);
      RefersIsMentions(files[s.file], s.name, t.name);
      assert Has(files, Symbol(s.file, t.name)) <==> Defines(files[s.file], t.name);
      if Has(files, t) {
        BestIsTop(files, s.file, t);
      }
    }
  }

  lemma HasIsDefiner(files: seq<FileInfo>, x: Symbol)
    ensures Has(files, x) <==> IsDefiner(files, x.file, x.name)
  {
  }

  lemma RefersIsMentions(info: FileInfo, name: string, target: string)
    ensures Mentions(info, name, target, |info.defs|) <==> target != name && RefersTo(info, name, target)
  {
  }

  lemma BestIsTop(files: seq<FileInfo>, from: nat, t: Symbol)
    requires from < |files| && Has(files, t)
    ensures IsBestEvidenced(files, from, t) <==> InBestTier(files, from, t)
  {
    hide Defines, Has;
    forall x: Symbol
      ensures Has(files, x) <==> IsDefiner(files, x.file, x.name)
    {
      HasIsDefiner(files, x);
    }
    if InBestTier(files, from, t) {
      forall f | 0 <= f < |files| && Has(files, Symbol(f, t.name))
        ensures |files[from].imports * files[f].pathTokens| <= |files[from].imports * files[t.file].pathTokens|
      {
        assert IsDefiner(files, f, t.name);
        assert Score(files[from], files[f]) <= Score(files[from], files[t.file]);
      }
    }
    if IsBestEvidenced(files, from, t) {
      forall f | 0 <= f < |files| && IsDefiner(files, f, t.name)
        ensures Score(files[from], files[f]) <= Score(files[from], files[t.file])
      {
        assert Has(files, Symbol(f, t.name));
      }
    }
  }

  // ----- within a tree -----

  predicate Lacks(n: Node, role: string) {
    forall i | 0 <= i < |n.children| :: n.children[i].field != role
  }

  /** The first child in the role. */
  predicate InRole(n: Node, role: string, c: Node) {
    exists i | 0 <= i < |n.children| ::
      n.children[i] == c && c.field == role && forall j | 0 <= j < i :: n.children[j].field != role
  }

  /** Where a binder introduces names: its pattern, or without one its name, or without either anywhere. */
  predicate Introduces(n: Node, c: Node) {
    if Lacks(n, "pattern") then (if Lacks(n, "name") then c in n.children else InRole(n, "name", c))
    else InRole(n, "pattern", c)
  }

  predicate Spells(lang: Language, source: string, m: Node, name: string) {
    m.kind in lang.refKinds && SyntaxTree.Text(source, m) == name
  }

  ghost predicate Binds(lang: Language, source: string, n: Node, name: string) {
    n.kind in lang.binderKinds
    && exists c, m | c in n.children && m in Nodes(c) :: Introduces(n, c) && Spells(lang, source, m, name)
  }

  ghost predicate IsCalled(lang: Language, source: string, n: Node, name: string) {
    n.kind in lang.symbolKinds && exists c | c in n.children :: InRole(n, "name", c) && SyntaxTree.Text(source, c) == name
  }

  lemma RoleExactly(n: Node, role: string)
    ensures ChildByField(n, role) == None <==> Lacks(n, role)
    ensures forall c :: ChildByField(n, role) == Some(c) <==> InRole(n, role, c)
  {
  }

  lemma CalledExactly(lang: Language, source: string, n: Node, name: string)
    ensures SymbolName(lang, source, n) == Some(name) <==> IsCalled(lang, source, n, name)
  {
    hide ChildByField, InRole, Lacks, SyntaxTree.Text;
    RoleExactly(n, "name");
  }

  lemma NodeOfSome(nodes: seq<Node>, m: Node)
    ensures m in NodesOf(nodes) <==> exists c | c in nodes :: m in Nodes(c)
  {
    hide Nodes;
    Skeleton.NodeOfChild(nodes, m);
    forall c | c in nodes && m in Nodes(c)
      ensures m in NodesOf(nodes)
    {
      var k :| 0 <= k < |nodes| && nodes[k] == c;
    }
  }

  lemma BoundExactly(lang: Language, source: string, n: Node, name: string)
    ensures name in BoundBy(lang, source, n) <==> Binds(lang, source, n, name)
  {
    hide ChildByField, InRole, Lacks, SyntaxTree.Text, Nodes, NodesOf, BindingPositions, Introduces;
    RoleExactly(n, "pattern");
    RoleExactly(n, "name");
    var at := BindingPositions(n);
    assert forall c :: c in at <==> c in n.children && Introduces(n, c) by { PositionsExactly(n); }
    forall m
      ensures m in NodesOf(at) <==> exists c | c in at :: m in Nodes(c)
    {
      NodeOfSome(at, m);
    }
    if Binds(lang, source, n, name) {
      var c, m :| c in n.children && m in Nodes(c) && Introduces(n, c) && Spells(lang, source, m, name);
      assert m in NodesOf(at) && name in Identifiers(lang, source, NodesOf(at));
    }
    if name in BoundBy(lang, source, n) {
      var m :| m in NodesOf(at) && m.kind in lang.refKinds && SyntaxTree.Text(source, m) == name;
      var c :| c in at && m in Nodes(c);
      assert Introduces(n, c) && Spells(lang, source, m, name);
    }
  }

  lemma PositionsExactly(n: Node)
    ensures forall c :: c in BindingPositions(n) <==> c in n.children && Introduces(n, c)
  {
    hide ChildByField, InRole, Lacks;
    RoleExactly(n, "pattern");
    RoleExactly(n, "name");
    InRoleIsChild(n);
  }

  lemma InRoleIsChild(n: Node)
    ensures forall role, c :: InRole(n, role, c) ==> c in n.children
  {
  }

  /** An identifier below the node spells `target`, and nothing below it binds that. */
  ghost predicate Mentioned(lang: Language, source: string, n: Node, target: string) {
    && (exists m | m in Nodes(n) :: Spells(lang, source, m, target))
    && forall b | b in Nodes(n) :: !Binds(lang, source, b, target)
  }

  /** In a single file there is an edge exactly from a symbol to each other symbol that an identifier below
      it spells and that no pattern, name or child of a binder below it introduces. */
  lemma TreeEdgesExactly(lang: Language, source: string, root: Node, name: string, target: string)
    ensures var edges := Linked([FileOf(lang, source, root)]).edges;
            Symbol(0, name) in edges && Symbol(0, target) in edges[Symbol(0, name)] <==>
            && target != name && (exists m | m in Nodes(root) :: IsCalled(lang, source, m, target))
            && exists n | n in Nodes(root) :: IsCalled(lang, source, n, name) && Mentioned(lang, source, n, target)
  {
    hide Edges, Mentioned, Uses, IsCalled, SymbolName, Linked, FileOf, Nodes;
    EdgesOfOneFile(lang, source, root, name, target);
    forall n
      ensures Declares(lang, source, root, n, name) <==> n in Nodes(root) && IsCalled(lang, source, n, name)
      ensures Declares(lang, source, root, n, target) <==> n in Nodes(root) && IsCalled(lang, source, n, target)
      ensures Uses(lang, source, n, target) <==> Mentioned(lang, source, n, target)
    {
      CalledExactly(lang, source, n, name);
      CalledExactly(lang, source, n, target);
      UsesExactly(lang, source, n, target);
    }
  }

  lemma UsesExactly(lang: Language, source: string, n: Node, target: string)
    ensures Uses(lang, source, n, target) <==> Mentioned(lang, source, n, target)
  {
    hide Nodes, BoundBy, Binds, SyntaxTree.Text;
    forall b
      ensures target in BoundBy(lang, source, b) <==> Binds(lang, source, b, target)
    {
      BoundExactly(lang, source, b, target);
    }
    if Uses(lang, source, n, target) {
      var i :| i in Nodes(n) && IsIdentifier(lang, source, i, target);
      assert Spells(lang, source, i, target);
    }
    if Mentioned(lang, source, n, target) {
      var m :| m in Nodes(n) && Spells(lang, source, m, target);
      assert IsIdentifier(lang, source, m, target);
    }
  }
}
