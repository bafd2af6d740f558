/** A JavaScript file of which a larger radius shows less: `g` is defined in a default argument of `f`.
    Its tree leaves out punctuation and keywords. */
module RadiusWitness {
  import Strings
  import opened Protocol
  import opened SymbolGraph
  import opened SyntaxTree
  import opened Reach
  import opened Skeleton
  import opened Shown
  import opened Nesting

  function JavaScript(): Language {
    Language({"function_declaration", "method_definition", "function_expression"}, "{ … }",
             {"function_declaration", "method_definition", "class_declaration"}, false,
             {"identifier"}, {"formal_parameters", "variable_declarator"})
  }

  function Source(): string {
    "function t(){f()}function f(a=function g(){1}){}"
  }

  // ----- its tree -----

  function Identifier(field: string, start: nat, end: nat): Node {
    Part("identifier", field, start, end, [])
  }

  function Caller(): Node {
    Part("function_declaration", "", 0, 17, [Identifier("name", 9, 10), NoParameters(10), CallerBody()])
  }

  function NoParameters(start: nat): Node {
    Part("formal_parameters", "parameters", start, start + 2, [])
  }

  function CallerBody(): Node {
    Part("statement_block", "body", 12, 17, [CallStatement()])
  }

  function CallStatement(): Node {
    Part("expression_statement", "", 13, 16, [CallOfF()])
  }

  function CallOfF(): Node {
    Part("call_expression", "", 13, 16, [Identifier("function", 13, 14), Part("arguments", "arguments", 14, 16, [])])
  }

  function Inner(): Node {
    Part("function_expression", "right", 30, 45, [Identifier("name", 39, 40), NoParameters(40), InnerBody()])
  }

  function InnerBody(): Node {
    Part("statement_block", "body", 42, 45, [Part("expression_statement", "", 43, 44, [Part("number", "", 43, 44, [])])])
  }

  function Default(): Node {
    Part("assignment_pattern", "", 28, 45, [Identifier("left", 28, 29), Inner()])
  }

  function Parameters(): Node {
    Part("formal_parameters", "parameters", 27, 46, [Default()])
  }

  function Outer(): Node {
    Part("function_declaration", "", 17, 48, [Identifier("name", 26, 27), Parameters(), Part("statement_block", "body", 46, 48, [])])
  }

  function Program(): Node {
    Part("program", "", 0, 48, [Caller(), Outer()])
  }

  lemma CallerWellFormed()
    ensures WellFormed(Caller())
  {
    hide WellFormed;
    Leafs("identifier", "name", 9, 10);
    Leafs("formal_parameters", "parameters", 10, 12);
    Leafs("identifier", "function", 13, 14);
    Leafs("arguments", "arguments", 14, 16);
    TwoChildren("call_expression", "", 13, 16, Identifier("function", 13, 14), Part("arguments", "arguments", 14, 16, []));
    OneChild("expression_statement", "", 13, 16, CallOfF());
    OneChild("statement_block", "body", 12, 17, CallStatement());
    ThreeChildren("function_declaration", "", 0, 17, Identifier("name", 9, 10), NoParameters(10), CallerBody());
  }

  lemma InnerWellFormed()
    ensures WellFormed(Inner())
  {
    hide WellFormed;
    Leafs("identifier", "name", 39, 40);
    Leafs("formal_parameters", "parameters", 40, 42);
    Leafs("number", "", 43, 44);
    OneChild("expression_statement", "", 43, 44, Part("number", "", 43, 44, []));
    OneChild("statement_block", "body", 42, 45, Part("expression_statement", "", 43, 44, [Part("number", "", 43, 44, [])]));
    ThreeChildren("function_expression", "right", 30, 45, Identifier("name", 39, 40), NoParameters(40), InnerBody());
  }

  lemma ProgramWellFormed()
    ensures WellFormed(Program())
  {
    hide WellFormed;
    CallerWellFormed();
    InnerWellFormed();
    Leafs("identifier", "left", 28, 29);
    TwoChildren("assignment_pattern", "", 28, 45, Identifier("left", 28, 29), Inner());
    OneChild("formal_parameters", "parameters", 27, 46, Default());
    Leafs("identifier", "name", 26, 27);
    Leafs("statement_block", "body", 46, 48);
    ThreeChildren("function_declaration", "", 17, 48, Identifier("name", 26, 27), Parameters(),
                  Part("statement_block", "body", 46, 48, []));
    TwoChildren("program", "", 0, 48, Caller(), Outer());
  }

  // ----- its nodes -----

  lemma NodesOfOne(n: Node, c: Node)
    requires n.children == [c]
    ensures Nodes(n) == [n] + Nodes(c)
  {
    assert [c][1..] == [] && NodesOf([c][1..]) == [];
  }

  lemma NodesOfTwo(n: Node, c: Node, d: Node)
    requires n.children == [c, d]
    ensures Nodes(n) == [n] + Nodes(c) + Nodes(d)
  {
    hide Nodes;
    assert [c, d][1..] == [d] && [d][1..] == [] && NodesOf([]) == [];
    NodesUnfold(n);
  }

  lemma NodesUnfold(n: Node)
    ensures Nodes(n) == [n] + NodesOf(n.children)
  {
  }

  lemma NodesOfThree(n: Node, c: Node, d: Node, e: Node)
    requires n.children == [c, d, e]
    ensures Nodes(n) == [n] + Nodes(c) + Nodes(d) + Nodes(e)
  {
    hide Nodes;
    assert [c, d, e][1..] == [d, e] && [d, e][1..] == [e] && [e][1..] == [];
    assert NodesOf([e]) == Nodes(e) by { assert Nodes(e) + [] == Nodes(e); }
    assert NodesOf([d, e]) == Nodes(d) + NodesOf([e]);
    assert NodesOf([c, d, e]) == Nodes(c) + NodesOf([d, e]);
    NodesUnfold(n);
    Strings.Regroup(Nodes(c), Nodes(d), Nodes(e));
    Strings.Regroup([n], Nodes(c), Nodes(d) + Nodes(e));
    Strings.Regroup([n] + Nodes(c), Nodes(d), Nodes(e));
  }

  lemma NodesOfLeaf(n: Node)
    requires n.children == []
    ensures Nodes(n) == [n]
  {
  }

  function CallerNodes(): seq<Node> {
    [Caller(), Identifier("name", 9, 10), NoParameters(10), CallerBody(), CallStatement(), CallOfF(),
     Identifier("function", 13, 14), Part("arguments", "arguments", 14, 16, [])]
  }

  function OuterNodes(): seq<Node> {
    [Outer(), Identifier("name", 26, 27), Parameters(), Default(), Identifier("left", 28, 29), Inner(), Identifier("name", 39, 40),
     NoParameters(40), InnerBody(), Part("expression_statement", "", 43, 44, [Part("number", "", 43, 44, [])]),
     Part("number", "", 43, 44, []), Part("statement_block", "body", 46, 48, [])]
  }

  lemma NodesOfCaller()
    ensures Nodes(Caller()) == CallerNodes()
  {
    hide Nodes;
    NodesOfLeaf(Identifier("name", 9, 10));
    NodesOfLeaf(NoParameters(10));
    NodesOfLeaf(Identifier("function", 13, 14));
    NodesOfLeaf(Part("arguments", "arguments", 14, 16, []));
    NodesOfTwo(CallOfF(), Identifier("function", 13, 14), Part("arguments", "arguments", 14, 16, []));
    NodesOfOne(CallStatement(), CallOfF());
    NodesOfOne(CallerBody(), CallStatement());
    NodesOfThree(Caller(), Identifier("name", 9, 10), NoParameters(10), CallerBody());
  }

  lemma NodesOfOuter()
    ensures Nodes(Outer()) == OuterNodes()
  {
    hide Nodes;
    var number := Part("number", "", 43, 44, []);
    var statement := Part("expression_statement", "", 43, 44, [number]);
    NodesOfLeaf(Identifier("name", 26, 27));
    NodesOfLeaf(Identifier("left", 28, 29));
    NodesOfLeaf(Identifier("name", 39, 40));
    NodesOfLeaf(NoParameters(40));
    NodesOfLeaf(number);
    NodesOfLeaf(Part("statement_block", "body", 46, 48, []));
    NodesOfOne(statement, number);
    NodesOfOne(InnerBody(), statement);
    NodesOfThree(Inner(), Identifier("name", 39, 40), NoParameters(40), InnerBody());
    NodesOfTwo(Default(), Identifier("left", 28, 29), Inner());
    NodesOfOne(Parameters(), Default());
    NodesOfThree(Outer(), Identifier("name", 26, 27), Parameters(), Part("statement_block", "body", 46, 48, []));
  }

  lemma NodesOfProgram()
    ensures Nodes(Program()) == [Program()] + CallerNodes() + OuterNodes()
  {
    hide Nodes;
    NodesOfCaller();
    NodesOfOuter();
    NodesOfTwo(Program(), Caller(), Outer());
  }

  // ----- its definitions -----

  lemma Names()
    ensures SyntaxTree.Text(Source(), Identifier("name", 9, 10)) == "t"
    ensures SyntaxTree.Text(Source(), Identifier("function", 13, 14)) == "f"
    ensures SyntaxTree.Text(Source(), Identifier("name", 26, 27)) == "f"
    ensures SyntaxTree.Text(Source(), Identifier("name", 39, 40)) == "g"
    ensures "t" != "f" && "t" != "g" && "f" != "g"
  {
    var s := Source();
    assert |s| == 48 && s[9] == 't' && s[13] == 'f' && s[26] == 'f' && s[39] == 'g';
    assert s[9..10] == [s[9]] && s[13..14] == [s[13]] && s[26..27] == [s[26]] && s[39..40] == [s[39]];
    assert "t"[0] != "f"[0] && "t"[0] != "g"[0] && "f"[0] != "g"[0];
  }

  lemma Fields(nodes: seq<Node>, field: string, k: nat)
    requires k < |nodes| && nodes[k].field == field && forall j | 0 <= j < k :: nodes[j].field != field
    ensures FieldIndex(nodes, field) == k
  {
    var i := FieldIndex(nodes, field);
    assert i < |nodes|;
  }

  lemma NoField(nodes: seq<Node>, field: string)
    requires forall j | 0 <= j < |nodes| :: nodes[j].field != field
    ensures FieldIndex(nodes, field) == |nodes|
  {
  }

  lemma Children()
    ensures ChildByField(Caller(), "name") == Some(Identifier("name", 9, 10)) && Body(Caller()) == Some(CallerBody())
    ensures ChildByField(Outer(), "name") == Some(Identifier("name", 26, 27))
    ensures Body(Outer()) == Some(Part("statement_block", "body", 46, 48, []))
    ensures ChildByField(Inner(), "name") == Some(Identifier("name", 39, 40)) && Body(Inner()) == Some(InnerBody())
  {
    assert "name" != "body" && "parameters" != "body";
    Fields(Caller().children, "name", 0);
    Fields(Caller().children, "body", 2);
    Fields(Outer().children, "name", 0);
    Fields(Outer().children, "body", 2);
    Fields(Inner().children, "name", 0);
    Fields(Inner().children, "body", 2);
  }

  lemma Kinds()
    ensures "function_declaration" in JavaScript().symbolKinds && "function_declaration" in JavaScript().defKinds
    ensures "function_expression" in JavaScript().defKinds
    ensures forall k | k in ["program", "formal_parameters", "assignment_pattern"] :: k !in JavaScript().defKinds
    ensures forall k | k in ["program", "identifier", "formal_parameters", "statement_block", "expression_statement",
                             "call_expression", "arguments", "assignment_pattern", "function_expression", "number"] ::
              k !in JavaScript().symbolKinds
    ensures "identifier" in JavaScript().refKinds
    ensures forall k | k in ["function_declaration", "identifier", "statement_block", "expression_statement",
                           "call_expression", "arguments"] ::
              k !in JavaScript().binderKinds
  {
  }

  /** The only symbols are the two declared functions. */
  lemma SymbolsOfProgram(n: Node)
    requires n in Nodes(Program()) && SymbolName(JavaScript(), Source(), n).Some?
    ensures n == Caller() || n == Outer()
  {
    hide JavaScript, Nodes, Caller, Outer, Program;
    Kinds();
    NodesOfProgram();
    if n in CallerNodes() {
      CallerSymbols(n);
    } else if n in OuterNodes() {
      OuterSymbols(n);
    } else {
      ProgramKind();
    }
  }

  lemma ProgramKind()
    ensures Program().kind == "program"
  {
  }

  lemma CallerSymbols(n: Node)
    requires n in CallerNodes() && n.kind in JavaScript().symbolKinds
    ensures n == Caller()
  {
    hide JavaScript;
    Kinds();
  }

  lemma OuterSymbols(n: Node)
    requires n in OuterNodes() && n.kind in JavaScript().symbolKinds
    ensures n == Outer()
  {
    hide JavaScript;
    Kinds();
  }

  lemma Declared()
    ensures Declares(JavaScript(), Source(), Program(), Caller(), "t")
    ensures Declares(JavaScript(), Source(), Program(), Outer(), "f")
    ensures forall n :: !Declares(JavaScript(), Source(), Program(), n, "g")
  {
    hide Nodes, JavaScript, Program, Source;
    Kinds();
    Names();
    Children();
    NodesOfProgram();
    KindsOfFunctions();
    assert Caller() in CallerNodes() && Outer() in OuterNodes();
    forall n | n in Nodes(Program()) && SymbolName(JavaScript(), Source(), n).Some?
      ensures SymbolName(JavaScript(), Source(), n) != Some("g")
    {
      SymbolsOfProgram(n);
    }
  }

  lemma KindsOfFunctions()
    ensures Caller().kind == "function_declaration" && Outer().kind == "function_declaration" && Inner().kind == "function_expression"
    ensures Parameters().kind == "formal_parameters" && Default().kind == "assignment_pattern"
  {
  }

  /** `t` calls `f` and binds nothing. */
  lemma CallerUsesOuter()
    ensures Uses(JavaScript(), Source(), Caller(), "f")
  {
    hide Nodes, JavaScript, Source;
    Kinds();
    Names();
    NodesOfCaller();
    assert Identifier("function", 13, 14) in CallerNodes();
    assert IsIdentifier(JavaScript(), Source(), Identifier("function", 13, 14), "f");
    forall b | b in CallerNodes()
      ensures "f" !in BoundBy(JavaScript(), Source(), b)
    {
      CallerBindsNothing(b);
    }
  }

  lemma CallerBindsNothing(b: Node)
    requires b in CallerNodes()
    ensures BoundBy(JavaScript(), Source(), b) == {}
  {
    hide JavaScript, Source;
    Kinds();
    if b == NoParameters(10) {
      NothingBound();
    }
  }

  lemma NothingBound()
    ensures BoundBy(JavaScript(), Source(), NoParameters(10)) == {}
  {
    hide JavaScript, Source;
    NoField(NoParameters(10).children, "pattern");
    NoField(NoParameters(10).children, "name");
    assert NodesOf([]) == [];
  }

  // ----- its radii -----

  function G(): Graph {
    GraphOf(JavaScript(), Source(), Program())
  }

  lemma CallLinks()
    ensures Symbol(0, "t") in G().edges && Symbol(0, "f") in G().edges[Symbol(0, "t")]
  {
    hide JavaScript, Source, Program, Caller, Outer, Declares, Uses, FileOf, Edges;
    Declared();
    CallerUsesOuter();
    Names();
    EdgesOfOneFile(JavaScript(), Source(), Program(), "t", "f");
  }

  lemma OneSeed(g: Graph)
    requires g.fileCount == 1 && Symbol(0, "t") in g.edges
    ensures Seeds(g, "t") == {Symbol(0, "t")}
  {
    assert Symbol(0, "t") in SeedsBelow(g, "t", 1);
  }

  lemma Hop(g: Graph, from: set<Symbol>, s: Symbol, t: Symbol)
    requires s in from && s in g.edges && t in g.edges[s]
    ensures t in OneHop(g, from)
  {
    assert t in Successors(g, s);
  }

  lemma KeptAtOne()
    ensures "t" in KeptWithin(JavaScript(), Source(), Program(), "t", 1)
    ensures "f" in KeptWithin(JavaScript(), Source(), Program(), "t", 1)
    ensures "g" !in KeptWithin(JavaScript(), Source(), Program(), "t", 1)
  {
    hide JavaScript, Source, Program, Edges, FileOf, Declares, NarrowedCount, Seeds, Defines;
    CallLinks();
    OneSeed(G());
    Names();
    var seeds := Seeds(G(), "t");
    assert Ball(G(), seeds, 0) == seeds;
    Hop(G(), seeds, Symbol(0, "t"), Symbol(0, "f"));
    assert Symbol(0, "t") in Ball(G(), seeds, 1) && Symbol(0, "f") in Ball(G(), seeds, 1);
    forall s | s in Ball(G(), seeds, 1)
      ensures s.name != "g"
    {
      NotG(s);
    }
  }

  lemma NotG(s: Symbol)
    requires s in Ball(G(), Seeds(G(), "t"), 1)
    ensures s.name != "g"
  {
    hide JavaScript, Source, Program, Edges, FileOf, Declares, NarrowedCount, Ball, Seeds, Defines;
    var files := [FileOf(JavaScript(), Source(), Program())];
    ReachedAreDefined(files, "t", 1, s);
    Names();
    Declared();
    IsDefinedByNode(JavaScript(), Source(), Program(), "g");
  }

  lemma KeptAtZero()
    ensures KeptWithin(JavaScript(), Source(), Program(), "t", 0) == {"t"}
  {
    hide JavaScript, Source, Program, Linked, FileOf, Seeds;
    RadiusZeroIsTheTarget(G(), "t");
  }

  function WayToInner(): seq<Node> {
    [Program(), Outer(), Parameters(), Default(), Inner()]
  }

  lemma InnerWay()
    ensures IsChain(Program(), WayToInner())
  {
    var p := WayToInner();
    assert p[1] in p[0].children && p[2] in p[1].children && p[3] in p[2].children && p[4] in p[3].children;
  }

  lemma ElidedParts()
    ensures InElidedPart(JavaScript(), Inner(), 43) && !InElidedPart(JavaScript(), Outer(), 43)
  {
    Children();
    Kinds();
  }

  lemma WhichAreElided(keep: set<string>)
    ensures IsElided(JavaScript(), Source(), keep, Outer()) <==> "f" !in keep
    ensures IsElided(JavaScript(), Source(), keep, Inner()) <==> "g" !in keep
    ensures !IsElided(JavaScript(), Source(), keep, Program()) && !IsElided(JavaScript(), Source(), keep, Parameters())
    ensures !IsElided(JavaScript(), Source(), keep, Default())
  {
    hide JavaScript, Source, Outer, Inner, Program, Parameters, Default;
    Children();
    Kinds();
    Names();
    KindsOfFunctions();
    ProgramKind();
  }

  /** The body of `g` is shown at radius 0, where `f` is out of reach, and hidden at radius 1. */
  lemma RadiusOneHidesMore()
    ensures WellFormed(Program())
    ensures !Covered(Elisions(JavaScript(), Source(), KeptWithin(JavaScript(), Source(), Program(), "t", 0), Program()), 43)
    ensures Covered(Elisions(JavaScript(), Source(), KeptWithin(JavaScript(), Source(), Program(), "t", 1), Program()), 43)
  {
    hide JavaScript, Source, Program, Outer, Inner, Parameters, Default, Elisions, KeptWithin, WellFormed, Covered, IsElided, InElidedPart;
    var less := KeptWithin(JavaScript(), Source(), Program(), "t", 0);
    var more := KeptWithin(JavaScript(), Source(), Program(), "t", 1);
    ProgramWellFormed();
    KeptAtZero();
    KeptAtOne();
    Names();
    WhichAreElided(less);
    WhichAreElided(more);
    InnerWay();
    ElidedParts();
    var path := WayToInner();
    var p := path[..2];
    assert p == [Program(), Outer()] && p[0] == path[0] && p[1] == path[1];
    assert FirstElided(JavaScript(), Source(), more, Program(), path);
    assert FirstElided(JavaScript(), Source(), less, Program(), p);
    assert LostVia(JavaScript(), Source(), Program(), less, more, 43, path, 1);
    LostExactly(JavaScript(), Source(), Program(), less, more, 43);
  }
}
