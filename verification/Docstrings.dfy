/** Which part of a body gives way, told on the tree alone: all of it, or what follows the string statement
    that opens it in a language that keeps those. */
module Docstrings {
  import Strings
  import opened Protocol
  import opened SymbolGraph
  import opened SyntaxTree
  import opened Reach
  import opened Skeleton
  import opened Shown

  // ----- reading the tree -----

  /** Child `k` is the first in this role. */
  predicate IsChild(n: Node, field: string, k: nat) {
    k < |n.children| && n.children[k].field == field && forall j | 0 <= j < k :: n.children[j].field != field
  }

  /** Child `k` is the first that is not a mere token. */
  predicate IsFirstNamed(n: Node, k: nat) {
    k < |n.children| && n.children[k].named && forall j | 0 <= j < k :: !n.children[j].named
  }

  /** The body opens with a statement, child `k`, that opens with a string. */
  ghost predicate OpensWithString(body: Node, k: nat) {
    && IsFirstNamed(body, k) && body.children[k].kind == "expression_statement"
    && exists l: nat :: IsFirstNamed(body.children[k], l) && body.children[k].children[l].kind == "string"
  }

  /** The position is in the body and, in a language that keeps docstrings, behind one that opens it. */
  ghost predicate GivesWay(lang: Language, body: Node, i: nat) {
    && body.start <= i < body.end
    && (lang.keepsDocstring ==> forall k: nat :: OpensWithString(body, k) ==> body.children[k].end <= i)
  }

  /** The definition is called something that is kept. */
  ghost predicate IsCalled(source: string, m: Node, keep: set<string>) {
    exists k: nat :: IsChild(m, "name", k) && SyntaxTree.Text(source, m.children[k]) in keep
  }

  /** A definition with a body, at child `b`. */
  predicate Defines(lang: Language, m: Node, b: nat) {
    m.kind in lang.defKinds && IsChild(m, "body", b)
  }

  // ----- the readings agree -----

  lemma {:induction false} FirstNamedIs(nodes: seq<Node>) returns (k: nat)
    ensures FirstNamed(nodes).Some? ==> k < |nodes| && nodes[k].named && FirstNamed(nodes) == Some(nodes[k])
    ensures FirstNamed(nodes).Some? ==> forall j | 0 <= j < k :: !nodes[j].named
    ensures FirstNamed(nodes).None? ==> forall j | 0 <= j < |nodes| :: !nodes[j].named
  {
    k := 0;
    if nodes != [] && !nodes[0].named {
      k := FirstNamedIs(nodes[1..]);
      k := k + 1;
    }
  }

  lemma ChildIs(n: Node, field: string)
    ensures forall k: nat :: IsChild(n, field, k) ==> ChildByField(n, field) == Some(n.children[k])
    ensures ChildByField(n, field).Some? ==> exists k: nat :: IsChild(n, field, k) && n.children[k] == ChildByField(n, field).value
  {
    var i := FieldIndex(n.children, field);
    if i < |n.children| {
      assert IsChild(n, field, i);
    }
  }

  lemma FirstNamedAt(n: Node, k: nat)
    requires IsFirstNamed(n, k)
    ensures FirstNamed(n.children) == Some(n.children[k])
  {
    hide FirstNamed;
    var l := FirstNamedIs(n.children);
  }

  lemma DocstringIs(body: Node)
    ensures forall k: nat :: OpensWithString(body, k) ==> DocstringEnd(body) == Some(body.children[k].end)
    ensures DocstringEnd(body).Some? ==> exists k: nat :: OpensWithString(body, k)
  {
    hide IsFirstNamed, FirstNamed;
    forall k: nat | OpensWithString(body, k)
      ensures IsFirstNamed(body, k) && k < |body.children| && DocstringEnd(body) == Some(body.children[k].end)
    {
      InRange(body, k);
      var l: nat :| IsFirstNamed(body.children[k], l) && l < |body.children[k].children|
                    && body.children[k].children[l].kind == "string";
      FirstNamedAt(body, k);
      FirstNamedAt(body.children[k], l);
    }
    if DocstringEnd(body).Some? {
      var k := NamedFirst(body);
      var l := NamedFirst(body.children[k]);
      assert OpensWithString(body, k);
    }
  }

  lemma InRange(body: Node, k: nat)
    requires OpensWithString(body, k)
    ensures k < |body.children|
    ensures exists l: nat :: IsFirstNamed(body.children[k], l) && l < |body.children[k].children|
                             && body.children[k].children[l].kind == "string"
  {
  }

  lemma NamedFirst(n: Node) returns (k: nat)
    requires FirstNamed(n.children).Some?
    ensures IsFirstNamed(n, k) && k < |n.children| && FirstNamed(n.children) == Some(n.children[k])
  {
    hide FirstNamed;
    k := FirstNamedIs(n.children);
  }

  lemma ElidedPartIs(lang: Language, m: Node, i: nat)
    requires WellFormed(m)
    ensures InElidedPart(lang, m, i) <==> exists b: nat :: Defines(lang, m, b) && GivesWay(lang, m.children[b], i)
  {
    ChildIs(m, "body");
    if IsElidable(lang, m) {
      ElidedWithinBody(lang, m);
      DocstringIs(Body(m).value);
    }
  }

  lemma KeptIs(source: string, m: Node, keep: set<string>)
    ensures IsKept(source, m, keep) <==> IsCalled(source, m, keep)
  {
    ChildIs(m, "name");
  }

  // ----- what is hidden -----

  /** Some definition that is not kept has the position in the part of its body that gives way. */
  ghost predicate InBodyToHide(lang: Language, source: string, m: Node, keep: set<string>, i: nat) {
    !IsCalled(source, m, keep) && exists b: nat :: Defines(lang, m, b) && GivesWay(lang, m.children[b], i)
  }

  /** Definitions nested in a definition lie in its body, behind a docstring that is kept. */
  ghost predicate WellNested(lang: Language, root: Node) {
    forall m, d, b: nat, c: nat | m in Nodes(root) && d in NodesOf(m.children) && Defines(lang, m, b) && Defines(lang, d, c) ::
      && m.children[b].start <= d.start && d.end <= m.children[b].end
      && (lang.keepsDocstring ==> forall k: nat :: OpensWithString(m.children[b], k) ==> m.children[b].children[k].end <= d.start)
  }

  lemma ElidedFromIs(lang: Language, body: Node)
    ensures ElidedFrom(lang, body) == body.start
            || exists k: nat :: lang.keepsDocstring && OpensWithString(body, k) && ElidedFrom(lang, body) == body.children[k].end
    ensures forall k: nat :: lang.keepsDocstring && OpensWithString(body, k) ==> ElidedFrom(lang, body) == body.children[k].end
  {
    hide DocstringEnd;
    DocstringIs(body);
  }

  lemma WellNestedIsTidy(lang: Language, root: Node)
    requires WellNested(lang, root)
    ensures Tidy(lang, root)
  {
    hide ElidedFrom, OpensWithString;
    forall m, d | m in Nodes(root) && IsElidable(lang, m) && d in NodesOf(m.children) && IsElidable(lang, d)
      ensures ElidedFrom(lang, Body(m).value) <= d.start && d.end <= Body(m).value.end
    {
      ChildIs(m, "body");
      ChildIs(d, "body");
      var b: nat :| IsChild(m, "body", b) && m.children[b] == Body(m).value;
      var c: nat :| IsChild(d, "body", c) && d.children[c] == Body(d).value;
      assert Defines(lang, m, b) && Defines(lang, d, c);
      ElidedFromIs(lang, m.children[b]);
    }
  }

  /** A position is hidden exactly if some definition that is not kept has it in its body, behind any
      string statement that opens the body in a language that keeps docstrings. */
  lemma HiddenBehindDocstrings(lang: Language, source: string, keep: set<string>, root: Node, i: nat)
    requires WellFormed(root) && WellNested(lang, root)
    ensures Covered(Elisions(lang, source, keep, root), i) <==> exists m | m in Nodes(root) :: InBodyToHide(lang, source, m, keep, i)
  {
    hide Covered, Elisions, WellFormed, Tidy, InElidedPart, IsKept, IsCalled, GivesWay, Defines, WellNested;
    WellNestedIsTidy(lang, root);
    HiddenExactly(lang, source, keep, root, i);
    forall m | m in Nodes(root)
      ensures Hides(lang, source, keep, m, i) <==> InBodyToHide(lang, source, m, keep, i)
    {
      KeptIs(source, m, keep);
      NodeWithin(root, m);
      ElidedPartIs(lang, m, i);
    }
  }

  /** What stands for the hidden part: the bare placeholder for a whole body, and behind a docstring the
      placeholder on a line of its own, indented as the body is. */
  lemma PlaceholderIs(lang: Language, source: string, body: Node)
    requires body.start <= body.end <= |source|
    ensures (forall k: nat :: lang.keepsDocstring ==> !OpensWithString(body, k)) ==>
              BodyElision(lang, source, body) == [Elision(body.start, body.end, lang.elision)]
    ensures forall k: nat :: lang.keepsDocstring && OpensWithString(body, k) ==>
              var docEnd := body.children[k].end;
              if docEnd >= body.end then BodyElision(lang, source, body) == []
              else exists p: nat :: IndentsAt(source, body.start, p)
                     && BodyElision(lang, source, body) == [Elision(docEnd, body.end, "\n" + source[p..body.start] + lang.elision)]
  {
    hide DocstringEnd, LineStart;
    DocstringIs(body);
    assert IndentsAt(source, body.start, LineStart(source, body.start));
  }

  /** The line that holds `at` begins at `p`. */
  predicate IndentsAt(source: string, at: nat, p: nat) {
    p <= at <= |source| && '\n' !in source[p..at] && (p == 0 || source[p - 1] == '\n')
  }

  // ----- a Python function -----

  function Python(): Language {
    Language({"function_definition"}, "...", {"function_definition", "class_definition"}, true, {"identifier"},
             {"parameters", "lambda_parameters"})
  }

  function Token(kind: string, start: nat, end: nat): Node {
    Node(kind, "", false, start, end, [])
  }

  function Docstring(): Node {
    Part("expression_statement", "", 13, 18, [Part("string", "", 13, 18, [])])
  }

  function Return(): Node {
    Part("return_statement", "", 23, 31, [Token("return", 23, 29), Part("integer", "", 30, 31, [])])
  }

  /** `def f():` and its body. */
  function Def(body: Node): Node {
    Part("function_definition", "", 0, body.end,
         [Token("def", 0, 3), Part("identifier", "name", 4, 5, []), Part("parameters", "parameters", 5, 7, []), Token(":", 7, 8), body])
  }

  function Module(body: Node): Node {
    Part("module", "", 0, body.end + 1, [Def(body)])
  }

  const HEADER := "def f():\n"
  const INDENT := "    "
  const DOC := "\"doc\""

  function Returning(): string {
    HEADER + INDENT + DOC + "\n" + INDENT + "return 1" + "\n"
  }

  function ReturningBody(): Node {
    Part("block", "body", 13, 31, [Docstring(), Return()])
  }

  function Documented(): string {
    HEADER + INDENT + DOC + "\n"
  }

  function DocumentedBody(): Node {
    Part("block", "body", 13, 18, [Docstring()])
  }

  lemma Bodies()
    ensures WellFormed(ReturningBody()) && WellFormed(DocumentedBody())
  {
    hide WellFormed;
    Leafs("string", "", 13, 18);
    OneChild("expression_statement", "", 13, 18, Part("string", "", 13, 18, []));
    TokenWellFormed("return", 23, 29);
    Leafs("integer", "", 30, 31);
    TwoChildren("return_statement", "", 23, 31, Token("return", 23, 29), Part("integer", "", 30, 31, []));
    TwoChildren("block", "body", 13, 31, Docstring(), Return());
    OneChild("block", "body", 13, 18, Docstring());
  }

  lemma TokenWellFormed(kind: string, start: nat, end: nat)
    requires start <= end
    ensures WellFormed(Token(kind, start, end))
  {
  }

  lemma DefWellFormed(body: Node)
    requires WellFormed(body) && 8 <= body.start
    ensures WellFormed(Module(body))
  {
    hide WellFormed;
    WellFormedRange(body);
    TokenWellFormed("def", 0, 3);
    Leafs("identifier", "name", 4, 5);
    Leafs("parameters", "parameters", 5, 7);
    TokenWellFormed(":", 7, 8);
    var cs := Def(body).children;
    assert cs[4..][1..] == [] && cs[3..][1..] == cs[4..] && cs[2..][1..] == cs[3..] && cs[1..][1..] == cs[2..];
    assert InOrder(cs[4..], 8, body.end);
    assert InOrder(cs[3..], 7, body.end);
    assert InOrder(cs[2..], 5, body.end);
    assert InOrder(cs[1..], 3, body.end);
    assert InOrder(cs, 0, body.end);
    ByOrder(Def(body));
    OneChild("module", "", 0, body.end + 1, Def(body));
  }

  lemma FieldsOfDef(body: Node)
    requires body.field == "body"
    ensures Body(Def(body)) == Some(body) && ChildByField(Def(body), "name") == Some(Part("identifier", "name", 4, 5, []))
    ensures Body(Module(body)).None?
  {
    ChildIs(Def(body), "body");
    ChildIs(Def(body), "name");
    assert IsChild(Def(body), "body", 4) && IsChild(Def(body), "name", 1);
  }

  predicate NoneDefined(nodes: seq<Node>) {
    forall m | m in nodes :: m.kind != "function_definition"
  }

  lemma NoneInLeaf(n: Node)
    requires n.kind != "function_definition" && n.children == []
    ensures NoneDefined(Nodes(n))
  {
    assert Nodes(n) == [n];
  }

  lemma NoneInBodies()
    ensures NoneDefined(Nodes(ReturningBody())) && NoneDefined(Nodes(DocumentedBody()))
  {
    hide Nodes, NodesOf;
    NoneInLeaf(Part("string", "", 13, 18, []));
    NoneInLeaf(Token("return", 23, 29));
    NoneInLeaf(Part("integer", "", 30, 31, []));
    OneBelow(Docstring());
    TwoBelow(Return());
    OneBelow(DocumentedBody());
    TwoBelow(ReturningBody());
  }

  lemma OneBelow(n: Node)
    requires |n.children| == 1
    ensures Nodes(n) == [n] + Nodes(n.children[0])
  {
    assert n.children[1..] == [] && NodesOf([]) == [];
    assert NodesOf(n.children) == Nodes(n.children[0]) + NodesOf(n.children[1..]);
  }

  lemma TwoBelow(n: Node)
    requires |n.children| == 2
    ensures Nodes(n) == [n] + Nodes(n.children[0]) + Nodes(n.children[1])
  {
    var c, d := n.children[0], n.children[1];
    assert n.children == [c, d] && n.children[1..] == [d] && [d][1..] == [] && NodesOf([]) == [];
    assert NodesOf([d]) == Nodes(d) + NodesOf([d][1..]);
    assert NodesOf(n.children) == Nodes(c) + NodesOf(n.children[1..]);
  }

  lemma OneDefinition(body: Node)
    requires body.field == "body" && NoneDefined(Nodes(body))
    ensures forall m | m in Nodes(Module(body)) && m.kind == "function_definition" :: m == Def(body)
  {
    hide Nodes, NodesOf;
    var cs := Def(body).children;
    OneBelow(Module(body));
    FiveBelow(Def(body));
    NoneInLeaf(cs[0]);
    NoneInLeaf(cs[1]);
    NoneInLeaf(cs[2]);
    NoneInLeaf(cs[3]);
  }

  lemma FiveBelow(n: Node)
    requires |n.children| == 5
    ensures var cs := n.children;
            Nodes(n) == [n] + Nodes(cs[0]) + Nodes(cs[1]) + Nodes(cs[2]) + Nodes(cs[3]) + Nodes(cs[4])
  {
    hide Nodes;
    var cs := n.children;
    BelowFrom(cs, 4);
    BelowFrom(cs, 3);
    BelowFrom(cs, 2);
    BelowFrom(cs, 1);
    BelowFrom(cs, 0);
    assert cs[5..] == [] && NodesOf([]) == [] && cs[0..] == cs;
    assert Nodes(cs[4]) + [] == Nodes(cs[4]);
    AllBelow(n);
  }

  lemma BelowFrom(cs: seq<Node>, k: nat)
    requires k < |cs|
    ensures NodesOf(cs[k..]) == Nodes(cs[k]) + NodesOf(cs[k + 1..])
  {
    hide Nodes;
    assert cs[k..][1..] == cs[k + 1..];
  }

  lemma AllBelow(n: Node)
    ensures Nodes(n) == [n] + NodesOf(n.children)
  {
  }

  /** A module that is one definition with nothing kept elides that definition's body. */
  lemma ModuleElisions(source: string, body: Node)
    requires WellFormed(body) && body.field == "body" && 8 <= body.start && NoneDefined(Nodes(body))
    ensures WellFormed(Module(body)) && HeadersComeFirst(Python(), Module(body))
    ensures Elisions(Python(), source, {}, Module(body)) == BodyElision(Python(), source, body)
  {
    hide Nodes, WellFormed, BodyElision, Body;
    DefWellFormed(body);
    FieldsOfDef(body);
    OneDefinition(body);
    assert [Def(body)][1..] == [];
    var es := Elisions(Python(), source, {}, Def(body));
    assert IsElided(Python(), source, {}, Def(body)) && !IsElided(Python(), source, {}, Module(body));
    assert es == BodyElision(Python(), source, body) && es + [] == es;
    assert ElisionsOf(Python(), source, {}, [Def(body)]) == es + ElisionsOf(Python(), source, {}, [Def(body)][1..]);
    assert ElisionsOf(Python(), source, {}, []) == [];
  }

  /** Python keeps the docstring of a definition and elides what follows it. */
  lemma DocstringStays()
    ensures var root := Module(ReturningBody());
            && WellFormed(root) && HeadersComeFirst(Python(), root) && root.end <= |Returning()|
            && Skeletonized(Python(), Returning(), root, {}) == HEADER + INDENT + DOC + "\n" + INDENT + "..." + "\n"
  {
    hide WellFormed, HeadersComeFirst, Elisions, BodyElision, Nodes;
    var source, body := Returning(), ReturningBody();
    Bodies();
    NoneInBodies();
    ModuleElisions(source, body);
    PlaceholderIs(Python(), source, body);
    assert IsFirstNamed(Docstring(), 0) && IsFirstNamed(body, 0);
    assert OpensWithString(body, 0);
    var p: nat :| IndentsAt(source, 13, p)
                  && BodyElision(Python(), source, body) == [Elision(18, 31, "\n" + source[p..13] + "...")];
    ReturningPieces();
    assert p == 9;
    ReturningRewritten();
  }

  lemma ReturningRewritten()
    ensures var e := Elision(18, 31, "\n" + INDENT + "...");
            && Disjoint([e], 0, |Returning()|)
            && Rewrite(Returning(), 0, [e]) == HEADER + INDENT + DOC + "\n" + INDENT + "..." + "\n"
  {
    var source, e := Returning(), Elision(18, 31, "\n" + INDENT + "...");
    ReturningPieces();
    assert Rewrite(source, 31, []) == source[31..] && [e][1..] == [] && Disjoint([e][1..], 31, |source|);
    assert HEADER + INDENT + DOC + ("\n" + INDENT + "...") + "\n" == HEADER + INDENT + DOC + "\n" + INDENT + "..." + "\n";
  }

  lemma ReturningPieces()
    ensures var source := Returning();
            && |source| == 32 && source[8] == '\n' && source[9..13] == INDENT && source[..18] == HEADER + INDENT + DOC
            && source[0..18] == source[..18] && source[31..] == "\n"
  {
    var source := Returning();
    assert source[..9] == HEADER;
    assert HEADER[8] == '\n';
  }

  /** A body that is a docstring alone stays whole. */
  lemma DocstringAloneStays()
    ensures var root := Module(DocumentedBody());
            && WellFormed(root) && HeadersComeFirst(Python(), root) && root.end <= |Documented()|
            && Skeletonized(Python(), Documented(), root, {}) == Documented()
  {
    hide WellFormed, HeadersComeFirst, Elisions, BodyElision, Nodes;
    var source, body := Documented(), DocumentedBody();
    Bodies();
    NoneInBodies();
    ModuleElisions(source, body);
    PlaceholderIs(Python(), source, body);
    assert IsFirstNamed(Docstring(), 0) && IsFirstNamed(body, 0);
    assert OpensWithString(body, 0);
    assert source[0..] == source;
  }
}
