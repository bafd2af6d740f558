/** Which parts of a source a skeleton shows, and how that grows with the radius. */
module Shown {
  import Strings
  import opened Protocol
  import opened SymbolGraph
  import opened SyntaxTree
  import opened Reach
  import opened Skeleton

  predicate Covered(es: seq<Elision>, i: nat) {
    exists k | 0 <= k < |es| :: es[k].start <= i < es[k].end
  }

  lemma CoveredAppend(a: seq<Elision>, b: seq<Elision>, i: nat)
    ensures Covered(a + b, i) <==> Covered(a, i) || Covered(b, i)
  {
    if Covered(a, i) {
      var k :| 0 <= k < |a| && a[k].start <= i < a[k].end;
      assert (a + b)[k] == a[k];
    }
    if Covered(b, i) {
      var k :| 0 <= k < |b| && b[k].start <= i < b[k].end;
      assert (a + b)[|a| + k] == b[k];
    }
  }

  lemma {:induction false} CoveredInChild(lang: Language, source: string, keep: set<string>, nodes: seq<Node>, i: nat)
    ensures Covered(ElisionsOf(lang, source, keep, nodes), i) <==>
            exists j | 0 <= j < |nodes| :: Covered(Elisions(lang, source, keep, nodes[j]), i)
  {
    hide Elisions, Covered;
    if nodes == [] {
      NothingCovered(i);
    } else {
      CoveredInChild(lang, source, keep, nodes[1..], i);
      CoveredAppend(Elisions(lang, source, keep, nodes[0]), ElisionsOf(lang, source, keep, nodes[1..]), i);
      if j :| 0 <= j < |nodes[1..]| && Covered(Elisions(lang, source, keep, nodes[1..][j]), i) {
        assert nodes[1..][j] == nodes[j + 1];
      }
      forall j | 0 < j < |nodes|
        ensures nodes[j] == nodes[1..][j - 1]
      {
      }
    }
  }

  lemma NothingCovered(i: nat)
    ensures !Covered([], i)
  {
  }

  /** The node's body, or what follows its docstring, holds the position. */
  predicate InElidedPart(lang: Language, m: Node, i: nat) {
    IsElidable(lang, m) && ElidedFrom(lang, Body(m).value) <= i < Body(m).value.end
  }

  lemma BodyElisionCovers(lang: Language, source: string, m: Node, i: nat)
    requires IsElidable(lang, m)
    ensures Covered(BodyElision(lang, source, Body(m).value), i) <==> InElidedPart(lang, m, i)
  {
    hide LineIndent, DocstringEnd;
    var es := BodyElision(lang, source, Body(m).value);
    if InElidedPart(lang, m, i) {
      assert es[0].start <= i < es[0].end;
    }
  }

  /** Definitions nested in a definition lie in its body and after any docstring it opens with. */
  predicate NestsInBody(lang: Language, m: Node) {
    IsElidable(lang, m) ==>
      forall d | d in NodesOf(m.children) && IsElidable(lang, d) :: ElidedFrom(lang, Body(m).value) <= d.start && d.end <= Body(m).value.end
  }

  predicate Tidy(lang: Language, n: Node) {
    forall m | m in Nodes(n) :: NestsInBody(lang, m)
  }

  lemma TidyBelow(lang: Language, n: Node, c: Node)
    requires Tidy(lang, n) && c in n.children
    ensures Tidy(lang, c)
  {
    hide NestsInBody;
    forall m | m in Nodes(c)
      ensures NestsInBody(lang, m)
    {
      BelowChild(n, c, m);
    }
  }

  predicate Hides(lang: Language, source: string, keep: set<string>, m: Node, i: nat) {
    InElidedPart(lang, m, i) && !IsKept(source, m, keep)
  }

  /** What an elided definition nested anywhere would hide, the definition around it hides already. */
  lemma OuterHides(lang: Language, source: string, n: Node, m: Node, i: nat)
    requires WellFormed(n) && NestsInBody(lang, n) && IsElidable(lang, n) && m in Nodes(n) && InElidedPart(lang, m, i)
    ensures InElidedPart(lang, n, i)
  {
    hide ElidedFrom, WellFormed;
    if m != n {
      NodeWithin(n, m);
      ElidedWithinBody(lang, m);
      assert m in NodesOf(n.children);
    }
  }

  lemma {:induction false} CoveredIsHidden(lang: Language, source: string, keep: set<string>, n: Node, i: nat) returns (m: Node)
    requires Covered(Elisions(lang, source, keep, n), i)
    ensures m in Nodes(n) && Hides(lang, source, keep, m, i)
    decreases n
  {
    hide Covered, InElidedPart, IsElidable, IsKept, BodyElision, ElisionsOf;
    if IsElided(lang, source, keep, n) {
      m := n;
      BodyElisionCovers(lang, source, n, i);
    } else {
      CoveredInChild(lang, source, keep, n.children, i);
      var j :| 0 <= j < |n.children| && Covered(Elisions(lang, source, keep, n.children[j]), i);
      m := CoveredIsHidden(lang, source, keep, n.children[j], i);
      BelowChild(n, n.children[j], m);
    }
  }

  lemma {:induction false} HiddenIsCovered(lang: Language, source: string, keep: set<string>, n: Node, m: Node, i: nat)
    requires WellFormed(n) && Tidy(lang, n) && m in Nodes(n) && Hides(lang, source, keep, m, i)
    ensures Covered(Elisions(lang, source, keep, n), i)
    decreases n
  {
    hide Covered, InElidedPart, IsElidable, IsKept, BodyElision, ElisionsOf, WellFormed, NestsInBody;
    if IsElided(lang, source, keep, n) {
      assert NestsInBody(lang, n) by { assert n in Nodes(n); }
      OuterHides(lang, source, n, m, i);
      BodyElisionCovers(lang, source, n, i);
    } else {
      assert m != n by { HidesIsElided(lang, source, keep, m, i); }
      NodeOfChild(n.children, m);
      var j :| 0 <= j < |n.children| && m in Nodes(n.children[j]);
      ChildInParent(n, n.children[j]);
      TidyBelow(lang, n, n.children[j]);
      HiddenIsCovered(lang, source, keep, n.children[j], m, i);
      CoveredInChild(lang, source, keep, n.children, i);
    }
  }

  lemma HidesIsElided(lang: Language, source: string, keep: set<string>, m: Node, i: nat)
    requires Hides(lang, source, keep, m, i)
    ensures IsElided(lang, source, keep, m)
  {
  }

  /** A position is elided exactly if it lies in the elided part of some definition that is not kept. */
  lemma HiddenExactly(lang: Language, source: string, keep: set<string>, root: Node, i: nat)
    requires WellFormed(root) && Tidy(lang, root)
    ensures Covered(Elisions(lang, source, keep, root), i) <==> exists m | m in Nodes(root) :: Hides(lang, source, keep, m, i)
  {
    hide Covered, Hides, Elisions, WellFormed, Tidy;
    if Covered(Elisions(lang, source, keep, root), i) {
      var m := CoveredIsHidden(lang, source, keep, root, i);
    }
    forall m | m in Nodes(root) && Hides(lang, source, keep, m, i)
      ensures Covered(Elisions(lang, source, keep, root), i)
    {
      HiddenIsCovered(lang, source, keep, root, m, i);
    }
  }

  /** Keeping more bodies never hides anything that was shown. */
  lemma KeepingMoreShowsMore(lang: Language, source: string, root: Node, less: set<string>, more: set<string>, i: nat)
    requires WellFormed(root) && Tidy(lang, root) && less <= more
    ensures Covered(Elisions(lang, source, more, root), i) ==> Covered(Elisions(lang, source, less, root), i)
  {
    hide Covered, Elisions, InElidedPart, WellFormed, Tidy;
    HiddenExactly(lang, source, more, root, i);
    if m :| m in Nodes(root) && Hides(lang, source, more, m, i) {
      assert Hides(lang, source, less, m, i);
      HiddenExactly(lang, source, less, root, i);
    }
  }

  // ----- the radius -----

  function GraphOf(lang: Language, source: string, root: Node): Graph {
    Linked([FileOf(lang, source, root)])
  }

  /** The names at most `r` references away from the target. */
  function KeptWithin(lang: Language, source: string, root: Node, target: string, r: nat): set<string> {
    Names(Ball(GraphOf(lang, source, root), Seeds(GraphOf(lang, source, root), target), r))
  }

  method SkeletonWithRadius(lang: Language, source: string, tree: Option<Node>, target: string, radius: nat) returns (out: string)
    requires tree.Some? ==> WellFormed(tree.value) && HeadersComeFirst(lang, tree.value) && tree.value.end <= |source|
    ensures tree.None? ==> out == source
    ensures tree.Some? ==> out == Skeletonized(lang, source, tree.value, KeptWithin(lang, source, tree.value, target, radius))
  {
    hide WellFormed, HeadersComeFirst, Skeletonized, Names, Ball, Seeds, Linked, FileOf;
    var keep := {target};
    if tree.Some? {
      var g := FromSource(lang, source, tree.value);
      keep := NeighborsWithin(g, target, radius);
    }
    out := Skeletonize(lang, source, tree, keep);
  }

  /** Every position shown at one radius is still shown at a larger one. */
  lemma LargerRadiusShowsMore(lang: Language, source: string, root: Node, target: string, r: nat, q: nat, i: nat)
    requires WellFormed(root) && Tidy(lang, root) && r <= q
    ensures Covered(Elisions(lang, source, KeptWithin(lang, source, root, target, q), root), i) ==>
              Covered(Elisions(lang, source, KeptWithin(lang, source, root, target, r), root), i)
  {
    hide Covered, Elisions, WellFormed, Tidy, Names, Ball, Seeds, GraphOf;
    NamesGrow(GraphOf(lang, source, root), target, r, q);
    KeepingMoreShowsMore(lang, source, root, KeptWithin(lang, source, root, target, r), KeptWithin(lang, source, root, target, q), i);
  }

  /** Some symbol called `name` is at most `r` references away from the target. */
  ghost predicate IsNear(g: Graph, target: string, r: nat, name: string) {
    exists s, path :: Leads(g, Seeds(g, target), r, s, path) && s.name == name
  }

  lemma NearIsKept(g: Graph, target: string, r: nat, name: string)
    ensures name in Names(Ball(g, Seeds(g, target), r)) <==> IsNear(g, target, r, name)
  {
    hide Ball, Leads, Seeds;
    if name in Names(Ball(g, Seeds(g, target), r)) {
      var s :| s in Ball(g, Seeds(g, target), r) && s.name == name;
      BallIsDistance(g, Seeds(g, target), r, s);
    }
    if IsNear(g, target, r, name) {
      var s, path :| Leads(g, Seeds(g, target), r, s, path) && s.name == name;
      BallIsDistance(g, Seeds(g, target), r, s);
    }
  }

  /** At radius `r` a position is hidden exactly if it lies in the elided part of a definition
      that has no name or whose name is more than `r` references away from the target. */
  lemma HiddenByDistance(lang: Language, source: string, root: Node, target: string, r: nat, i: nat)
    requires WellFormed(root) && Tidy(lang, root)
    ensures Covered(Elisions(lang, source, KeptWithin(lang, source, root, target, r), root), i) <==>
            exists m | m in Nodes(root) ::
              && InElidedPart(lang, m, i)
              && (ChildByField(m, "name").Some? ==>
                    !IsNear(GraphOf(lang, source, root), target, r, SyntaxTree.Text(source, ChildByField(m, "name").value)))
  {
    hide Covered, Elisions, InElidedPart, WellFormed, Tidy, Names, Ball, Seeds, GraphOf, IsNear;
    var g := GraphOf(lang, source, root);
    var keep := KeptWithin(lang, source, root, target, r);
    HiddenExactly(lang, source, keep, root, i);
    forall m | m in Nodes(root)
      ensures Hides(lang, source, keep, m, i) <==>
              && InElidedPart(lang, m, i)
              && (ChildByField(m, "name").Some? ==> !IsNear(g, target, r, SyntaxTree.Text(source, ChildByField(m, "name").value)))
    {
      if ChildByField(m, "name").Some? {
        NearIsKept(g, target, r, SyntaxTree.Text(source, ChildByField(m, "name").value));
      }
    }
  }

  // ----- the skeleton's text -----

  /** The characters at shown positions from `i` on. */
  function Visible(source: string, es: seq<Elision>, i: nat): string
    requires i <= |source|
    decreases |source| - i
  {
    if i == |source| then ""
    else (if Covered(es, i) then "" else [source[i]]) + Visible(source, es, i + 1)
  }

  /** The same ranges with nothing put in their place. */
  function Blank(es: seq<Elision>): seq<Elision> {
    seq(|es|, k requires 0 <= k < |es| => Elision(es[k].start, es[k].end, ""))
  }

  lemma {:induction false} VisibleRun(source: string, es: seq<Elision>, a: nat, b: nat, covered: bool)
    requires a <= b <= |source| && forall i | a <= i < b :: Covered(es, i) == covered
    ensures Visible(source, es, a) == (if covered then "" else source[a..b]) + Visible(source, es, b)
    decreases b - a
  {
    hide Covered;
    if a < b {
      VisibleRun(source, es, a + 1, b, covered);
      if covered {
        EmptyFirst(Visible(source, es, a + 1));
      } else {
        assert source[a..b] == [source[a]] + source[a + 1..b];
        Strings.Regroup([source[a]], source[a + 1..b], Visible(source, es, b));
      }
    } else {
      assert source[a..b] == "";
      EmptyFirst(Visible(source, es, b));
    }
  }

  lemma EmptyFirst(s: string)
    ensures "" + s == s
  {
  }

  lemma {:induction false} VisibleAgrees(source: string, es: seq<Elision>, fs: seq<Elision>, a: nat)
    requires a <= |source| && forall i | a <= i < |source| :: Covered(es, i) == Covered(fs, i)
    ensures Visible(source, es, a) == Visible(source, fs, a)
    decreases |source| - a
  {
    hide Covered;
    if a < |source| {
      VisibleAgrees(source, es, fs, a + 1);
    }
  }

  lemma {:induction false} BlankDisjoint(es: seq<Elision>, from: nat, to: nat)
    requires Disjoint(es, from, to)
    ensures Disjoint(Blank(es), from, to)
    decreases |es|
  {
    if es != [] {
      BlankDisjoint(es[1..], es[0].end, to);
      assert Blank(es)[1..] == Blank(es[1..]);
    }
  }

  lemma FirstRange(es: seq<Elision>, from: nat, to: nat, i: nat)
    requires es != [] && Disjoint(es, from, to)
    ensures i < es[0].start ==> !Covered(es, i)
    ensures es[0].start <= i < es[0].end ==> Covered(es, i)
    ensures es[0].end <= i ==> Covered(es, i) == Covered(es[1..], i)
  {
    DisjointAscends(es, from, to);
    if es[0].end <= i && Covered(es, i) {
      var k :| 0 <= k < |es| && es[k].start <= i < es[k].end;
      assert es[1..][k - 1] == es[k];
    }
    if Covered(es[1..], i) {
      var k :| 0 <= k < |es[1..]| && es[1..][k].start <= i < es[1..][k].end;
      assert es[k + 1] == es[1..][k];
    }
  }

  /** Apart from its placeholders, a rewritten text is exactly the shown characters, in order. */
  lemma {:induction false} RewriteShowsTheRest(source: string, from: nat, es: seq<Elision>)
    requires Disjoint(es, from, |source|)
    ensures Disjoint(Blank(es), from, |source|) && from <= |source|
    ensures Rewrite(source, from, Blank(es)) == Visible(source, es, from)
    decreases |es|
  {
    hide Covered, Disjoint, Visible, Rewrite;
    BlankDisjoint(es, from, |source|);
    DisjointEnds(es, from, |source|);
    if es == [] {
      NothingIsCovered();
      VisibleRun(source, es, from, |source|, false);
      RewriteNothing(source, from);
      VisibleEnd(source, es);
    } else {
      RestIsDisjoint(es, from, |source|);
      RewriteShowsTheRest(source, es[0].end, es[1..]);
      BlankUnfolds(source, from, es);
      forall i: nat
        ensures i < es[0].start ==> !Covered(es, i)
        ensures es[0].start <= i < es[0].end ==> Covered(es, i)
        ensures es[0].end <= i ==> Covered(es, i) == Covered(es[1..], i)
      {
        FirstRange(es, from, |source|, i);
      }
      VisibleRun(source, es, from, es[0].start, false);
      VisibleRun(source, es, es[0].start, es[0].end, true);
      VisibleAgrees(source, es, es[1..], es[0].end);
      EmptyFirst(Visible(source, es, es[0].end));
    }
  }

  lemma RewriteNothing(source: string, from: nat)
    requires from <= |source|
    ensures Blank([]) == [] && Disjoint([], from, |source|) && Rewrite(source, from, []) == source[from..|source|]
  {
  }

  lemma VisibleEnd(source: string, es: seq<Elision>)
    ensures Visible(source, es, |source|) == "" && forall s: string :: s + "" == s
  {
  }

  lemma BlankUnfolds(source: string, from: nat, es: seq<Elision>)
    requires es != [] && Disjoint(Blank(es), from, |source|) && Disjoint(Blank(es[1..]), es[0].end, |source|)
    requires from < es[0].start <= es[0].end <= |source|
    ensures Rewrite(source, from, Blank(es)) == source[from..es[0].start] + Rewrite(source, es[0].end, Blank(es[1..]))
  {
    assert Blank(es)[1..] == Blank(es[1..]);
    assert source[from..es[0].start] + "" == source[from..es[0].start];
  }

  lemma NothingIsCovered()
    ensures forall i :: !Covered([], i)
  {
  }

  lemma RestIsDisjoint(es: seq<Elision>, from: nat, to: nat)
    requires es != [] && Disjoint(es, from, to)
    ensures from < es[0].start <= es[0].end <= to && Disjoint(es[1..], es[0].end, to)
  {
    DisjointEnds(es[1..], es[0].end, to);
  }
}
