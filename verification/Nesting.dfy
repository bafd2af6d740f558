/** Exactly when keeping more bodies hides something: a definition nested in another one's header. */
module Nesting {
  import opened Protocol
  import opened SymbolGraph
  import opened SyntaxTree
  import opened Reach
  import opened Skeleton
  import opened Shown

  // ----- ways down a tree -----

  /** A way from the root down to the last node, parent by parent. */
  predicate IsChain(root: Node, path: seq<Node>) {
    path != [] && path[0] == root && forall k | 0 < k < |path| :: path[k] in path[k - 1].children
  }

  function Last(path: seq<Node>): Node
    requires path != []
  {
    path[|path| - 1]
  }

  /** No definition above the last node is elided. */
  predicate OpenAbove(lang: Language, source: string, keep: set<string>, path: seq<Node>) {
    forall k | 0 <= k < |path| - 1 :: !IsElided(lang, source, keep, path[k])
  }

  /** The last node is the outermost elided one on the way. */
  predicate FirstElided(lang: Language, source: string, keep: set<string>, root: Node, path: seq<Node>) {
    IsChain(root, path) && OpenAbove(lang, source, keep, path) && IsElided(lang, source, keep, Last(path))
  }

  ghost predicate HiddenVia(lang: Language, source: string, keep: set<string>, root: Node, path: seq<Node>, i: nat) {
    FirstElided(lang, source, keep, root, path) && InElidedPart(lang, Last(path), i)
  }

  lemma {:induction false} CoveredVia(lang: Language, source: string, keep: set<string>, root: Node, i: nat) returns (path: seq<Node>)
    requires Covered(Elisions(lang, source, keep, root), i)
    ensures HiddenVia(lang, source, keep, root, path, i)
    decreases root
  {
    hide Covered, InElidedPart, IsElidable, IsKept, BodyElision, ElisionsOf, IsElided;
    if IsElided(lang, source, keep, root) {
      path := [root];
      ElidedIsElidable(lang, source, keep, root);
      BodyElisionCovers(lang, source, root, i);
    } else {
      CoveredInChild(lang, source, keep, root.children, i);
      var j :| 0 <= j < |root.children| && Covered(Elisions(lang, source, keep, root.children[j]), i);
      var rest := CoveredVia(lang, source, keep, root.children[j], i);
      path := [root] + rest;
    }
  }

  lemma ElidedIsElidable(lang: Language, source: string, keep: set<string>, n: Node)
    requires IsElided(lang, source, keep, n)
    ensures IsElidable(lang, n)
  {
  }

  lemma {:induction false} ViaCovers(lang: Language, source: string, keep: set<string>, root: Node, path: seq<Node>, i: nat)
    requires HiddenVia(lang, source, keep, root, path, i)
    ensures Covered(Elisions(lang, source, keep, root), i)
    decreases |path|
  {
    hide Covered, InElidedPart, IsElidable, IsKept, BodyElision, ElisionsOf, IsElided;
    if |path| == 1 {
      ElidedIsElidable(lang, source, keep, root);
      BodyElisionCovers(lang, source, root, i);
    } else {
      ViaCovers(lang, source, keep, path[1], path[1..], i);
      var j :| 0 <= j < |root.children| && root.children[j] == path[1];
      CoveredInChild(lang, source, keep, root.children, i);
      assert Elisions(lang, source, keep, root) == ElisionsOf(lang, source, keep, root.children) by {
        assert !IsElided(lang, source, keep, path[0]);
      }
    }
  }

  // ----- two ways to one position -----

  predicate Holds(n: Node, i: nat) {
    n.start <= i < n.end
  }

  lemma {:induction false} ChainWithin(root: Node, path: seq<Node>)
    requires WellFormed(root) && IsChain(root, path)
    ensures WellFormed(Last(path)) && root.start <= Last(path).start <= Last(path).end <= root.end
    decreases |path|
  {
    hide WellFormed;
    if |path| == 1 {
      WellFormedRange(root);
    } else {
      ChildInParent(root, path[1]);
      ChainWithin(path[1], path[1..]);
    }
  }

  lemma {:induction false} InOrderApart(nodes: seq<Node>, from: nat, to: nat, a: nat, b: nat)
    requires InOrder(nodes, from, to) && a < b < |nodes|
    ensures nodes[a].end <= nodes[b].start
  {
    hide WellFormed;
    if a == 0 {
      ChildWithin(nodes[1..], nodes[0].end, to, b - 1);
    } else {
      InOrderApart(nodes[1..], nodes[0].end, to, a - 1, b - 1);
    }
  }

  lemma SameChild(n: Node, c: Node, d: Node, i: nat)
    requires WellFormed(n) && c in n.children && d in n.children && Holds(c, i) && Holds(d, i)
    ensures c == d
  {
    var a :| 0 <= a < |n.children| && n.children[a] == c;
    var b :| 0 <= b < |n.children| && n.children[b] == d;
    if a < b {
      InOrderApart(n.children, n.start, n.end, a, b);
    } else if b < a {
      InOrderApart(n.children, n.start, n.end, b, a);
    }
  }

  /** Of two ways to nodes that hold the same position, one is the beginning of the other. */
  lemma {:induction false} WaysAgree(root: Node, p: seq<Node>, q: seq<Node>, i: nat)
    requires WellFormed(root) && IsChain(root, p) && IsChain(root, q) && Holds(Last(p), i) && Holds(Last(q), i)
    ensures p <= q || q <= p
    decreases |p|
  {
    hide WellFormed;
    if |p| > 1 && |q| > 1 {
      ChildInParent(root, p[1]);
      ChildInParent(root, q[1]);
      ChainWithin(p[1], p[1..]);
      ChainWithin(q[1], q[1..]);
      SameChild(root, p[1], q[1], i);
      WaysAgree(p[1], p[1..], q[1..], i);
      assert p == [p[0]] + p[1..] && q == [q[0]] + q[1..];
    }
  }

  // ----- a position that a larger keep set hides -----

  /** On the way to a definition that the larger set elides lies one that the smaller set elides first,
      and whose elided part does not hold the position. */
  ghost predicate LostVia(lang: Language, source: string, root: Node, less: set<string>, more: set<string>, i: nat,
                          path: seq<Node>, k: nat) {
    && HiddenVia(lang, source, more, root, path, i)
    && k < |path| - 1 && FirstElided(lang, source, less, root, path[..k + 1]) && !InElidedPart(lang, path[k], i)
  }

  lemma LostIsShown(lang: Language, source: string, root: Node, less: set<string>, more: set<string>, i: nat, path: seq<Node>, k: nat)
    requires WellFormed(root) && LostVia(lang, source, root, less, more, i, path, k)
    ensures !Covered(Elisions(lang, source, less, root), i)
  {
    hide Covered, Elisions, WellFormed, IsElided, InElidedPart;
    var p := path[..k + 1];
    assert Last(p) == path[k];
    if Covered(Elisions(lang, source, less, root), i) {
      var q := CoveredVia(lang, source, less, root, i);
      HoldsElided(lang, root, path, i);
      HoldsElided(lang, root, q, i);
      WaysAgree(root, path, q, i);
      Comparable(p, path, q);
      if p <= q {
        OneFirstElided(lang, source, less, root, p, q);
      }
      if q <= p {
        OneFirstElided(lang, source, less, root, q, p);
      }
      assert false;
    }
  }

  lemma Comparable(p: seq<Node>, path: seq<Node>, q: seq<Node>)
    requires p <= path && (path <= q || q <= path)
    ensures p <= q || q <= p
  {
    if q <= path {
      assert p == path[..|p|] && q == path[..|q|];
    }
  }

  /** Ways that begin alike have the same first elided node. */
  lemma OneFirstElided(lang: Language, source: string, keep: set<string>, root: Node, p: seq<Node>, q: seq<Node>)
    requires FirstElided(lang, source, keep, root, p) && FirstElided(lang, source, keep, root, q) && p <= q
    ensures p == q
  {
    hide IsElided;
    assert Last(p) == q[|p| - 1];
  }

  lemma HoldsElided(lang: Language, root: Node, path: seq<Node>, i: nat)
    requires WellFormed(root) && IsChain(root, path) && InElidedPart(lang, Last(path), i)
    ensures Holds(Last(path), i)
  {
    hide WellFormed, ElidedFrom;
    ChainWithin(root, path);
    ElidedWithinBody(lang, Last(path));
  }

  /** For two keep sets: a position is hidden under the larger and shown under the smaller exactly then. */
  lemma LostExactly(lang: Language, source: string, root: Node, less: set<string>, more: set<string>, i: nat)
    requires WellFormed(root) && less <= more
    ensures Covered(Elisions(lang, source, more, root), i) && !Covered(Elisions(lang, source, less, root), i) <==>
            exists path, k :: LostVia(lang, source, root, less, more, i, path, k)
  {
    hide Covered, Elisions, WellFormed, IsElided, InElidedPart;
    if Covered(Elisions(lang, source, more, root), i) && !Covered(Elisions(lang, source, less, root), i) {
      var path := CoveredVia(lang, source, more, root, i);
      var k := LostAt(lang, source, root, less, more, i, path);
    }
    forall path, k: nat | LostVia(lang, source, root, less, more, i, path, k)
      ensures Covered(Elisions(lang, source, more, root), i) && !Covered(Elisions(lang, source, less, root), i)
    {
      ViaCovers(lang, source, more, root, path, i);
      LostIsShown(lang, source, root, less, more, i, path, k);
    }
  }

  lemma LostAt(lang: Language, source: string, root: Node, less: set<string>, more: set<string>, i: nat, path: seq<Node>)
    returns (k: nat)
    requires less <= more && HiddenVia(lang, source, more, root, path, i) && !Covered(Elisions(lang, source, less, root), i)
    ensures LostVia(lang, source, root, less, more, i, path, k)
  {
    hide Covered, Elisions, InElidedPart;
    k := 0;
    while k < |path| - 1 && !IsElided(lang, source, less, path[k])
      invariant k <= |path| - 1 && forall j | 0 <= j < k :: !IsElided(lang, source, less, path[j])
    {
      k := k + 1;
    }
    var p := path[..k + 1];
    assert Last(p) == path[k];
    LessElides(lang, source, less, more, Last(path));
    assert FirstElided(lang, source, less, root, p);
    if InElidedPart(lang, path[k], i) {
      ViaCovers(lang, source, less, root, p, i);
    }
    assert k == |path| - 1 ==> p == path;
  }

  lemma LessElides(lang: Language, source: string, less: set<string>, more: set<string>, n: Node)
    requires less <= more && IsElided(lang, source, more, n)
    ensures IsElided(lang, source, less, n)
  {
  }

  // ----- the shape that makes it possible -----

  function NameOf(source: string, n: Node): Option<string> {
    match ChildByField(n, "name") case Some(m) => Some(SyntaxTree.Text(source, m)) case None => None
  }

  /** The names of the definitions among some nodes. */
  function DefinedNames(lang: Language, source: string, nodes: seq<Node>): set<string> {
    set k | 0 <= k < |nodes| && IsElidable(lang, nodes[k]) && NameOf(source, nodes[k]).Some? :: NameOf(source, nodes[k]).value
  }

  predicate AllNamed(lang: Language, source: string, nodes: seq<Node>) {
    forall k | 0 <= k < |nodes| && IsElidable(lang, nodes[k]) :: NameOf(source, nodes[k]).Some?
  }

  /** The node's name is not that of a definition among `outer`. */
  predicate IsNew(lang: Language, source: string, outer: seq<Node>, n: Node) {
    NameOf(source, n).Some? ==> NameOf(source, n).value !in DefinedNames(lang, source, outer)
  }

  /** The elided part of `d` lies in that of `a`, or is empty. */
  predicate PartWithin(lang: Language, d: Node, a: Node)
    requires IsElidable(lang, d) && IsElidable(lang, a)
  {
    var x, y := Body(d).value, Body(a).value;
    || x.end <= ElidedFrom(lang, x)
    || (ElidedFrom(lang, y) <= ElidedFrom(lang, x) && x.end <= y.end)
  }

  /** A definition at the end of the way lies, at least partly, outside the elided part of the definition
      `path[k]` around it; all definitions around it are named, and each of the two has a name of its own. */
  predicate Misnested(lang: Language, source: string, root: Node, path: seq<Node>, k: nat) {
    && IsChain(root, path) && k < |path| - 1
    && IsElidable(lang, path[k]) && IsElidable(lang, Last(path)) && !PartWithin(lang, Last(path), path[k])
    && AllNamed(lang, source, path[..|path| - 1])
    && IsNew(lang, source, path[..|path| - 1], Last(path)) && IsNew(lang, source, path[..k], path[k])
  }

  lemma ElidedByName(lang: Language, source: string, keep: set<string>, n: Node)
    ensures IsElided(lang, source, keep, n) <==>
            IsElidable(lang, n) && (NameOf(source, n).Some? ==> NameOf(source, n).value !in keep)
  {
  }

  /** Keeping the names of the definitions among some nodes elides none of them. */
  lemma NamesKeep(lang: Language, source: string, nodes: seq<Node>, k: nat)
    requires AllNamed(lang, source, nodes) && k < |nodes|
    ensures !IsElided(lang, source, DefinedNames(lang, source, nodes), nodes[k])
  {
    hide IsElidable;
    ElidedByName(lang, source, DefinedNames(lang, source, nodes), nodes[k]);
  }

  /** A way with such a pair hides a position: keep the names around the outer definition, then those
      around the inner one. */
  lemma MisnestedLoses(lang: Language, source: string, root: Node, path: seq<Node>, k: nat)
    returns (less: set<string>, more: set<string>, i: nat)
    requires Misnested(lang, source, root, path, k)
    ensures less <= more && LostVia(lang, source, root, less, more, i, path, k)
  {
    hide IsElided, IsElidable, NameOf, ElidedFrom;
    var above := path[..|path| - 1];
    less, more := DefinedNames(lang, source, path[..k]), DefinedNames(lang, source, above);
    NamesGrowAlong(lang, source, path, k);
    i := PointOutside(lang, Last(path), path[k]);
    forall j | 0 <= j < |path| - 1
      ensures !IsElided(lang, source, more, path[j])
    {
      NamesKeep(lang, source, above, j);
      assert above[j] == path[j];
    }
    forall j | 0 <= j < k
      ensures !IsElided(lang, source, less, path[j])
    {
      assert AllNamed(lang, source, path[..k]) by { NamedAlong(lang, source, path, k); }
      NamesKeep(lang, source, path[..k], j);
    }
    ElidedByName(lang, source, more, Last(path));
    ElidedByName(lang, source, less, path[k]);
    assert Last(path[..k + 1]) == path[k];
    assert FirstElided(lang, source, less, root, path[..k + 1]);
  }

  lemma NamedAlong(lang: Language, source: string, path: seq<Node>, k: nat)
    requires k < |path| && AllNamed(lang, source, path[..|path| - 1])
    ensures AllNamed(lang, source, path[..k])
  {
    hide IsElidable, NameOf;
    assert forall j | 0 <= j < k :: path[..k][j] == path[..|path| - 1][j];
  }

  lemma NamesGrowAlong(lang: Language, source: string, path: seq<Node>, k: nat)
    requires k < |path|
    ensures DefinedNames(lang, source, path[..k]) <= DefinedNames(lang, source, path[..|path| - 1])
  {
    hide IsElidable, NameOf;
    assert forall j | 0 <= j < k :: path[..k][j] == path[..|path| - 1][j];
  }

  lemma PointOutside(lang: Language, d: Node, a: Node) returns (i: nat)
    requires IsElidable(lang, d) && IsElidable(lang, a) && !PartWithin(lang, d, a)
    ensures InElidedPart(lang, d, i) && !InElidedPart(lang, a, i)
  {
    hide ElidedFrom;
    var x, y := Body(d).value, Body(a).value;
    i := if ElidedFrom(lang, x) < ElidedFrom(lang, y) then ElidedFrom(lang, x) else x.end - 1;
  }

  lemma LostIsMisnested(lang: Language, source: string, root: Node, less: set<string>, more: set<string>, i: nat,
                        path: seq<Node>, k: nat)
    requires less <= more && LostVia(lang, source, root, less, more, i, path, k)
    ensures Misnested(lang, source, root, path, k)
  {
    hide NameOf, ElidedFrom, IsElidable, IsElided;
    var above := path[..|path| - 1];
    assert Last(path[..k + 1]) == path[k];
    forall j | 0 <= j < |path|
      ensures IsElided(lang, source, more, path[j]) <==>
              IsElidable(lang, path[j]) && (NameOf(source, path[j]).Some? ==> NameOf(source, path[j]).value !in more)
      ensures IsElided(lang, source, less, path[j]) <==>
              IsElidable(lang, path[j]) && (NameOf(source, path[j]).Some? ==> NameOf(source, path[j]).value !in less)
    {
      ElidedByName(lang, source, more, path[j]);
      ElidedByName(lang, source, less, path[j]);
    }
    assert forall j | 0 <= j < |path| - 1 :: above[j] == path[j];
    assert DefinedNames(lang, source, above) <= more;
    assert forall j | 0 <= j < k :: path[..k][j] == path[..k + 1][j] == path[j];
    assert DefinedNames(lang, source, path[..k]) <= less;
    assert !PartWithin(lang, Last(path), path[k]);
  }

  /** Some position is shown under a smaller keep set and hidden under a larger one. */
  ghost predicate LosesSomething(lang: Language, source: string, root: Node, less: set<string>, more: set<string>, i: nat) {
    less <= more && Covered(Elisions(lang, source, more, root), i) && !Covered(Elisions(lang, source, less, root), i)
  }

  /** Keeping more bodies can hide something exactly if the tree has a misnested definition. */
  lemma KeepingMoreHidesExactly(lang: Language, source: string, root: Node)
    requires WellFormed(root)
    ensures (exists less, more, i :: LosesSomething(lang, source, root, less, more, i)) <==>
            (exists path, k :: Misnested(lang, source, root, path, k))
  {
    hide Covered, Elisions, WellFormed, Misnested, LostVia;
    forall less, more, i: nat | LosesSomething(lang, source, root, less, more, i)
      ensures exists path, k :: Misnested(lang, source, root, path, k)
    {
      LostExactly(lang, source, root, less, more, i);
      var path, k: nat :| LostVia(lang, source, root, less, more, i, path, k);
      LostIsMisnested(lang, source, root, less, more, i, path, k);
    }
    forall path, k: nat | Misnested(lang, source, root, path, k)
      ensures exists less, more, i :: LosesSomething(lang, source, root, less, more, i)
    {
      var less, more, i := MisnestedLoses(lang, source, root, path, k);
      LostExactly(lang, source, root, less, more, i);
      assert LosesSomething(lang, source, root, less, more, i);
    }
  }

  /** Where nested definitions lie in bodies after any docstring, none is misnested. */
  lemma TidyIsEnough(lang: Language, source: string, root: Node, path: seq<Node>, k: nat)
    requires WellFormed(root) && Tidy(lang, root)
    ensures !Misnested(lang, source, root, path, k)
  {
    hide Covered, Elisions, WellFormed, Misnested, LostVia, Tidy;
    if Misnested(lang, source, root, path, k) {
      var less, more, i := MisnestedLoses(lang, source, root, path, k);
      LostExactly(lang, source, root, less, more, i);
      KeepingMoreShowsMore(lang, source, root, less, more, i);
    }
  }

  /** For the radius: a position is hidden at `q` and shown at a smaller `r` exactly if a definition more
      than `q` references away holds it, all definitions around that one are within `q`, and the
      outermost of these that is not within `r` does not elide the position. */
  lemma LargerRadiusHidesExactly(lang: Language, source: string, root: Node, target: string, r: nat, q: nat, i: nat)
    requires WellFormed(root) && r <= q
    ensures var less, more := KeptWithin(lang, source, root, target, r), KeptWithin(lang, source, root, target, q);
            Covered(Elisions(lang, source, more, root), i) && !Covered(Elisions(lang, source, less, root), i) <==>
            exists path, k :: LostVia(lang, source, root, less, more, i, path, k)
  {
    hide Covered, Elisions, WellFormed, LostVia, Names, Ball, Seeds, GraphOf;
    NamesGrow(GraphOf(lang, source, root), target, r, q);
    LostExactly(lang, source, root, KeptWithin(lang, source, root, target, r), KeptWithin(lang, source, root, target, q), i);
  }
}
