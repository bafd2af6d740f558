/** File skeletons: signatures kept, the bodies of definitions replaced by a placeholder. */
module Skeleton {
  import opened Strings
  import opened Protocol
  import opened SymbolGraph
  import opened SyntaxTree
  import opened Reach

  /** The text from `start` up to `end` gives way to `replacement`. */
  datatype Elision = Elision(start: nat, end: nat, replacement: string)

  // ----- what is elided -----

  function Body(n: Node): Option<Node> {
    ChildByField(n, "body")
  }

  predicate IsElidable(lang: Language, n: Node) {
    n.kind in lang.defKinds && Body(n).Some?
  }

  predicate IsKept(source: string, n: Node, keep: set<string>) {
    match ChildByField(n, "name") case Some(m) => SyntaxTree.Text(source, m) in keep case None => false
  }

  function FirstNamed(nodes: seq<Node>): (c: Option<Node>)
    ensures c.Some? ==> c.value in nodes
  {
    if nodes == [] then None else if nodes[0].named then Some(nodes[0]) else FirstNamed(nodes[1..])
  }

  /** The end of a bare string statement that opens the body. */
  function DocstringEnd(body: Node): Option<nat> {
    match FirstNamed(body.children)
    case None => None
    case Some(first) =>
      if first.kind != "expression_statement" then None
      else match FirstNamed(first.children)
           case Some(inner) => if inner.kind == "string" then Some(first.end) else None
           case None => None
  }

  function LineStart(source: string, at: nat): (p: nat)
    requires at <= |source|
    ensures p <= at && '\n' !in source[p..at] && (p == 0 || source[p - 1] == '\n')
  {
    if at == 0 || source[at - 1] == '\n' then at
    else
      var p := LineStart(source, at - 1);
      assert source[p..at] == source[p..at - 1] + [source[at - 1]];
      p
  }

  /** The text between the start of the line and `at`. */
  function LineIndent(source: string, at: nat): string {
    if at <= |source| then source[LineStart(source, at)..at] else ""
  }

  /** Where the elided part of a body begins: after its docstring in a language that keeps those. */
  function ElidedFrom(lang: Language, body: Node): nat {
    if lang.keepsDocstring && DocstringEnd(body).Some? then DocstringEnd(body).value else body.start
  }

  function BodyElision(lang: Language, source: string, body: Node): seq<Elision> {
    if lang.keepsDocstring && DocstringEnd(body).Some? then
      if DocstringEnd(body).value < body.end then
        [Elision(DocstringEnd(body).value, body.end, "\n" + LineIndent(source, body.start) + lang.elision)]
      else []
    else [Elision(body.start, body.end, lang.elision)]
  }

  predicate IsElided(lang: Language, source: string, keep: set<string>, n: Node) {
    IsElidable(lang, n) && !IsKept(source, n, keep)
  }

  /** Nested definitions go with an elided body and are looked for in a kept one. */
  function Elisions(lang: Language, source: string, keep: set<string>, n: Node): seq<Elision> {
    if IsElided(lang, source, keep, n) then BodyElision(lang, source, Body(n).value)
    else ElisionsOf(lang, source, keep, n.children)
  }

  function ElisionsOf(lang: Language, source: string, keep: set<string>, nodes: seq<Node>): seq<Elision> {
    if nodes == [] then [] else Elisions(lang, source, keep, nodes[0]) + ElisionsOf(lang, source, keep, nodes[1..])
  }

  lemma {:induction false} ElisionsOfAppend(lang: Language, source: string, keep: set<string>, a: seq<Node>, b: seq<Node>)
    ensures ElisionsOf(lang, source, keep, a + b) == ElisionsOf(lang, source, keep, a) + ElisionsOf(lang, source, keep, b)
  {
    hide Elisions;
    if a == [] {
      assert a + b == b;
    } else {
      ElisionsOfAppend(lang, source, keep, a[1..], b);
      Regroup(Elisions(lang, source, keep, a[0]), ElisionsOf(lang, source, keep, a[1..]), ElisionsOf(lang, source, keep, b));
      assert (a + b)[1..] == a[1..] + b;
    }
  }

  lemma ElisionsOfNext(lang: Language, source: string, keep: set<string>, nodes: seq<Node>, i: nat)
    requires i < |nodes|
    ensures ElisionsOf(lang, source, keep, nodes[..i + 1]) ==
            ElisionsOf(lang, source, keep, nodes[..i]) + Elisions(lang, source, keep, nodes[i])
  {
    hide Elisions;
    assert nodes[..i + 1] == nodes[..i] + [nodes[i]];
    ElisionsOfAppend(lang, source, keep, nodes[..i], [nodes[i]]);
    assert ElisionsOf(lang, source, keep, [nodes[i]]) == Elisions(lang, source, keep, nodes[i]) + ElisionsOf(lang, source, keep, []);
  }

  /** The elisions found so far. */
  class ElisionList {
    var items: seq<Elision>

    constructor ()
      ensures items == []
    {
      items := [];
    }

    method CollectBodyElisions(lang: Language, source: string, keep: set<string>, n: Node)
      modifies this
      ensures items == old(items) + Elisions(lang, source, keep, n)
      decreases n
    {
      hide DocstringEnd, LineIndent, ElisionsOf;
      if n.kind in lang.defKinds && !IsKept(source, n, keep) {
        var body := Body(n);
        if body.Some? {
          if lang.keepsDocstring {
            var docEnd := DocstringEnd(body.value);
            if docEnd.Some? {
              if docEnd.value < body.value.end {
                items := items + [Elision(docEnd.value, body.value.end, "\n" + LineIndent(source, body.value.start) + lang.elision)];
              }
              return;
            }
          }
          items := items + [Elision(body.value.start, body.value.end, lang.elision)];
          return;
        }
      }
      NoElisions(lang, source, keep);
      for i := 0 to |n.children|
        invariant items == old(items) + ElisionsOf(lang, source, keep, n.children[..i])
      {
        ElisionsOfNext(lang, source, keep, n.children, i);
        CollectBodyElisions(lang, source, keep, n.children[i]);
      }
      assert n.children[..|n.children|] == n.children;
    }
  }

  lemma NoElisions(lang: Language, source: string, keep: set<string>)
    ensures ElisionsOf(lang, source, keep, []) == []
  {
  }

  // ----- positions in a tree -----

  lemma {:induction false} NodeOfChild(nodes: seq<Node>, m: Node)
    ensures m in NodesOf(nodes) <==> exists j | 0 <= j < |nodes| :: m in Nodes(nodes[j])
  {
    hide Nodes;
    if nodes != [] {
      NodeOfChild(nodes[1..], m);
      if m in NodesOf(nodes[1..]) {
        var j :| 0 <= j < |nodes[1..]| && m in Nodes(nodes[1..][j]);
        assert m in Nodes(nodes[j + 1]);
      }
      forall j | 0 <= j < |nodes| && m in Nodes(nodes[j])
        ensures m in NodesOf(nodes)
      {
        if j > 0 {
          assert nodes[1..][j - 1] == nodes[j];
        }
      }
    }
  }

  lemma {:induction false} ChildWithin(nodes: seq<Node>, from: nat, to: nat, j: nat)
    requires InOrder(nodes, from, to) && j < |nodes|
    ensures WellFormed(nodes[j]) && from <= nodes[j].start <= nodes[j].end <= to
  {
    hide WellFormed;
    if j > 0 {
      ChildWithin(nodes[1..], nodes[0].end, to, j - 1);
      assert WellFormed(nodes[0]) ==> nodes[0].start <= nodes[0].end by { WellFormedRange(nodes[0]); }
    } else {
      OrderGivesEnd(nodes[1..], nodes[0].end, to);
      WellFormedRange(nodes[0]);
    }
  }

  lemma WellFormedRange(n: Node)
    ensures WellFormed(n) ==> n.start <= n.end
  {
  }

  lemma {:induction false} OrderGivesEnd(nodes: seq<Node>, from: nat, to: nat)
    requires InOrder(nodes, from, to)
    ensures from <= to
  {
    hide WellFormed;
    if nodes != [] {
      OrderGivesEnd(nodes[1..], nodes[0].end, to);
      WellFormedRange(nodes[0]);
    }
  }

  lemma ChildInParent(n: Node, c: Node)
    requires WellFormed(n) && c in n.children
    ensures WellFormed(c) && n.start <= c.start <= c.end <= n.end
  {
    var j :| 0 <= j < |n.children| && n.children[j] == c;
    ChildWithin(n.children, n.start, n.end, j);
  }

  lemma {:induction false} NodeWithin(n: Node, m: Node)
    requires WellFormed(n) && m in Nodes(n)
    ensures WellFormed(m) && n.start <= m.start <= m.end <= n.end
    decreases n
  {
    if m != n {
      NodeOfChild(n.children, m);
      var j :| 0 <= j < |n.children| && m in Nodes(n.children[j]);
      ChildInParent(n, n.children[j]);
      NodeWithin(n.children[j], m);
    }
  }

  /** The elided part of a body is its own tail. */
  lemma ElidedWithinBody(lang: Language, n: Node)
    requires WellFormed(n) && IsElidable(lang, n)
    ensures var b := Body(n).value; n.start <= b.start <= ElidedFrom(lang, b) <= b.end <= n.end && WellFormed(b)
  {
    var b := Body(n).value;
    ChildInParent(n, b);
    if DocstringEnd(b).Some? {
      ChildInParent(b, FirstNamed(b.children).value);
    }
  }

  // ----- the elided ranges do not overlap -----

  /** Every definition opens with something other than its body. */
  predicate HeadersComeFirst(lang: Language, n: Node) {
    forall m | m in Nodes(n) :: IsElidable(lang, m) ==> m.start < Body(m).value.start
  }

  /** Ranges in ascending order, each strictly after the one before. */
  predicate Disjoint(es: seq<Elision>, from: nat, to: nat) {
    if es == [] then from <= to
    else from < es[0].start <= es[0].end && Disjoint(es[1..], es[0].end, to)
  }

  lemma {:induction false} DisjointAppend(a: seq<Elision>, b: seq<Elision>, from: nat, mid: nat, to: nat)
    requires Disjoint(a, from, mid) && Disjoint(b, mid, to)
    ensures Disjoint(a + b, from, to)
    decreases |a|
  {
    if a == [] {
      assert a + b == b;
      DisjointWider(b, mid, to, from, to);
    } else {
      DisjointAppend(a[1..], b, a[0].end, mid, to);
      assert (a + b)[1..] == a[1..] + b;
    }
  }

  lemma {:induction false} DisjointWider(a: seq<Elision>, from: nat, to: nat, low: nat, high: nat)
    requires Disjoint(a, from, to) && low <= from && to <= high
    ensures Disjoint(a, low, high)
    decreases |a|
  {
    if a != [] {
      DisjointWider(a[1..], a[0].end, to, a[0].end, high);
    }
  }

  lemma HeadersBelow(lang: Language, n: Node, c: Node)
    requires HeadersComeFirst(lang, n) && c in n.children
    ensures HeadersComeFirst(lang, c)
  {
    hide IsElidable;
    forall m | m in Nodes(c)
      ensures m in Nodes(n)
    {
      BelowChild(n, c, m);
    }
  }

  lemma BelowChild(n: Node, c: Node, m: Node)
    requires c in n.children && m in Nodes(c)
    ensures m in Nodes(n)
  {
    NodeOfChild(n.children, m);
    var j :| 0 <= j < |n.children| && n.children[j] == c;
    assert m in Nodes(n.children[j]);
  }

  /** Whatever is kept, the elided ranges are disjoint and in order. */
  lemma {:induction false} ElisionsDisjoint(lang: Language, source: string, keep: set<string>, n: Node)
    requires WellFormed(n) && HeadersComeFirst(lang, n)
    ensures Disjoint(Elisions(lang, source, keep, n), n.start, n.end)
    decreases n
  {
    if IsElided(lang, source, keep, n) {
      ElidedWithinBody(lang, n);
      assert n in Nodes(n);
      BodyElisionDisjoint(lang, source, n);
    } else {
      forall c | c in n.children
        ensures HeadersComeFirst(lang, c)
      {
        HeadersBelow(lang, n, c);
      }
      ChildElisionsDisjoint(lang, source, keep, n.children, n.start, n.end);
    }
  }

  lemma BodyElisionDisjoint(lang: Language, source: string, n: Node)
    requires WellFormed(n) && IsElidable(lang, n) && n.start < Body(n).value.start
    ensures Disjoint(BodyElision(lang, source, Body(n).value), n.start, n.end)
  {
    ElidedWithinBody(lang, n);
    var es := BodyElision(lang, source, Body(n).value);
    if es != [] {
      assert es[1..] == [];
    }
  }

  lemma {:induction false} ChildElisionsDisjoint(lang: Language, source: string, keep: set<string>, nodes: seq<Node>, from: nat, to: nat)
    requires InOrder(nodes, from, to) && forall c | c in nodes :: HeadersComeFirst(lang, c)
    ensures Disjoint(ElisionsOf(lang, source, keep, nodes), from, to)
    decreases nodes
  {
    hide HeadersComeFirst, Elisions;
    if nodes != [] {
      var es := Elisions(lang, source, keep, nodes[0]);
      ElisionsDisjoint(lang, source, keep, nodes[0]);
      DisjointWider(es, nodes[0].start, nodes[0].end, from, nodes[0].end);
      ChildElisionsDisjoint(lang, source, keep, nodes[1..], nodes[0].end, to);
      DisjointAppend(es, ElisionsOf(lang, source, keep, nodes[1..]), from, nodes[0].end, to);
    }
  }

  // ----- splicing -----

  /** The text from `from` on, rewritten from left to right. */
  function Rewrite(source: string, from: nat, es: seq<Elision>): string
    requires Disjoint(es, from, |source|)
    decreases |es|
  {
    if es == [] then source[from..]
    else
      DisjointEnds(es[1..], es[0].end, |source|);
      source[from..es[0].start] + es[0].replacement + Rewrite(source, es[0].end, es[1..])
  }

  lemma {:induction false} DisjointEnds(es: seq<Elision>, from: nat, to: nat)
    requires Disjoint(es, from, to)
    ensures from <= to
    decreases |es|
  {
    if es != [] {
      DisjointEnds(es[1..], es[0].end, to);
    }
  }

  predicate Descending(es: seq<Elision>) {
    forall i, j | 0 <= i < j < |es| :: es[i].start >= es[j].start
  }

  /** Sort by descending start, as the standard library would. */
  method SortDescending(es: seq<Elision>) returns (sorted: seq<Elision>)
    ensures multiset(sorted) == multiset(es) && Descending(sorted)
  {
    sorted := [];
    for i := 0 to |es|
      invariant multiset(sorted) == multiset(es[..i]) && Descending(sorted)
    {
      sorted := InsertDescending(sorted, es[i]);
      assert es[..i + 1] == es[..i] + [es[i]];
    }
    assert es[..|es|] == es;
  }

  method InsertDescending(es: seq<Elision>, e: Elision) returns (r: seq<Elision>)
    requires Descending(es)
    ensures multiset(r) == multiset(es) + multiset{e} && Descending(r)
  {
    var k := 0;
    while k < |es| && es[k].start >= e.start
      invariant k <= |es| && forall i | 0 <= i < k :: es[i].start >= e.start
    {
      k := k + 1;
    }
    r := es[..k] + [e] + es[k..];
    InsertedOne(es, e, k);
  }

  lemma InsertedOne(es: seq<Elision>, e: Elision, k: nat)
    requires Descending(es) && k <= |es|
    requires (forall i | 0 <= i < k :: es[i].start >= e.start) && (k < |es| ==> es[k].start < e.start)
    ensures var r := es[..k] + [e] + es[k..]; multiset(r) == multiset(es) + multiset{e} && Descending(r)
  {
    var r := es[..k] + [e] + es[k..];
    InsertedMembers(es, e, k);
    forall i, j | 0 <= i < j < |r|
      ensures r[i].start >= r[j].start
    {
      InsertedIndex(es, e, k, i);
      InsertedIndex(es, e, k, j);
    }
  }

  lemma InsertedMembers(es: seq<Elision>, e: Elision, k: nat)
    requires k <= |es|
    ensures multiset(es[..k] + [e] + es[k..]) == multiset(es) + multiset{e}
  {
    assert es == es[..k] + es[k..];
  }

  lemma InsertedIndex(es: seq<Elision>, e: Elision, k: nat, i: nat)
    requires k <= |es| && i <= |es|
    ensures (es[..k] + [e] + es[k..])[i] == if i < k then es[i] else if i == k then e else es[i - 1]
  {
  }

  function Reversed(es: seq<Elision>): (r: seq<Elision>)
    ensures |r| == |es| && forall i | 0 <= i < |es| :: r[i] == es[|es| - 1 - i]
  {
    seq(|es|, i requires 0 <= i < |es| => es[|es| - 1 - i])
  }

  predicate Ascending(es: seq<Elision>) {
    forall i, j | 0 <= i < j < |es| :: es[i].start < es[j].start
  }

  lemma {:induction false} DisjointAscends(es: seq<Elision>, from: nat, to: nat)
    requires Disjoint(es, from, to)
    ensures Ascending(es) && forall i | 0 <= i < |es| :: from < es[i].start <= es[i].end <= to
    decreases |es|
  {
    if es != [] {
      DisjointAscends(es[1..], es[0].end, to);
      DisjointEnds(es[1..], es[0].end, to);
      forall i | 0 <= i < |es|
        ensures from < es[i].start <= es[i].end <= to && (i > 0 ==> es[0].end < es[i].start)
      {
        if i > 0 {
          assert es[i] == es[1..][i - 1];
        }
      }
      forall i, j | 0 <= i < j < |es|
        ensures es[i].start < es[j].start
      {
        if i > 0 {
          assert es[i] == es[1..][i - 1] && es[j] == es[1..][j - 1];
        }
      }
    }
  }

  /** There is only one way to sort distinct starts. */
  lemma {:induction false} SortingReverses(es: seq<Elision>, sorted: seq<Elision>)
    requires Ascending(es) && Descending(sorted) && multiset(sorted) == multiset(es)
    ensures sorted == Reversed(es)
    decreases |es|
  {
    hide Ascending, Descending, Reversed;
    assert |sorted| == |es| by { assert |multiset(sorted)| == |multiset(es)|; }
    if es != [] {
      var n := |es| - 1;
      LargestFirst(es, sorted);
      assert es == es[..n] + [es[n]] && sorted == [es[n]] + sorted[1..];
      WithoutOne(es[..n], sorted[1..], es[n]);
      SortedParts(es, sorted);
      SortingReverses(es[..n], sorted[1..]);
      ReversedLast(es);
    }
  }

  lemma SortedParts(es: seq<Elision>, sorted: seq<Elision>)
    requires es != [] && sorted != [] && Ascending(es) && Descending(sorted)
    ensures Ascending(es[..|es| - 1]) && Descending(sorted[1..])
  {
  }

  lemma ReversedLast(es: seq<Elision>)
    requires es != []
    ensures Reversed(es) == [es[|es| - 1]] + Reversed(es[..|es| - 1])
  {
  }

  lemma WithoutOne(a: seq<Elision>, b: seq<Elision>, e: Elision)
    ensures multiset(a + [e]) == multiset([e] + b) ==> multiset(b) == multiset(a)
  {
    assert multiset(a + [e]) == multiset(a) + multiset{e};
    assert multiset([e] + b) == multiset(b) + multiset{e};
    assert multiset(a) + multiset{e} == multiset(b) + multiset{e} ==> multiset(a) == multiset(b) by {
      Cancel(multiset(a), multiset(b), multiset{e});
    }
  }

  lemma Cancel(a: multiset<Elision>, b: multiset<Elision>, c: multiset<Elision>)
    ensures a + c == b + c ==> a == b
  {
    if a + c == b + c {
      assert a + c - c == a && b + c - c == b;
    }
  }

  lemma LargestFirst(es: seq<Elision>, sorted: seq<Elision>)
    requires es != [] && |sorted| == |es|
    requires Ascending(es) && Descending(sorted) && multiset(sorted) == multiset(es)
    ensures sorted[0] == es[|es| - 1]
  {
    var last := es[|es| - 1];
    assert last in multiset(es);
    assert last in multiset(sorted);
    var k :| 0 <= k < |sorted| && sorted[k] == last;
    assert sorted[0] in multiset(sorted);
    assert sorted[0] in multiset(es);
    var j :| 0 <= j < |es| && es[j] == sorted[0];
    assert k == 0 || sorted[0].start >= sorted[k].start;
    OnlyLastIsLargest(es, j);
  }

  lemma OnlyLastIsLargest(es: seq<Elision>, j: nat)
    requires Ascending(es) && j < |es| && es[j].start >= es[|es| - 1].start
    ensures j == |es| - 1
  {
  }

  lemma RewriteFromEarlier(source: string, low: nat, from: nat, es: seq<Elision>)
    requires low <= from && Disjoint(es, from, |source|)
    ensures Disjoint(es, low, |source|)
    ensures from <= |source| && Rewrite(source, low, es) == source[low..from] + Rewrite(source, from, es)
  {
    DisjointWider(es, from, |source|, low, |source|);
    DisjointEnds(es, from, |source|);
    if es == [] {
      assert source[low..] == source[low..from] + source[from..];
    } else {
      DisjointEnds(es[1..], es[0].end, |source|);
      Pieces(source, low, from, es[0].start);
      Regroup4(source[low..from], source[from..es[0].start], es[0].replacement, Rewrite(source, es[0].end, es[1..]));
    }
  }

  lemma Pieces(source: string, low: nat, mid: nat, high: nat)
    requires low <= mid <= high <= |source|
    ensures source[low..high] == source[low..mid] + source[mid..high]
  {
  }

  lemma Regroup4(a: string, b: string, c: string, d: string)
    ensures (a + b) + c + d == a + (b + c + d)
  {
  }

  lemma {:induction false} DisjointSuffix(es: seq<Elision>, from: nat, to: nat, k: nat)
    requires Disjoint(es, from, to) && k < |es|
    ensures es[k].start <= es[k].end && Disjoint(es[k + 1..], es[k].end, to) && Disjoint(es[k..], from, to)
    decreases |es|
  {
    if k == 0 {
      assert es[0..] == es;
    } else {
      DisjointSuffix(es[1..], es[0].end, to, k - 1);
      assert es[1..][k - 1] == es[k] && es[1..][k..] == es[k + 1..] && es[1..][k - 1..] == es[k..];
      DisjointWider(es[k..], es[0].end, to, from, to);
    }
  }

  /** Replacing the last unspliced range of a text whose later ranges are already spliced. */
  lemma SpliceOne(source: string, es: seq<Elision>, k: nat)
    requires Disjoint(es, 0, |source|) && k < |es|
    ensures Disjoint(es[k..], 0, |source|) && Disjoint(es[k + 1..], 0, |source|)
    ensures var out := Rewrite(source, 0, es[k + 1..]);
            es[k].start <= es[k].end <= |out| && out[..es[k].start] + es[k].replacement + out[es[k].end..] == Rewrite(source, 0, es[k..])
  {
    hide Disjoint;
    DisjointSuffix(es, 0, |source|, k);
    var e, rest := es[k], es[k + 1..];
    RewriteFromEarlier(source, 0, e.end, rest);
    assert es[k..][0] == e && es[k..][1..] == rest;
    var tail := Rewrite(source, e.end, rest);
    CutAtEnd(source, tail, e.start, e.end);
  }

  lemma CutAtEnd(source: string, tail: string, start: nat, end: nat)
    requires start <= end <= |source|
    ensures (source[0..end] + tail)[..start] == source[0..start] && (source[0..end] + tail)[end..] == tail
  {
  }

  /** `skeletonize`: splice from right to left, so that earlier positions stay valid. */
  method Splice(source: string, es: seq<Elision>) returns (out: string)
    requires Disjoint(es, 0, |source|)
    ensures out == Rewrite(source, 0, es)
  {
    hide Rewrite, Disjoint;
    var sorted := SortDescending(es);
    DisjointAscends(es, 0, |source|);
    SortingReverses(es, sorted);
    out := source;
    NothingSpliced(source, es);
    for i := 0 to |sorted|
      invariant Disjoint(es[|es| - i..], 0, |source|) && out == Rewrite(source, 0, es[|es| - i..])
    {
      var e := sorted[i];
      SpliceOne(source, es, |es| - 1 - i);
      out := out[..e.start] + e.replacement + out[e.end..];
    }
    assert es[0..] == es;
  }

  lemma NothingSpliced(source: string, es: seq<Elision>)
    ensures Disjoint(es[|es|..], 0, |source|) && source == Rewrite(source, 0, es[|es|..])
  {
  }

  /** The skeleton of a parsed source. */
  function Skeletonized(lang: Language, source: string, root: Node, keep: set<string>): string
    requires WellFormed(root) && HeadersComeFirst(lang, root) && root.end <= |source|
  {
    RootDisjoint(lang, source, root, keep);
    Rewrite(source, 0, Elisions(lang, source, keep, root))
  }

  lemma RootDisjoint(lang: Language, source: string, root: Node, keep: set<string>)
    requires WellFormed(root) && HeadersComeFirst(lang, root) && root.end <= |source|
    ensures Disjoint(Elisions(lang, source, keep, root), 0, |source|)
  {
    hide Elisions, HeadersComeFirst, WellFormed;
    ElisionsDisjoint(lang, source, keep, root);
    DisjointWider(Elisions(lang, source, keep, root), root.start, root.end, 0, |source|);
  }

  /** A source that does not parse is returned unchanged. */
  method Skeletonize(lang: Language, source: string, tree: Option<Node>, keep: set<string>) returns (out: string)
    requires tree.Some? ==> WellFormed(tree.value) && HeadersComeFirst(lang, tree.value) && tree.value.end <= |source|
    ensures tree.None? ==> out == source
    ensures tree.Some? ==> out == Skeletonized(lang, source, tree.value, keep)
  {
    hide Elisions, HeadersComeFirst, WellFormed, Rewrite, Disjoint;
    if tree.None? {
      return source;
    }
    var elisions := new ElisionList();
    elisions.CollectBodyElisions(lang, source, keep, tree.value);
    RootDisjoint(lang, source, tree.value, keep);
    assert [] + Elisions(lang, source, keep, tree.value) == Elisions(lang, source, keep, tree.value);
    out := Splice(source, elisions.items);
  }
}
