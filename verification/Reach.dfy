/** Radius-bounded search over the reference graph. */
module Reach {
  import opened SymbolGraph

  function Successors(g: Graph, s: Symbol): set<Symbol> {
    if s in g.edges then g.edges[s] else {}
  }

  /** The number of files searched for seeds: an empty graph still has one. */
  function Files(g: Graph): nat {
    if g.fileCount == 0 then 1 else g.fileCount
  }

  /** Every defined symbol of that name, or the bare name if there is none. */
  function Seeds(g: Graph, target: string): set<Symbol> {
    var found := SeedsBelow(g, target, Files(g));
    if found == {} then {Symbol(0, target)} else found
  }

  function SeedsBelow(g: Graph, target: string, n: nat): set<Symbol> {
    set f: nat | 0 <= f < n && Symbol(f, target) in g.edges :: Symbol(f, target)
  }

  function OneHop(g: Graph, from: set<Symbol>): set<Symbol> {
    set s, t | s in from && t in Successors(g, s) :: t
  }

  /** Everything at most `r` hops away. */
  function Ball(g: Graph, seeds: set<Symbol>, r: nat): set<Symbol> {
    if r == 0 then seeds else Ball(g, seeds, r - 1) + OneHop(g, Ball(g, seeds, r - 1))
  }

  ghost predicate IsPath(g: Graph, path: seq<Symbol>) {
    path != [] && forall i | 0 < i < |path| :: path[i] in Successors(g, path[i - 1])
  }

  /** A path of at most `r` hops from a seed to `t`. */
  ghost predicate Leads(g: Graph, seeds: set<Symbol>, r: nat, t: Symbol, path: seq<Symbol>) {
    IsPath(g, path) && path[0] in seeds && path[|path| - 1] == t && |path| <= r + 1
  }

  lemma {:induction false} PathInBall(g: Graph, seeds: set<Symbol>, r: nat, t: Symbol, path: seq<Symbol>)
    requires Leads(g, seeds, r, t, path)
    ensures t in Ball(g, seeds, r)
    decreases r
  {
    hide Successors;
    if |path| == 1 {
      BallsGrow(g, seeds, 0, r);
    } else {
      var before := path[..|path| - 1];
      PathInBall(g, seeds, r - 1, before[|before| - 1], before);
    }
  }

  lemma {:induction false} BallHasPath(g: Graph, seeds: set<Symbol>, r: nat, t: Symbol) returns (path: seq<Symbol>)
    requires t in Ball(g, seeds, r)
    ensures Leads(g, seeds, r, t, path)
    decreases r
  {
    hide Successors;
    if r == 0 {
      path := [t];
    } else if t in Ball(g, seeds, r - 1) {
      path := BallHasPath(g, seeds, r - 1, t);
    } else {
      var s :| s in Ball(g, seeds, r - 1) && t in Successors(g, s);
      path := BallHasPath(g, seeds, r - 1, s);
      path := path + [t];
    }
  }

  /** The ball of radius `r` is exactly what paths of at most `r` references lead to. */
  lemma BallIsDistance(g: Graph, seeds: set<Symbol>, r: nat, t: Symbol)
    ensures t in Ball(g, seeds, r) <==> exists path :: Leads(g, seeds, r, t, path)
  {
    hide Ball, Leads;
    if t in Ball(g, seeds, r) {
      var path := BallHasPath(g, seeds, r, t);
    }
    forall path | Leads(g, seeds, r, t, path)
      ensures t in Ball(g, seeds, r)
    {
      PathInBall(g, seeds, r, t, path);
    }
  }

  lemma {:induction false} BallsGrow(g: Graph, seeds: set<Symbol>, r: nat, q: nat)
    requires r <= q
    ensures Ball(g, seeds, r) <= Ball(g, seeds, q)
    decreases q
  {
    if r < q {
      BallsGrow(g, seeds, r, q - 1);
    }
  }

  /** Once a hop adds nothing, no further hop does. */
  lemma {:induction false} BallsSettle(g: Graph, seeds: set<Symbol>, r: nat, q: nat)
    requires r <= q && OneHop(g, Ball(g, seeds, r)) <= Ball(g, seeds, r)
    ensures Ball(g, seeds, q) == Ball(g, seeds, r)
    decreases q
  {
    hide OneHop;
    if r < q {
      BallsSettle(g, seeds, r, q - 1);
    }
  }

  // ----- the search -----

  /** Add what the frontier refers to; `next` is what is new. */
  method Expand(g: Graph, visited0: set<Symbol>, frontier: seq<Symbol>) returns (visited: set<Symbol>, next: seq<Symbol>)
    ensures forall t :: t in visited <==> t in visited0 || exists i | 0 <= i < |frontier| :: t in Successors(g, frontier[i])
    ensures forall t :: t in next <==> t in visited && t !in visited0
  {
    visited, next := visited0, [];
    for k := 0 to |frontier|
      invariant forall t :: t in visited <==> t in visited0 || exists i | 0 <= i < k :: t in Successors(g, frontier[i])
      invariant forall t :: t in next <==> t in visited && t !in visited0
    {
      visited, next := AddAll(visited0, visited, next, Successors(g, frontier[k]));
    }
  }

  method AddAll(ghost visited0: set<Symbol>, visited1: set<Symbol>, next1: seq<Symbol>, refs: set<Symbol>)
    returns (visited: set<Symbol>, next: seq<Symbol>)
    requires visited0 <= visited1 && forall t :: t in next1 <==> t in visited1 && t !in visited0
    ensures visited == visited1 + refs
    ensures forall t :: t in next <==> t in visited && t !in visited0
  {
    visited, next := visited1, next1;
    var rest := refs;
    while rest != {}
      invariant rest <= refs && visited == visited1 + (refs - rest)
      invariant forall t :: t in next <==> t in visited && t !in visited0
      decreases |rest|
    {
      var r :| r in rest;
      rest := rest - {r};
      if r !in visited {
        visited, next := visited + {r}, next + [r];
      }
    }
  }

  /** Everything visited before the last hop has had its references followed. */
  ghost predicate Followed(g: Graph, visited: set<Symbol>, frontier: seq<Symbol>) {
    && (forall t | t in frontier :: t in visited)
    && (forall s, t | s in visited && s !in frontier && t in Successors(g, s) :: t in visited)
  }

  lemma HopIsComplete(g: Graph, before: set<Symbol>, frontier: seq<Symbol>, visited: set<Symbol>, next: seq<Symbol>)
    requires Followed(g, before, frontier)
    requires forall t :: t in visited <==> t in before || exists i | 0 <= i < |frontier| :: t in Successors(g, frontier[i])
    requires forall t :: t in next <==> t in visited && t !in before
    ensures visited == before + OneHop(g, before) && Followed(g, visited, next)
  {
    hide Successors;
    forall t
      ensures t in visited <==> t in before + OneHop(g, before)
    {
      if t in visited && t !in before {
        var i :| 0 <= i < |frontier| && t in Successors(g, frontier[i]);
        assert frontier[i] in frontier;
      }
    }
  }

  /** `reach`: breadth-first search from every symbol called `target`. */
  method Search(g: Graph, target: string, radius: nat) returns (visited: set<Symbol>)
    ensures visited == Ball(g, Seeds(g, target), radius)
  {
    hide Followed, OneHop, Successors;
    visited := {};
    var frontier: seq<Symbol> := [];
    for f := 0 to Files(g)
      invariant visited == SeedsBelow(g, target, f)
      invariant forall t :: t in frontier <==> t in visited
    {
      var s := Symbol(f, target);
      if s in g.edges && s !in visited {
        visited, frontier := visited + {s}, frontier + [s];
      }
    }
    if visited == {} {
      visited := {Symbol(0, target)};
    }
    SeedsFollowed(g, target, visited, frontier);
    for i := 0 to radius
      invariant visited == Ball(g, Seeds(g, target), i)
      invariant Followed(g, visited, frontier)
    {
      ghost var before := visited;
      var next;
      visited, next := Expand(g, visited, frontier);
      HopIsComplete(g, before, frontier, visited, next);
      if next == [] {
        assert visited == before;
        BallsSettle(g, Seeds(g, target), i, radius);
        return;
      }
      frontier := next;
    }
  }

  lemma SeedsFollowed(g: Graph, target: string, visited: set<Symbol>, frontier: seq<Symbol>)
    requires visited == Seeds(g, target)
    requires forall t :: t in frontier <==> t in SeedsBelow(g, target, Files(g))
    ensures Followed(g, visited, frontier)
  {
    FirstFileIsSearched(g, target);
  }

  lemma FirstFileIsSearched(g: Graph, target: string)
    ensures Symbol(0, target) in g.edges ==> Symbol(0, target) in SeedsBelow(g, target, Files(g))
  {
  }

  // ----- names within a radius -----

  function Names(symbols: set<Symbol>): set<string> {
    set s | s in symbols :: s.name
  }

  function NamesIn(symbols: set<Symbol>, f: nat): set<string> {
    set s | s in symbols && s.file == f :: s.name
  }

  method NeighborsWithin(g: Graph, target: string, radius: nat) returns (names: set<string>)
    ensures names == Names(Ball(g, Seeds(g, target), radius))
  {
    var reached := Search(g, target, radius);
    names := set s | s in reached :: s.name;
  }

  /** The names to keep, file by file. */
  method NeighborsWithinByFile(g: Graph, target: string, radius: nat) returns (perFile: seq<set<string>>)
    ensures |perFile| == Files(g)
    ensures forall f | 0 <= f < |perFile| :: perFile[f] == NamesIn(Ball(g, Seeds(g, target), radius), f)
  {
    hide Ball, Seeds;
    var reached := Search(g, target, radius);
    perFile := seq(Files(g), _ => {});
    var rest := reached;
    while rest != {}
      invariant rest <= reached && |perFile| == Files(g)
      invariant forall f | 0 <= f < |perFile| :: perFile[f] == NamesIn(reached - rest, f)
      decreases |rest|
    {
      var s :| s in rest;
      ghost var seen := reached - rest;
      rest := rest - {s};
      assert reached - rest == seen + {s};
      if s.file < |perFile| {
        perFile := perFile[s.file := perFile[s.file] + {s.name}];
      }
      forall f | 0 <= f < |perFile|
        ensures perFile[f] == NamesIn(seen + {s}, f)
      {
        NamesOneMore(seen, s, f);
      }
    }
    assert reached - rest == reached;
  }

  lemma NamesOneMore(symbols: set<Symbol>, s: Symbol, f: nat)
    ensures NamesIn(symbols + {s}, f) == NamesIn(symbols, f) + if s.file == f then {s.name} else {}
  {
  }

  /** Radius zero is the target itself. */
  lemma RadiusZeroIsTheTarget(g: Graph, target: string)
    ensures Names(Ball(g, Seeds(g, target), 0)) == {target}
  {
    var seeds := Seeds(g, target);
    assert seeds != {};
    var s :| s in seeds;
    assert s.name in Names(seeds);
  }

  /** A larger radius keeps every name a smaller one keeps. */
  lemma NamesGrow(g: Graph, target: string, r: nat, q: nat)
    requires r <= q
    ensures Names(Ball(g, Seeds(g, target), r)) <= Names(Ball(g, Seeds(g, target), q))
  {
    BallsGrow(g, Seeds(g, target), r, q);
  }

  /** In a linked graph every reached symbol other than a bare target is defined, so the file-by-file
      names together are all the names. */
  lemma {:induction false} ReachedAreDefined(files: seq<FileInfo>, target: string, r: nat, s: Symbol)
    requires s in Ball(Linked(files), Seeds(Linked(files), target), r)
    ensures IsDefiner(files, s.file, s.name) || s == Symbol(0, target)
    ensures s.file < Files(Linked(files))
    decreases r
  {
    hide IsDefiner, Edges, NarrowedCount;
    var g := Linked(files);
    var seeds := Seeds(g, target);
    if r == 0 {
      if s in g.edges {
        EdgeSources(files, s);
      }
      SeedOrTarget(g, target, s);
      InBounds(files, s);
    } else if s in Ball(g, seeds, r - 1) {
      ReachedAreDefined(files, target, r - 1, s);
    } else {
      var t :| t in Ball(g, seeds, r - 1) && s in Successors(g, t);
      EdgeSources(files, t);
      EdgeMeans(files, t, s);
      InBounds(files, s);
    }
  }

  lemma SeedOrTarget(g: Graph, target: string, s: Symbol)
    requires s in Seeds(g, target)
    ensures s in g.edges || s == Symbol(0, target)
  {
  }

  lemma InBounds(files: seq<FileInfo>, s: Symbol)
    ensures IsDefiner(files, s.file, s.name) ==> s.file < |files|
  {
  }
}
