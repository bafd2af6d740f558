/** The reference graph over file-scoped symbols: how names are linked across files. */
module SymbolGraph {

  /** A symbol is its name together with the file that defines it. */
  datatype Symbol = Symbol(file: nat, name: string)

  datatype Definition = Definition(name: string, refs: set<string>)

  /** A file's definitions, with the evidence used to rank it as the target of a reference. */
  datatype FileInfo = FileInfo(pathTokens: set<string>, imports: set<string>, defs: seq<Definition>)

  datatype Graph = Graph(edges: map<Symbol, set<Symbol>>, fileCount: nat, narrowed: nat)

  // ----- what a graph should be -----

  predicate IsDefiner(files: seq<FileInfo>, f: nat, name: string) {
    f < |files| && Defines(files[f], name)
  }

  predicate DefinesWithin(info: FileInfo, name: string, n: nat)
    requires n <= |info.defs|
  {
    exists i | 0 <= i < n :: info.defs[i].name == name
  }

  predicate Defines(info: FileInfo, name: string) {
    DefinesWithin(info, name, |info.defs|)
  }

  /** How much of the target's path the imports of the referring file mention. */
  function Score(referrer: FileInfo, target: FileInfo): nat {
    |referrer.imports * target.pathTokens|
  }

  /** The file defines the name and no other definer of it scores better. */
  predicate InBestTier(files: seq<FileInfo>, from: nat, t: Symbol)
    requires from < |files|
  {
    && IsDefiner(files, t.file, t.name)
    && forall f | 0 <= f < |files| && IsDefiner(files, f, t.name) :: Score(files[from], files[f]) <= Score(files[from], files[t.file])
  }

  /** A definition in the same file wins; otherwise the best-ranked definers are meant. */
  predicate Resolves(files: seq<FileInfo>, from: nat, t: Symbol)
    requires from < |files|
  {
    if Defines(files[from], t.name) then t.file == from else InBestTier(files, from, t)
  }

  /** One of the first `n` definitions of `name` refers to something else called `target`. */
  predicate Mentions(info: FileInfo, name: string, target: string, n: nat)
    requires n <= |info.defs|
  {
    target != name && exists i | 0 <= i < n :: info.defs[i].name == name && target in info.defs[i].refs
  }

  function Symbols(files: seq<FileInfo>): set<Symbol> {
    set f, i | 0 <= f < |files| && 0 <= i < |files[f].defs| :: Symbol(f, files[f].defs[i].name)
  }

  lemma SymbolsAreDefined(files: seq<FileInfo>, s: Symbol)
    ensures s in Symbols(files) <==> IsDefiner(files, s.file, s.name)
  {
  }

  /** What the first `n` definitions of the symbol's file contribute to its edges. */
  function Targets(files: seq<FileInfo>, s: Symbol, n: nat): set<Symbol>
    requires s.file < |files| && n <= |files[s.file].defs|
  {
    set t | t in Symbols(files) && Mentions(files[s.file], s.name, t.name, n) && Resolves(files, s.file, t)
  }

  function Edges(files: seq<FileInfo>): map<Symbol, set<Symbol>> {
    map s | s in Symbols(files) :: Targets(files, s, |files[s.file].defs|)
  }

  /** Some definer of the name is passed over for a better-ranked one. */
  predicate IsNarrowed(files: seq<FileInfo>, from: nat, name: string)
    requires from < |files|
  {
    && !Defines(files[from], name)
    && exists f | 0 <= f < |files| :: IsDefiner(files, f, name) && !InBestTier(files, from, Symbol(f, name))
  }

  function NarrowedNames(files: seq<FileInfo>, from: nat, d: Definition): set<string>
    requires from < |files|
  {
    set r | r in d.refs && r != d.name && IsNarrowed(files, from, r)
  }

  function NarrowedInFile(files: seq<FileInfo>, from: nat, n: nat): nat
    requires from < |files| && n <= |files[from].defs|
  {
    if n == 0 then 0 else NarrowedInFile(files, from, n - 1) + |NarrowedNames(files, from, files[from].defs[n - 1])|
  }

  function NarrowedCount(files: seq<FileInfo>, k: nat): nat
    requires k <= |files|
  {
    if k == 0 then 0 else NarrowedCount(files, k - 1) + NarrowedInFile(files, k - 1, |files[k - 1].defs|)
  }

  function Linked(files: seq<FileInfo>): Graph {
    Graph(Edges(files), |files|, NarrowedCount(files, |files|))
  }

  // ----- the linker -----

  /** The files an index lists for a name. */
  function Listed(index: map<string, seq<nat>>, name: string): seq<nat> {
    if name in index then index[name] else []
  }

  ghost predicate IsIndex(files: seq<FileInfo>, index: map<string, seq<nat>>) {
    && (forall name, f: nat :: f in Listed(index, name) <==> IsDefiner(files, f, name))
    && (forall name | name in index :: index[name] != [])
  }

  /** Is `name` defined in `f`, as far as the first `k` files and `n` definitions of the next one tell? */
  ghost predicate DefinesBefore(files: seq<FileInfo>, f: nat, name: string, k: nat, n: nat) {
    f < |files| && (if f < k then Defines(files[f], name) else f == k && n <= |files[f].defs| && DefinesWithin(files[f], name, n))
  }

  ghost predicate IsPartialIndex(files: seq<FileInfo>, index: map<string, seq<nat>>, k: nat, n: nat) {
    && (forall name, f: nat :: f in Listed(index, name) <==> DefinesBefore(files, f, name, k, n))
    && (forall name | name in index :: index[name] != [])
  }

  /** `link`, first pass: name to the files that define it. */
  method IndexDefinitions(files: seq<FileInfo>) returns (index: map<string, seq<nat>>)
    ensures IsIndex(files, index)
  {
    index := map[];
    for f := 0 to |files|
      invariant IsPartialIndex(files, index, f, 0)
    {
      for i := 0 to |files[f].defs|
        invariant IsPartialIndex(files, index, f, i)
      {
        var name := files[f].defs[i].name;
        ghost var before := index;
        index := index[name := Listed(index, name) + [f]];
        IndexGrows(files, before, index, f, i);
      }
      FileIndexed(files, index, f);
    }
  }

  lemma IndexGrows(files: seq<FileInfo>, before: map<string, seq<nat>>, index: map<string, seq<nat>>, k: nat, n: nat)
    requires k < |files| && n < |files[k].defs| && IsPartialIndex(files, before, k, n)
    requires var name := files[k].defs[n].name; index == before[name := Listed(before, name) + [k]]
    ensures IsPartialIndex(files, index, k, n + 1)
  {
    hide Defines;
    var name := files[k].defs[n].name;
    forall other, f: nat
      ensures f in Listed(index, other) <==> DefinesBefore(files, f, other, k, n + 1)
    {
      OneMoreDefinition(files[k], other, n);
      assert f in Listed(before, other) <==> DefinesBefore(files, f, other, k, n);
    }
  }

  lemma OneMoreDefinition(info: FileInfo, name: string, n: nat)
    requires n < |info.defs|
    ensures DefinesWithin(info, name, n + 1) <==> DefinesWithin(info, name, n) || info.defs[n].name == name
  {
  }

  lemma FileIndexed(files: seq<FileInfo>, index: map<string, seq<nat>>, k: nat)
    requires k < |files| && IsPartialIndex(files, index, k, |files[k].defs|)
    ensures IsPartialIndex(files, index, k + 1, 0)
  {
    forall name, f: nat
      ensures DefinesBefore(files, f, name, k + 1, 0) <==> DefinesBefore(files, f, name, k, |files[k].defs|)
    {
    }
  }

  predicate InRange(files: seq<FileInfo>, definers: seq<nat>) {
    forall j | 0 <= j < |definers| :: definers[j] < |files|
  }

  /** A definer that no other definer outscores. */
  predicate IsTop(files: seq<FileInfo>, from: nat, definers: seq<nat>, f: nat)
    requires from < |files| && InRange(files, definers)
  {
    && f in definers
    && forall j | 0 <= j < |definers| :: Score(files[from], files[definers[j]]) <= Score(files[from], files[f])
  }

  /** The highest score of any definer. */
  method BestScore(files: seq<FileInfo>, from: nat, definers: seq<nat>) returns (best: nat)
    requires from < |files| && definers != [] && InRange(files, definers)
    ensures exists f | f in definers :: Score(files[from], files[f]) == best
    ensures forall f | f in definers :: Score(files[from], files[f]) <= best
  {
    hide Score;
    best := Score(files[from], files[definers[0]]);
    for i := 0 to |definers|
      invariant exists f | f in definers :: Score(files[from], files[f]) == best
      invariant forall j | 0 <= j < i :: Score(files[from], files[definers[j]]) <= best
    {
      if Score(files[from], files[definers[i]]) > best {
        best := Score(files[from], files[definers[i]]);
      }
    }
  }

  /** The definers that score highest; with no evidence they all tie. */
  method BestTier(files: seq<FileInfo>, from: nat, definers: seq<nat>) returns (kept: seq<nat>)
    requires from < |files| && definers != [] && InRange(files, definers)
    ensures forall f :: f in kept <==> IsTop(files, from, definers, f)
    ensures |kept| <= |definers|
    ensures |kept| == |definers| <==> forall f | f in definers :: IsTop(files, from, definers, f)
  {
    hide Score;
    var best := BestScore(files, from, definers);
    kept := [];
    for i := 0 to |definers|
      invariant forall f :: f in kept <==> f in definers[..i] && f < |files| && Score(files[from], files[f]) == best
      invariant |kept| <= i && (|kept| == i <==> forall j | 0 <= j < i :: Score(files[from], files[definers[j]]) == best)
    {
      assert definers[..i + 1] == definers[..i] + [definers[i]];
      if Score(files[from], files[definers[i]]) == best {
        kept := kept + [definers[i]];
      }
    }
    assert definers[..|definers|] == definers;
  }

  /** The symbols that the given names mean in a file. */
  function ResolvedNames(files: seq<FileInfo>, from: nat, names: set<string>): set<Symbol>
    requires from < |files|
  {
    set t | t in Symbols(files) && t.name in names && Resolves(files, from, t)
  }

  lemma ResolvedTogether(files: seq<FileInfo>, from: nat, names: set<string>, more: set<string>)
    requires from < |files|
    ensures ResolvedNames(files, from, names + more) == ResolvedNames(files, from, names) + ResolvedNames(files, from, more)
  {
    hide Symbols, Resolves;
  }

  /** Resolve one reference of a file. */
  method ResolveName(files: seq<FileInfo>, index: map<string, seq<nat>>, local: set<string>, from: nat, r: string)
    returns (found: set<Symbol>, dropped: bool)
    requires from < |files| && IsIndex(files, index)
    requires forall name :: name in local <==> Defines(files[from], name)
    ensures found == ResolvedNames(files, from, {r})
    ensures dropped <==> IsNarrowed(files, from, r)
  {
    hide Defines, Score, Symbols, Resolves, IsNarrowed, ResolvedNames, IsTop;
    if r in local {
      LocalWins(files, from, r);
      found, dropped := {Symbol(from, r)}, false;
    } else if r in index {
      IndexedInRange(files, index, r);
      var kept := BestTier(files, from, index[r]);
      KeptAreResolved(files, index, from, r, kept);
      found, dropped := set f | f in kept :: Symbol(f, r), |kept| < |index[r]|;
    } else {
      Undefined(files, index, from, r);
      found, dropped := {}, false;
    }
  }

  /** The references of a definition that are not left to resolve. */
  function Seen(d: Definition, rest: set<string>): set<string> {
    d.refs - rest - {d.name}
  }

  function CountedIn(names: set<string>, rest: set<string>): nat {
    |names - rest|
  }

  lemma SeenOneMore(d: Definition, names: set<string>, rest: set<string>, r: string)
    requires r in rest && rest <= d.refs
    ensures Seen(d, rest - {r}) == if r == d.name then Seen(d, rest) else Seen(d, rest) + {r}
    ensures CountedIn(names, rest - {r}) == CountedIn(names, rest) + if r in names then 1 else 0
  {
    if r in names {
      assert names - (rest - {r}) == (names - rest) + {r};
    } else {
      assert names - (rest - {r}) == names - rest;
    }
  }

  lemma SeenAtTheEnds(files: seq<FileInfo>, from: nat, d: Definition)
    requires from < |files|
    ensures ResolvedNames(files, from, Seen(d, d.refs)) == {} && CountedIn(NarrowedNames(files, from, d), d.refs) == 0
    ensures Seen(d, {}) == d.refs - {d.name} && CountedIn(NarrowedNames(files, from, d), {}) == |NarrowedNames(files, from, d)|
  {
    var names := NarrowedNames(files, from, d);
    assert Seen(d, d.refs) == {} && names - d.refs == {} && names - {} == names;
  }

  /** Resolve the names that one definition refers to. */
  method LinkDefinition(files: seq<FileInfo>, index: map<string, seq<nat>>, local: set<string>, from: nat, d: Definition,
                        entry0: set<Symbol>, narrowed0: nat)
    returns (entry: set<Symbol>, narrowed: nat)
    requires from < |files| && IsIndex(files, index)
    requires forall name :: name in local <==> Defines(files[from], name)
    ensures entry == entry0 + ResolvedNames(files, from, d.refs - {d.name})
    ensures narrowed == narrowed0 + |NarrowedNames(files, from, d)|
  {
    hide Defines, IsNarrowed, IsIndex, ResolvedNames, Seen, CountedIn;
    entry, narrowed := entry0, narrowed0;
    var rest := d.refs;
    ghost var names := NarrowedNames(files, from, d);
    SeenAtTheEnds(files, from, d);
    while rest != {}
      invariant rest <= d.refs
      invariant entry == entry0 + ResolvedNames(files, from, Seen(d, rest))
      invariant narrowed == narrowed0 + CountedIn(names, rest)
      decreases |rest|
    {
      var r :| r in rest;
      SeenOneMore(d, names, rest, r);
      ResolvedTogether(files, from, Seen(d, rest), {r});
      rest := rest - {r};
      if r == d.name {
        continue;
      }
      var found, dropped := ResolveName(files, index, local, from, r);
      entry := entry + found;
      if dropped {
        narrowed := narrowed + 1;
      }
    }
  }

  lemma IndexedInRange(files: seq<FileInfo>, index: map<string, seq<nat>>, r: string)
    requires IsIndex(files, index) && r in index
    ensures index[r] != [] && InRange(files, index[r])
  {
    forall j | 0 <= j < |index[r]|
      ensures index[r][j] < |files|
    {
      assert index[r][j] in Listed(index, r);
    }
  }

  lemma LocalWins(files: seq<FileInfo>, from: nat, r: string)
    requires from < |files| && Defines(files[from], r)
    ensures ResolvedNames(files, from, {r}) == {Symbol(from, r)}
    ensures !IsNarrowed(files, from, r)
  {
    SymbolsAreDefined(files, Symbol(from, r));
  }

  lemma KeptAreResolved(files: seq<FileInfo>, index: map<string, seq<nat>>, from: nat, r: string, kept: seq<nat>)
    requires from < |files| && IsIndex(files, index) && r in index && !Defines(files[from], r)
    requires InRange(files, index[r])
    requires forall f :: f in kept <==> IsTop(files, from, index[r], f)
    requires |kept| <= |index[r]| && (|kept| == |index[r]| <==> forall f | f in index[r] :: IsTop(files, from, index[r], f))
    ensures ResolvedNames(files, from, {r}) == set f | f in kept :: Symbol(f, r)
    ensures IsNarrowed(files, from, r) <==> |kept| < |index[r]|
  {
    hide Defines, Score, Symbols;
    forall t: Symbol | t.name == r
      ensures InBestTier(files, from, t) <==> t.file in kept
      ensures t in Symbols(files) <==> t.file in Listed(index, r)
    {
      SymbolsAreDefined(files, t);
    }
    forall f: nat
      ensures f in Listed(index, r) <==> IsDefiner(files, f, r)
      ensures f < |files| ==> (InBestTier(files, from, Symbol(f, r)) <==> f in kept)
    {
    }
  }

  lemma Undefined(files: seq<FileInfo>, index: map<string, seq<nat>>, from: nat, r: string)
    requires from < |files| && IsIndex(files, index) && r !in index
    ensures ResolvedNames(files, from, {r}) == {}
    ensures !IsNarrowed(files, from, r)
  {
    hide Defines, Symbols;
    forall t: Symbol | t.name == r
      ensures t !in Symbols(files)
    {
      SymbolsAreDefined(files, t);
    }
  }

  lemma OneMoreTarget(files: seq<FileInfo>, s: Symbol, n: nat)
    requires s.file < |files| && n < |files[s.file].defs|
    ensures var d := files[s.file].defs[n];
            Targets(files, s, n + 1) ==
            Targets(files, s, n) + if d.name == s.name then ResolvedNames(files, s.file, d.refs - {d.name}) else {}
  {
    hide Symbols, Resolves;
    var d := files[s.file].defs[n];
    forall t: Symbol
      ensures Mentions(files[s.file], s.name, t.name, n + 1) <==>
              Mentions(files[s.file], s.name, t.name, n) || (d.name == s.name && t.name in d.refs && t.name != d.name)
    {
    }
  }

  /** The edges of the first `k` files and of the first `n` definitions of the next one. */
  ghost predicate PartlyLinked(files: seq<FileInfo>, edges: map<Symbol, set<Symbol>>, k: nat, n: nat)
  {
    && (forall s: Symbol :: s in edges <==> DefinesBefore(files, s.file, s.name, k, n))
    && (forall s | s in edges :: HasTargets(files, s, edges[s], DoneOf(files, s, k, n)))
  }

  /** How many definitions of the symbol's file have been linked. */
  function DoneOf(files: seq<FileInfo>, s: Symbol, k: nat, n: nat): nat {
    if s.file < k && s.file < |files| then |files[s.file].defs| else n
  }

  ghost predicate HasTargets(files: seq<FileInfo>, s: Symbol, targets: set<Symbol>, n: nat)
  {
    s.file < |files| && n <= |files[s.file].defs| && targets == Targets(files, s, n)
  }

  lemma EdgesGrow(files: seq<FileInfo>, before: map<Symbol, set<Symbol>>, edges: map<Symbol, set<Symbol>>, k: nat, n: nat)
    requires k < |files| && n < |files[k].defs| && PartlyLinked(files, before, k, n)
    requires var d := files[k].defs[n];
             var s := Symbol(k, d.name);
             edges == before[s := (if s in before then before[s] else {}) + ResolvedNames(files, k, d.refs - {d.name})]
    ensures PartlyLinked(files, edges, k, n + 1)
  {
    hide Defines, DefinesWithin, Targets, ResolvedNames;
    var d := files[k].defs[n];
    var added := Symbol(k, d.name);
    forall s: Symbol
      ensures DefinesBefore(files, s.file, s.name, k, n + 1) <==> DefinesBefore(files, s.file, s.name, k, n) || s == added
    {
      OneMoreDefinition(files[k], s.name, n);
    }
    forall s | s in edges
      ensures HasTargets(files, s, edges[s], DoneOf(files, s, k, n + 1))
    {
      if s in before {
        assert HasTargets(files, s, before[s], DoneOf(files, s, k, n));
        if s.file == k {
          OneMoreTarget(files, s, n);
        }
      } else {
        OneMoreTarget(files, s, n);
        NotYetDefined(files, s, n);
      }
    }
  }

  /** A name with no definition so far has no targets so far. */
  lemma NotYetDefined(files: seq<FileInfo>, s: Symbol, n: nat)
    requires s.file < |files| && n <= |files[s.file].defs| && !DefinesWithin(files[s.file], s.name, n)
    ensures Targets(files, s, n) == {}
  {
    hide Symbols, Resolves;
  }

  lemma FileLinked(files: seq<FileInfo>, edges: map<Symbol, set<Symbol>>, k: nat)
    requires k < |files| && PartlyLinked(files, edges, k, |files[k].defs|)
    ensures PartlyLinked(files, edges, k + 1, 0)
  {
    hide Targets;
    forall s: Symbol
      ensures DefinesBefore(files, s.file, s.name, k + 1, 0) <==> DefinesBefore(files, s.file, s.name, k, |files[k].defs|)
    {
    }
    forall s | s in edges
      ensures HasTargets(files, s, edges[s], DoneOf(files, s, k + 1, 0))
    {
      assert HasTargets(files, s, edges[s], DoneOf(files, s, k, |files[k].defs|));
      assert DefinesBefore(files, s.file, s.name, k, |files[k].defs|);
    }
  }

  lemma FullyLinked(files: seq<FileInfo>, edges: map<Symbol, set<Symbol>>)
    requires PartlyLinked(files, edges, |files|, 0)
    ensures edges == Edges(files)
  {
    hide Targets, Symbols;
    forall s: Symbol
      ensures s in edges <==> s in Symbols(files)
    {
      SymbolsAreDefined(files, s);
    }
    forall s | s in edges
      ensures edges[s] == Edges(files)[s]
    {
      assert DefinesBefore(files, s.file, s.name, |files|, 0);
      assert HasTargets(files, s, edges[s], |files[s.file].defs|);
    }
  }

  /** Resolve each symbol's references to file-scoped symbols. */
  method Link(files: seq<FileInfo>) returns (g: Graph)
    ensures g == Linked(files)
  {
    hide PartlyLinked, IsIndex, Defines, ResolvedNames, NarrowedNames, Edges;
    var index := IndexDefinitions(files);
    var edges: map<Symbol, set<Symbol>> := map[];
    var narrowed := 0;
    NothingLinked(files);
    for f := 0 to |files|
      invariant PartlyLinked(files, edges, f, 0)
      invariant narrowed == NarrowedCount(files, f)
    {
      var local := set i | 0 <= i < |files[f].defs| :: files[f].defs[i].name;
      assert forall name :: name in local <==> Defines(files[f], name) by { LocalNames(files[f]); }
      for i := 0 to |files[f].defs|
        invariant PartlyLinked(files, edges, f, i)
        invariant narrowed == NarrowedCount(files, f) + NarrowedInFile(files, f, i)
      {
        var d := files[f].defs[i];
        var s := Symbol(f, d.name);
        ghost var before := edges;
        var entry := if s in edges then edges[s] else {};
        entry, narrowed := LinkDefinition(files, index, local, f, d, entry, narrowed);
        edges := edges[s := entry];
        EdgesGrow(files, before, edges, f, i);
      }
      FileLinked(files, edges, f);
    }
    FullyLinked(files, edges);
    g := Graph(edges, |files|, narrowed);
  }

  lemma NothingLinked(files: seq<FileInfo>)
    ensures PartlyLinked(files, map[], 0, 0)
  {
  }

  lemma LocalNames(info: FileInfo)
    ensures forall name :: name in (set i | 0 <= i < |info.defs| :: info.defs[i].name) <==> Defines(info, name)
  {
  }

  // ----- what linking guarantees -----

  /** A file without path or import evidence. */
  function Unranked(files: seq<FileInfo>): (r: seq<FileInfo>)
    ensures |r| == |files|
  {
    seq(|files|, i requires 0 <= i < |files| => FileInfo({}, {}, files[i].defs))
  }

  lemma UnrankedDefines(files: seq<FileInfo>)
    ensures forall f: nat, name :: IsDefiner(Unranked(files), f, name) <==> IsDefiner(files, f, name)
    ensures Symbols(Unranked(files)) == Symbols(files)
  {
    forall f: nat, name
      ensures IsDefiner(Unranked(files), f, name) <==> IsDefiner(files, f, name)
    {
      if f < |files| {
        assert Unranked(files)[f].defs == files[f].defs;
      }
    }
    forall s
      ensures s in Symbols(Unranked(files)) <==> s in Symbols(files)
    {
      SymbolsAreDefined(files, s);
      SymbolsAreDefined(Unranked(files), s);
    }
  }

  /** Without evidence every definer ties, so a foreign name means every definition of it. */
  lemma UnrankedTies(files: seq<FileInfo>, from: nat, t: Symbol)
    requires from < |files|
    ensures InBestTier(Unranked(files), from, t) <==> IsDefiner(files, t.file, t.name)
  {
    hide Defines, Symbols;
    UnrankedDefines(files);
    var u := Unranked(files);
    forall f, g | 0 <= f < |files| && 0 <= g < |files|
      ensures Score(u[f], u[g]) == 0
    {
      assert u[f].imports * u[g].pathTokens == {};
    }
  }

  lemma UnrankedResolves(files: seq<FileInfo>, from: nat, t: Symbol)
    requires from < |files|
    ensures Resolves(Unranked(files), from, t) <==>
            if Defines(files[from], t.name) then t.file == from else IsDefiner(files, t.file, t.name)
  {
    hide Defines, InBestTier;
    UnrankedDefines(files);
    assert IsDefiner(Unranked(files), from, t.name) <==> IsDefiner(files, from, t.name);
    UnrankedTies(files, from, t);
  }

  lemma SameDefinitions(files: seq<FileInfo>, f: nat)
    requires f < |files|
    ensures Unranked(files)[f].defs == files[f].defs
  {
  }

  /** Something in the first `n` definitions of a file, or in the first `k` files, was narrowed. */
  lemma {:induction false} NarrowedInFileIsZero(files: seq<FileInfo>, f: nat, n: nat)
    requires f < |files| && n <= |files[f].defs|
    ensures NarrowedInFile(files, f, n) == 0 <==> forall i | 0 <= i < n :: NarrowedNames(files, f, files[f].defs[i]) == {}
  {
    hide NarrowedNames;
    if n > 0 {
      NarrowedInFileIsZero(files, f, n - 1);
    }
  }

  ghost predicate NothingNarrowed(files: seq<FileInfo>, f: nat) {
    f < |files| && forall i | 0 <= i < |files[f].defs| :: NarrowedNames(files, f, files[f].defs[i]) == {}
  }

  lemma {:induction false} NarrowedCountIsZero(files: seq<FileInfo>, k: nat)
    requires k <= |files|
    ensures NarrowedCount(files, k) == 0 <==> forall f | 0 <= f < k :: NothingNarrowed(files, f)
  {
    hide NarrowedNames;
    if k > 0 {
      NarrowedCountIsZero(files, k - 1);
      NarrowedInFileIsZero(files, k - 1, |files[k - 1].defs|);
      assert NarrowedInFile(files, k - 1, |files[k - 1].defs|) == 0 <==> NothingNarrowed(files, k - 1);
    }
  }

  /** Ranking only ever drops edges. */
  lemma RankingOnlyDrops(files: seq<FileInfo>)
    ensures Edges(files).Keys == Edges(Unranked(files)).Keys
    ensures forall s | s in Edges(files) :: Edges(files)[s] <= Edges(Unranked(files))[s]
  {
    hide Symbols, Defines, Resolves, Unranked, Edges;
    UnrankedDefines(files);
    forall s
      ensures s in Edges(files) <==> s in Edges(Unranked(files))
    {
      SourcesAreSymbols(files);
      SourcesAreSymbols(Unranked(files));
    }
    forall s, t | s in Edges(files) && t in Edges(files)[s]
      ensures t in Edges(Unranked(files))[s]
    {
      EdgeSources(files, s);
      EdgeMeans(files, s, t);
      UnrankedEdgeMeans(files, s, t);
      if Defines(files[s.file], t.name) {
        LocalsStay(files, s.file, t);
      }
    }
  }

  lemma SourcesAreSymbols(files: seq<FileInfo>)
    ensures Edges(files).Keys == Symbols(files)
  {
    hide Symbols, Targets;
  }

  lemma LocalsStay(files: seq<FileInfo>, from: nat, t: Symbol)
    requires from < |files| && Resolves(files, from, t) && Defines(files[from], t.name)
    ensures t.file == from
  {
  }

  /** The narrowing count is zero exactly if ranking changed nothing. */
  lemma NarrowedExactly(files: seq<FileInfo>)
    ensures Linked(files).narrowed == 0 <==> Linked(files).edges == Linked(Unranked(files)).edges
  {
    hide NarrowedNames, Edges, NarrowedCount;
    RankingOnlyDrops(files);
    NarrowedCountIsZero(files, |files|);
    if f, i :| 0 <= f < |files| && 0 <= i < |files[f].defs| && NarrowedNames(files, f, files[f].defs[i]) != {} {
      NarrowingDropsAnEdge(files, f, i);
    } else {
      forall s | s in Edges(files)
        ensures Edges(files)[s] == Edges(Unranked(files))[s]
      {
        NothingDropped(files, s);
      }
    }
  }

  lemma EdgeMeans(files: seq<FileInfo>, s: Symbol, t: Symbol)
    requires IsDefiner(files, s.file, s.name)
    ensures s in Edges(files)
    ensures t in Edges(files)[s] <==>
            && IsDefiner(files, t.file, t.name) && Mentions(files[s.file], s.name, t.name, |files[s.file].defs|)
            && Resolves(files, s.file, t)
  {
    hide Symbols, Defines, Resolves, Mentions;
    SymbolsAreDefined(files, s);
    SymbolsAreDefined(files, t);
  }

  lemma UnrankedEdgeMeans(files: seq<FileInfo>, s: Symbol, t: Symbol)
    requires IsDefiner(files, s.file, s.name)
    ensures s in Edges(Unranked(files))
    ensures t in Edges(Unranked(files))[s] <==>
            && IsDefiner(files, t.file, t.name) && Mentions(files[s.file], s.name, t.name, |files[s.file].defs|)
            && (Defines(files[s.file], t.name) ==> t.file == s.file)
  {
    hide Symbols, Defines, Resolves, Mentions, Unranked, Edges;
    UnrankedDefines(files);
    SameDefinitions(files, s.file);
    EdgeMeans(Unranked(files), s, t);
    UnrankedResolves(files, s.file, t);
    SameMentions(files, s, t.name);
  }

  lemma SameMentions(files: seq<FileInfo>, s: Symbol, target: string)
    requires s.file < |files|
    ensures Mentions(Unranked(files)[s.file], s.name, target, |Unranked(files)[s.file].defs|) ==
            Mentions(files[s.file], s.name, target, |files[s.file].defs|)
  {
    SameDefinitions(files, s.file);
  }

  lemma NarrowingDropsAnEdge(files: seq<FileInfo>, f: nat, i: nat)
    requires f < |files| && i < |files[f].defs| && NarrowedNames(files, f, files[f].defs[i]) != {}
    ensures !NothingNarrowed(files, f)
    ensures Edges(files) != Edges(Unranked(files))
  {
    hide Symbols, Defines, Edges, InBestTier, Unranked;
    var d := files[f].defs[i];
    var s := Symbol(f, d.name);
    assert IsDefiner(files, f, d.name) by { SymbolsAreDefined(files, s); ListedSymbol(files, f, i); }
    var r :| r in NarrowedNames(files, f, d);
    var g :| 0 <= g < |files| && IsDefiner(files, g, r) && !InBestTier(files, f, Symbol(g, r));
    EdgeMeans(files, s, Symbol(g, r));
    UnrankedEdgeMeans(files, s, Symbol(g, r));
  }

  lemma ListedSymbol(files: seq<FileInfo>, f: nat, i: nat)
    requires f < |files| && i < |files[f].defs|
    ensures Symbol(f, files[f].defs[i].name) in Symbols(files)
  {
  }

  lemma NothingDropped(files: seq<FileInfo>, s: Symbol)
    requires s in Edges(files) && forall f | 0 <= f < |files| :: NothingNarrowed(files, f)
    ensures s in Edges(Unranked(files)) && Edges(files)[s] == Edges(Unranked(files))[s]
  {
    hide Symbols, Defines, Edges, InBestTier, Unranked, NarrowedNames;
    assert IsDefiner(files, s.file, s.name) by { EdgeSources(files, s); }
    UnrankedEdgeMeans(files, s, s);
    forall t: Symbol
      ensures t in Edges(files)[s] <==> t in Edges(Unranked(files))[s]
    {
      EdgeMeans(files, s, t);
      UnrankedEdgeMeans(files, s, t);
      if IsDefiner(files, t.file, t.name) && Mentions(files[s.file], s.name, t.name, |files[s.file].defs|)
         && !Defines(files[s.file], t.name)
      {
        assert NothingNarrowed(files, s.file);
        var i :| 0 <= i < |files[s.file].defs| && files[s.file].defs[i].name == s.name && t.name in files[s.file].defs[i].refs;
        assert t.name !in NarrowedNames(files, s.file, files[s.file].defs[i]);
        NotNarrowedIsBest(files, s.file, files[s.file].defs[i], t);
      }
    }
  }

  lemma EdgeSources(files: seq<FileInfo>, s: Symbol)
    requires s in Edges(files)
    ensures IsDefiner(files, s.file, s.name)
  {
    SymbolsAreDefined(files, s);
  }

  lemma NotNarrowedIsBest(files: seq<FileInfo>, from: nat, d: Definition, t: Symbol)
    requires from < |files| && IsDefiner(files, t.file, t.name) && !Defines(files[from], t.name)
    requires t.name in d.refs && t.name != d.name && t.name !in NarrowedNames(files, from, d)
    ensures InBestTier(files, from, t)
  {
    hide Defines, InBestTier;
    assert t == Symbol(t.file, t.name);
  }

  /** Among the definers of a name in the first `k` files, one scores best. */
  lemma {:induction false} BestDefiner(files: seq<FileInfo>, from: nat, name: string, k: nat, f: nat) returns (best: nat)
    requires from < |files| && k <= |files| && f < k && IsDefiner(files, f, name)
    ensures best < k && IsDefiner(files, best, name)
    ensures forall g | 0 <= g < k && IsDefiner(files, g, name) :: Score(files[from], files[g]) <= Score(files[from], files[best])
  {
    hide Score, IsDefiner;
    best := f;
    for i := 0 to k
      invariant best < k && IsDefiner(files, best, name)
      invariant forall g | 0 <= g < i && IsDefiner(files, g, name) :: Score(files[from], files[g]) <= Score(files[from], files[best])
    {
      if IsDefiner(files, i, name) && Score(files[from], files[i]) > Score(files[from], files[best]) {
        best := i;
      }
    }
  }

  /** A reference to another name that is defined anywhere keeps at least one edge, and if the
      file defines the name itself that is the only one. Every edge ends at a defined symbol. */
  lemma ReferencesKeepAnEdge(files: seq<FileInfo>, s: Symbol, name: string, f: nat)
    requires IsDefiner(files, s.file, s.name) && Mentions(files[s.file], s.name, name, |files[s.file].defs|)
    requires IsDefiner(files, f, name)
    ensures s in Edges(files) && exists t | t in Edges(files)[s] :: t.name == name
    ensures Defines(files[s.file], name) ==> forall t | t in Edges(files)[s] && t.name == name :: t.file == s.file
    ensures forall t | t in Edges(files)[s] :: IsDefiner(files, t.file, t.name) && t.name != s.name
  {
    hide Symbols, Defines, Edges, Score;
    var t;
    if Defines(files[s.file], name) {
      t := Symbol(s.file, name);
    } else {
      var best := BestDefiner(files, s.file, name, |files|, f);
      t := Symbol(best, name);
    }
    EdgeMeans(files, s, t);
    forall u: Symbol
      ensures u in Edges(files)[s] ==> IsDefiner(files, u.file, u.name) && u.name != s.name && Resolves(files, s.file, u)
    {
      EdgeMeans(files, s, u);
    }
  }

  /** A definer is dropped only on positive evidence: the definers that are kept are named by the imports. */
  lemma DroppedOnEvidence(files: seq<FileInfo>, s: Symbol, dropped: Symbol, kept: Symbol)
    requires IsDefiner(files, s.file, s.name) && kept.name == dropped.name
    requires s in Edges(files) && s in Edges(Unranked(files))
    requires dropped in Edges(Unranked(files))[s] && dropped !in Edges(files)[s] && kept in Edges(files)[s]
    ensures files[s.file].imports * files[kept.file].pathTokens != {}
    ensures Score(files[s.file], files[dropped.file]) < Score(files[s.file], files[kept.file])
  {
    hide Symbols, Defines, Edges, Unranked;
    EdgeMeans(files, s, dropped);
    EdgeMeans(files, s, kept);
    UnrankedEdgeMeans(files, s, dropped);
  }
}
