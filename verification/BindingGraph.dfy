/** The class graph of the binding generator: the dependency matrix is closed in
    place, split into strongly connected components (one generated file each), and
    the imports between those files are emitted.  Classes are numbered by their
    position in the list of generated names, and the n-by-n matrix is stored
    row by row in one flat array, as in the generator. */
module BindingGraph {
  import opened Wrappers

  /******* The flat matrix *******/

  function Cell(n: nat, row: nat, col: nat): (k: nat)
    requires row < n && col < n
    ensures k < n * n
  {
    assert row * n <= (n - 1) * n;
    row * n + col
  }

  lemma RowsInOrder(n: nat, i: nat, j: nat, i': nat, j': nat)
    requires i < i' < n && j < n && j' < n
    ensures Cell(n, i, j) < Cell(n, i', j')
  {
    assert i' * n == (i + 1) * n + (i' - i - 1) * n;
    assert (i' - i - 1) * n >= 0;
  }

  lemma CellInjective(n: nat, i: nat, j: nat, i': nat, j': nat)
    requires i < n && j < n && i' < n && j' < n
    ensures Cell(n, i, j) == Cell(n, i', j') ==> i == i' && j == j'
  {
    if i < i' {
      RowsInOrder(n, i, j, i', j');
    } else if i' < i {
      RowsInOrder(n, i', j', i, j);
    }
  }

  predicate Edge(cells: seq<bool>, n: nat, i: nat, j: nat)
    requires |cells| == n * n && i < n && j < n
  {
    cells[Cell(n, i, j)]
  }

  ghost predicate Reflexive(cells: seq<bool>, n: nat)
    requires |cells| == n * n
  {
    forall i: nat | i < n :: Edge(cells, n, i, i)
  }

  lemma SetCell(cells: seq<bool>, n: nat, s: nat, t: nat, cells': seq<bool>)
    requires |cells| == n * n && s < n && t < n
    requires cells' == cells[Cell(n, s, t) := true]
    ensures forall i: nat, j: nat | i < n && j < n ::
              Edge(cells', n, i, j) <==> Edge(cells, n, i, j) || (i == s && j == t)
  {
    forall i: nat, j: nat | i < n && j < n
      ensures Edge(cells', n, i, j) <==> Edge(cells, n, i, j) || (i == s && j == t)
    {
      CellInjective(n, i, j, s, t);
    }
  }

  /******* Reachability *******/

  // A walk along edges whose interior vertices are all below `bound`.
  ghost predicate IsPath(cells: seq<bool>, n: nat, bound: nat, p: seq<nat>)
    requires |cells| == n * n
  {
    && |p| > 0
    && (forall k: nat | k < |p| :: p[k] < n)
    && (forall k: nat | k < |p| - 1 :: Edge(cells, n, p[k], p[k + 1]))
    && (forall k: nat | 0 < k < |p| - 1 :: p[k] < bound)
  }

  ghost predicate ReachesBelow(cells: seq<bool>, n: nat, bound: nat, i: nat, j: nat)
    requires |cells| == n * n
  {
    exists p :: IsPath(cells, n, bound, p) && p[0] == i && p[|p| - 1] == j
  }

  // The reflexive-transitive closure of the edges.
  ghost predicate Reaches(cells: seq<bool>, n: nat, i: nat, j: nat)
    requires |cells| == n * n
  {
    ReachesBelow(cells, n, n, i, j)
  }

  lemma EdgeReaches(cells: seq<bool>, n: nat, bound: nat, i: nat, j: nat)
    requires |cells| == n * n && i < n && j < n && Edge(cells, n, i, j)
    ensures ReachesBelow(cells, n, bound, i, j)
  {
    assert IsPath(cells, n, bound, [i, j]);
  }

  lemma ReachesTransitive(cells: seq<bool>, n: nat, bound: nat, i: nat, via: nat, j: nat)
    requires |cells| == n * n
    requires ReachesBelow(cells, n, bound, i, via) && ReachesBelow(cells, n, bound, via, j)
    requires via < bound
    ensures ReachesBelow(cells, n, bound, i, j)
  {
    var p :| IsPath(cells, n, bound, p) && p[0] == i && p[|p| - 1] == via;
    var q :| IsPath(cells, n, bound, q) && q[0] == via && q[|q| - 1] == j;
    var r := p + q[1..];
    assert forall k: nat | |p| - 1 <= k < |r| :: r[k] == q[k - (|p| - 1)];
    assert IsPath(cells, n, bound, r);
    assert r[|r| - 1] == j;
  }

  lemma RaiseBound(cells: seq<bool>, n: nat, bound: nat, i: nat, j: nat)
    requires |cells| == n * n && ReachesBelow(cells, n, bound, i, j)
    ensures ReachesBelow(cells, n, bound + 1, i, j)
  {
    var p :| IsPath(cells, n, bound, p) && p[0] == i && p[|p| - 1] == j;
    assert IsPath(cells, n, bound + 1, p);
  }

  // A walk that may pass through `via` either avoids it or splits there.
  lemma SplitAt(cells: seq<bool>, n: nat, via: nat, p: seq<nat>)
    requires |cells| == n * n && IsPath(cells, n, via + 1, p)
    ensures || ReachesBelow(cells, n, via, p[0], p[|p| - 1])
            || (ReachesBelow(cells, n, via, p[0], via) && ReachesBelow(cells, n, via, via, p[|p| - 1]))
    decreases |p|
  {
    if k: nat :| 0 < k < |p| - 1 && p[k] == via {
      var head, tail := p[..k + 1], p[k..];
      assert forall m: nat | m < |tail| :: tail[m] == p[m + k];
      SplitAt(cells, n, via, head);
      SplitAt(cells, n, via, tail);
    } else {
      assert IsPath(cells, n, via, p);
    }
  }

  /******* The closure loop *******/

  // One pass of the outer loop: paths through `via` are added.
  ghost predicate Passed(before: seq<bool>, after: seq<bool>, n: nat, via: nat)
    requires |before| == n * n && |after| == n * n && via < n
  {
    forall i: nat, j: nat | i < n && j < n ::
      Edge(after, n, i, j) <==> Shortcut(before, n, via, i, j)
  }

  predicate Shortcut(cells: seq<bool>, n: nat, via: nat, i: nat, j: nat)
    requires |cells| == n * n && via < n && i < n && j < n
  {
    Edge(cells, n, i, j) || (Edge(cells, n, i, via) && Edge(cells, n, via, j))
  }

  ghost predicate ClosedBelow(edges: seq<bool>, cells: seq<bool>, n: nat, bound: nat)
    requires |edges| == n * n && |cells| == n * n
  {
    forall i: nat, j: nat | i < n && j < n ::
      Edge(cells, n, i, j) <==> ReachesBelow(edges, n, bound, i, j)
  }

  lemma PassKeepsClosed(edges: seq<bool>, before: seq<bool>, after: seq<bool>, n: nat, via: nat)
    requires |edges| == n * n && |before| == n * n && |after| == n * n && via < n
    requires ClosedBelow(edges, before, n, via) && Passed(before, after, n, via)
    ensures ClosedBelow(edges, after, n, via + 1)
  {
    forall i: nat, j: nat | i < n && j < n
      ensures Edge(after, n, i, j) <==> ReachesBelow(edges, n, via + 1, i, j)
    {
      if Edge(after, n, i, j) {
        assert Shortcut(before, n, via, i, j);
        if Edge(before, n, i, j) {
          RaiseBound(edges, n, via, i, j);
        } else {
          RaiseBound(edges, n, via, i, via);
          RaiseBound(edges, n, via, via, j);
          ReachesTransitive(edges, n, via + 1, i, via, j);
        }
      }
      if ReachesBelow(edges, n, via + 1, i, j) {
        var p :| IsPath(edges, n, via + 1, p) && p[0] == i && p[|p| - 1] == j;
        SplitAt(edges, n, via, p);
      }
    }
  }

  lemma EdgesClosedBelowZero(edges: seq<bool>, n: nat)
    requires |edges| == n * n && Reflexive(edges, n)
    ensures ClosedBelow(edges, edges, n, 0)
  {
    forall i: nat, j: nat | i < n && j < n
      ensures Edge(edges, n, i, j) <==> ReachesBelow(edges, n, 0, i, j)
    {
      if Edge(edges, n, i, j) {
        EdgeReaches(edges, n, 0, i, j);
      }
      if ReachesBelow(edges, n, 0, i, j) {
        var p :| IsPath(edges, n, 0, p) && p[0] == i && p[|p| - 1] == j;
        if |p| > 2 {
          assert p[1] < 0;
        }
      }
    }
  }

  // The state of a pass when rows before `row` are done, row `row` is done up to
  // column `col`, and the rest still holds the values from before the pass.
  ghost predicate PassUpTo(before: seq<bool>, now: seq<bool>, n: nat, via: nat, row: nat, col: nat)
    requires |before| == n * n && |now| == n * n && via < n
  {
    forall i: nat, j: nat | i < n && j < n ::
      Edge(now, n, i, j) <==>
      if i < row || (i == row && j < col) then Shortcut(before, n, via, i, j) else Edge(before, n, i, j)
  }

  /** The in-place triple loop computes exactly the reflexive-transitive closure. */
  method Close(reach: array<bool>, n: nat)
    requires reach.Length == n * n && Reflexive(reach[..], n)
    modifies reach
    ensures forall i: nat, j: nat | i < n && j < n ::
              Edge(reach[..], n, i, j) <==> Reaches(old(reach[..]), n, i, j)
  {
    ghost var edges := reach[..];
    EdgesClosedBelowZero(edges, n);
    for via := 0 to n
      invariant ClosedBelow(edges, reach[..], n, via)
    {
      ghost var before := reach[..];
      for source := 0 to n
        invariant PassUpTo(before, reach[..], n, via, source, 0)
      {
        if !reach[Cell(n, source, via)] {
          assert !Edge(reach[..], n, source, via);
          continue;
        }
        assert Edge(reach[..], n, source, via);
        for target := 0 to n
          invariant PassUpTo(before, reach[..], n, via, source, target)
        {
          assert reach[Cell(n, via, target)] == Edge(reach[..], n, via, target);
          if reach[Cell(n, via, target)] {
            ghost var now := reach[..];
            reach[Cell(n, source, target)] := true;
            SetCell(now, n, source, target, reach[..]);
          }
        }
      }
      PassKeepsClosed(edges, before, reach[..], n, via);
    }
  }

  /******* Seeding the matrix *******/

  datatype TypeRef = Named(name: string) | EnumOf(owner: Option<string>, name: string)

  datatype Class = Class(shell: bool, ancestors: seq<string>, types: seq<TypeRef>)

  // The class a type refers to: the owner of an enum, or the named type itself.
  function Dependency(ref: TypeRef): Option<string> {
    match ref
    case Named(name) => Some(name)
    case EnumOf(owner, _) => owner
  }

  // The type is the class itself, or an enum that the class owns.
  predicate RefersTo(ref: TypeRef, name: string) {
    ref == Named(name) || (ref.EnumOf? && ref.owner == Some(name))
  }

  ghost predicate DependsOn(names: seq<string>, classes: seq<Class>, i: nat, j: nat)
    requires |names| == |classes| && i < |names| && j < |names|
  {
    || i == j
    || (&& !classes[i].shell
        && (names[j] in classes[i].ancestors || exists ref <- classes[i].types :: RefersTo(ref, names[j])))
  }

  ghost predicate Distinct<T>(xs: seq<T>) {
    forall i: nat, j: nat | i < j < |xs| :: xs[i] != xs[j]
  }

  // The class numbers that a list of names stands for, unknown names ignored.
  ghost predicate Mentions(names: seq<string>, mentioned: seq<string>, j: nat)
    requires j < |names|
  {
    names[j] in mentioned
  }

  method AddEdges(names: seq<string>, indexes: map<string, nat>, mentioned: seq<string>, source: nat, reach: array<bool>)
    requires source < |names| && reach.Length == |names| * |names|
    requires forall name :: name in indexes <==> name in names
    requires forall name <- indexes :: indexes[name] < |names| && names[indexes[name]] == name
    requires Distinct(names)
    modifies reach
    ensures forall i: nat, j: nat | i < |names| && j < |names| ::
              Edge(reach[..], |names|, i, j) <==>
              old(Edge(reach[..], |names|, i, j)) || (i == source && Mentions(names, mentioned, j))
  {
    ghost var before := reach[..];
    for m := 0 to |mentioned|
      invariant forall i: nat, j: nat | i < |names| && j < |names| ::
          Edge(reach[..], |names|, i, j) <==>
          Edge(before, |names|, i, j) || (i == source && Mentions(names, mentioned[..m], j))
    {
      assert mentioned[..m + 1] == mentioned[..m] + [mentioned[m]];
      if mentioned[m] in indexes {
        ghost var now := reach[..];
        var target := indexes[mentioned[m]];
        reach[Cell(|names|, source, target)] := true;
        SetCell(now, |names|, source, target, reach[..]);
      }
    }
    assert mentioned[..|mentioned|] == mentioned;
  }

  function TypeNames(types: seq<TypeRef>): (names: seq<string>)
    ensures forall name :: name in names <==> exists ref <- types :: RefersTo(ref, name)
  {
    if types == [] then []
    else
      assert types == [types[0]] + types[1..];
      assert forall name :: RefersTo(types[0], name) <==> Dependency(types[0]) == Some(name);
      (match Dependency(types[0]) case Some(name) => [name] case None => []) + TypeNames(types[1..])
  }

  /** The direct dependencies: every class on itself, and a class that is not a
      shell on its generated ancestors and on the classes its methods mention. */
  method SeedEdges(names: seq<string>, classes: seq<Class>) returns (reach: array<bool>)
    requires |names| == |classes| && Distinct(names)
    ensures fresh(reach) && reach.Length == |names| * |names|
    ensures forall i: nat, j: nat | i < |names| && j < |names| ::
              Edge(reach[..], |names|, i, j) <==> DependsOn(names, classes, i, j)
  {
    var n := |names|;
    var indexes: map<string, nat> := map[];
    for k := 0 to n
      invariant forall name :: name in indexes <==> name in names[..k]
      invariant forall name <- indexes :: indexes[name] < n && names[indexes[name]] == name
    {
      indexes := indexes[names[k] := k];
    }
    reach := new bool[n * n](_ => false);
    for k := 0 to n
      invariant forall i: nat, j: nat | i < n && j < n ::
          Edge(reach[..], n, i, j) <==> i == j < k
    {
      ghost var now := reach[..];
      reach[Cell(n, k, k)] := true;
      SetCell(now, n, k, k, reach[..]);
    }
    for source := 0 to n
      invariant forall i: nat, j: nat | i < n && j < n ::
          Edge(reach[..], n, i, j) <==> if i < source then DependsOn(names, classes, i, j) else i == j
    {
      if !classes[source].shell {
        AddEdges(names, indexes, classes[source].ancestors, source, reach);
        AddEdges(names, indexes, TypeNames(classes[source].types), source, reach);
      }
    }
  }

  /******* Strongly connected components *******/

  ghost predicate Preorder(cells: seq<bool>, n: nat)
    requires |cells| == n * n
  {
    && Reflexive(cells, n)
    && forall i: nat, j: nat, k: nat | i < n && j < n && k < n ::
         Edge(cells, n, i, j) && Edge(cells, n, j, k) ==> Edge(cells, n, i, k)
  }

  predicate Mutual(cells: seq<bool>, n: nat, i: nat, j: nat)
    requires |cells| == n * n && i < n && j < n
  {
    Edge(cells, n, i, j) && Edge(cells, n, j, i)
  }

  ghost predicate Within(members: seq<nat>, n: nat) {
    forall k: nat | k < |members| :: members[k] < n
  }

  // `of` numbers every class in `done` with the component that lists it, and the
  // components are the classes of mutual reachability.
  ghost predicate Grouped(cells: seq<bool>, n: nat, components: seq<seq<nat>>, of: map<nat, nat>)
    requires |cells| == n * n
  {
    && (forall i <- of :: i < n && of[i] < |components|)
    && (forall c: nat, i: nat | c < |components| :: i in components[c] <==> i in of && of[i] == c)
    && (forall c: nat | c < |components| :: components[c] != [] && Distinct(components[c]) && Within(components[c], n))
    && (forall i <- of, j: nat | j < n :: Mutual(cells, n, i, j) <==> j in of && of[i] == of[j])
  }

  ghost predicate IsGroup(cells: seq<bool>, n: nat, source: nat, members: seq<nat>)
    requires |cells| == n * n && source < n
  {
    Distinct(members) && forall i: nat :: i in members <==> i < n && Mutual(cells, n, source, i)
  }

  lemma AddGroup(cells: seq<bool>, n: nat, components: seq<seq<nat>>, of: map<nat, nat>, source: nat, members: seq<nat>)
    requires |cells| == n * n && Preorder(cells, n) && Grouped(cells, n, components, of)
    requires source < n && source !in of && IsGroup(cells, n, source, members)
    ensures Grouped(cells, n, components + [members], of + map i: nat | i in members :: |components|)
  {
    var of' := of + map i: nat | i in members :: |components|;
    var components' := components + [members];
    assert source in members by {
      assert Mutual(cells, n, source, source);
    }
    assert forall k: nat | k < |members| :: members[k] in members;
    forall i | i in members
      ensures i !in of
    {
      assert i in of ==> !Mutual(cells, n, i, source);
    }
    forall i <- of', j: nat | j < n
      ensures Mutual(cells, n, i, j) <==> j in of' && of'[i] == of'[j]
    {
      if i in members && Mutual(cells, n, i, j) {
        assert Mutual(cells, n, source, j);
      }
      if i in members && j in members {
        assert Mutual(cells, n, i, j);
      }
      if i in of && j in members {
        assert Mutual(cells, n, source, j) && !Mutual(cells, n, i, source);
      }
    }
  }

  /** The component loop: two classes share a file iff each reaches the other. */
  method Components(cells: seq<bool>, n: nat) returns (components: seq<seq<nat>>, of: map<nat, nat>)
    requires |cells| == n * n && Preorder(cells, n)
    ensures Grouped(cells, n, components, of)
    ensures forall i: nat :: i in of <==> i < n
  {
    var placed := new bool[n](_ => false);
    components, of := [], map[];
    for source := 0 to n
      invariant Grouped(cells, n, components, of)
      invariant forall i: nat | i < n :: placed[i] <==> i in of
      invariant forall i: nat | i < source :: i in of
    {
      if placed[source] {
        continue;
      }
      var members: seq<nat> := [];
      for target := source to n
        invariant forall i: nat | i < n :: placed[i] <==> i in of || i in members
        invariant forall i: nat :: i in members <==> source <= i < target && Mutual(cells, n, source, i)
        invariant Distinct(members)
      {
        assert target in of ==> !Mutual(cells, n, target, source);
        assert cells[Cell(n, source, target)] == Edge(cells, n, source, target);
        assert cells[Cell(n, target, source)] == Edge(cells, n, target, source);
        if !placed[target] && cells[Cell(n, source, target)] && cells[Cell(n, target, source)] {
          placed[target] := true;
          members := members + [target];
        }
      }
      assert forall i: nat | i < source :: !Mutual(cells, n, i, source);
      AddGroup(cells, n, components, of, source, members);
      of := of + map i: nat | i in members :: |components|;
      components := components + [members];
    }
  }

  /******* Imports between component files *******/

  // File `c` needs class `target` of another file.
  ghost predicate Needs(deps: seq<bool>, n: nat, members: seq<nat>, of: map<nat, nat>, c: nat, target: nat)
    requires |deps| == n * n && Within(members, n)
  {
    target < n && target in of && of[target] != c && exists s <- members :: Edge(deps, n, s, target)
  }

  /** The import lines of one component file. */
  method Imports(deps: seq<bool>, n: nat, members: seq<nat>, of: map<nat, nat>, c: nat) returns (imported: seq<nat>)
    requires |deps| == n * n && Within(members, n) && (forall i: nat | i < n :: i in of)
    ensures Distinct(imported)
    ensures forall t: nat :: t in imported <==> Needs(deps, n, members, of, c, t)
  {
    imported := [];
    for m := 0 to |members|
      invariant Distinct(imported)
      invariant forall t: nat :: t in imported <==> Needs(deps, n, members[..m], of, c, t)
    {
      var source := members[m];
      for target := 0 to n
        invariant Distinct(imported)
        invariant forall t: nat :: t in imported <==>
            Needs(deps, n, members[..m], of, c, t) || (t < target && of[t] != c && Edge(deps, n, source, t))
      {
        if of[target] == c || target in imported || !deps[Cell(n, source, target)] {
          assert deps[Cell(n, source, target)] == Edge(deps, n, source, target);
          continue;
        }
        assert Edge(deps, n, source, target);
        imported := imported + [target];
      }
      assert members[..m + 1] == members[..m] + [source];
    }
    assert members[..|members|] == members;
  }

  // File `c` imports file `d`.
  ghost predicate FileImports(imports: seq<seq<nat>>, of: map<nat, nat>, c: nat, d: nat) {
    c < |imports| && exists t <- imports[c] :: t in of && of[t] == d
  }

  ghost predicate IsImportWalk(imports: seq<seq<nat>>, of: map<nat, nat>, walk: seq<nat>) {
    |walk| >= 2 && forall k: nat | k < |walk| - 1 :: FileImports(imports, of, walk[k], walk[k + 1])
  }

  ghost predicate ImportsFollow(deps: seq<bool>, n: nat, components: seq<seq<nat>>, of: map<nat, nat>,
                                imports: seq<seq<nat>>)
    requires |deps| == n * n
  {
    && |imports| == |components|
    && forall c: nat | c < |components| ::
         && Within(components[c], n)
         && (forall t: nat :: t in imports[c] <==> Needs(deps, n, components[c], of, c, t))
  }

  // Every class of a file reaches every class of the file at the end of the walk.
  lemma WalkReaches(deps: seq<bool>, cells: seq<bool>, n: nat, components: seq<seq<nat>>, of: map<nat, nat>,
                    imports: seq<seq<nat>>, walk: seq<nat>, i: nat, j: nat)
    requires |deps| == n * n && |cells| == n * n && Preorder(cells, n) && Grouped(cells, n, components, of)
    requires forall a: nat, b: nat | a < n && b < n && Edge(deps, n, a, b) :: Edge(cells, n, a, b)
    requires ImportsFollow(deps, n, components, of, imports) && IsImportWalk(imports, of, walk)
    requires i in of && of[i] == walk[0] && j in of && of[j] == walk[|walk| - 1]
    ensures Edge(cells, n, i, j)
    decreases |walk|
  {
    assert FileImports(imports, of, walk[0], walk[1]);
    var t :| t in imports[walk[0]] && t in of && of[t] == walk[1];
    var s :| s in components[walk[0]] && Edge(deps, n, s, t);
    assert Mutual(cells, n, i, s);
    if |walk| == 2 {
      assert Mutual(cells, n, t, j);
    } else {
      assert forall k: nat | k < |walk[1..]| - 1 :: FileImports(imports, of, walk[1..][k], walk[1..][k + 1]);
      WalkReaches(deps, cells, n, components, of, imports, walk[1..], t, j);
    }
    assert Edge(cells, n, s, j);
  }

  /** The emitted imports form an acyclic graph: no walk returns to its file. */
  lemma ImportsAcyclic(deps: seq<bool>, cells: seq<bool>, n: nat, components: seq<seq<nat>>, of: map<nat, nat>,
                       imports: seq<seq<nat>>, walk: seq<nat>)
    requires |deps| == n * n && |cells| == n * n && Preorder(cells, n) && Grouped(cells, n, components, of)
    requires forall a: nat, b: nat | a < n && b < n && Edge(deps, n, a, b) :: Edge(cells, n, a, b)
    requires ImportsFollow(deps, n, components, of, imports) && IsImportWalk(imports, of, walk)
    ensures walk[0] != walk[|walk| - 1]
  {
    assert FileImports(imports, of, walk[0], walk[1]);
    var t :| t in imports[walk[0]] && t in of && of[t] == walk[1];
    var s :| s in components[walk[0]] && Edge(deps, n, s, t);
    assert of[s] != of[t] && !Mutual(cells, n, s, t);
    if |walk| > 2 && walk[0] == walk[|walk| - 1] {
      assert forall k: nat | k < |walk[1..]| - 1 :: FileImports(imports, of, walk[1..][k], walk[1..][k + 1]);
      WalkReaches(deps, cells, n, components, of, imports, walk[1..], t, s);
      assert false;
    }
  }

  lemma ClosureIsPreorder(deps: seq<bool>, cells: seq<bool>, n: nat)
    requires |deps| == n * n && |cells| == n * n && Reflexive(deps, n) && ClosedBelow(deps, cells, n, n)
    ensures Preorder(cells, n)
    ensures forall a: nat, b: nat | a < n && b < n && Edge(deps, n, a, b) :: Edge(cells, n, a, b)
  {
    forall a: nat, b: nat | a < n && b < n && Edge(deps, n, a, b)
      ensures Edge(cells, n, a, b)
    {
      EdgeReaches(deps, n, n, a, b);
    }
    forall i: nat, j: nat, k: nat | i < n && j < n && k < n && Edge(cells, n, i, j) && Edge(cells, n, j, k)
      ensures Edge(cells, n, i, k)
    {
      ReachesTransitive(deps, n, n, i, j, k);
    }
  }

  /** The imports of every file. */
  method AllImports(deps: seq<bool>, n: nat, components: seq<seq<nat>>, of: map<nat, nat>)
    returns (imports: seq<seq<nat>>)
    requires |deps| == n * n && (forall i: nat | i < n :: i in of)
    requires forall c: nat | c < |components| :: Within(components[c], n)
    ensures ImportsFollow(deps, n, components, of, imports)
  {
    imports := [];
    for c := 0 to |components|
      invariant ImportsFollow(deps, n, components[..c], of, imports)
    {
      var imported := Imports(deps, n, components[c], of, c);
      imports := imports + [imported];
    }
    assert components[..|components|] == components;
  }

  // Two classes are in one file iff each of them depends, directly or not, on the other.
  ghost predicate SplitsByReachability(deps: seq<bool>, n: nat, components: seq<seq<nat>>, of: map<nat, nat>)
    requires |deps| == n * n
  {
    && (forall i: nat :: i in of <==> i < n)
    && (forall c: nat, i: nat | c < |components| :: i in components[c] <==> i in of && of[i] == c)
    && (forall c: nat | c < |components| :: components[c] != [] && Distinct(components[c]))
    && (forall i: nat, j: nat | i < n && j < n ::
          of[i] == of[j] <==> Reaches(deps, n, i, j) && Reaches(deps, n, j, i))
  }

  lemma GroupsSplit(deps: seq<bool>, cells: seq<bool>, n: nat, components: seq<seq<nat>>, of: map<nat, nat>)
    requires |deps| == n * n && |cells| == n * n && ClosedBelow(deps, cells, n, n)
    requires Grouped(cells, n, components, of) && forall i: nat :: i in of <==> i < n
    ensures SplitsByReachability(deps, n, components, of)
  {
    forall i: nat, j: nat | i < n && j < n
      ensures of[i] == of[j] <==> Reaches(deps, n, i, j) && Reaches(deps, n, j, i)
    {
      assert Mutual(cells, n, i, j) <==> of[i] == of[j];
    }
  }

  // The matrix of direct dependencies of the described classes.
  ghost predicate Describes(names: seq<string>, classes: seq<Class>, deps: seq<bool>)
    requires |names| == |classes|
  {
    && |deps| == |names| * |names|
    && forall i: nat, j: nat | i < |names| && j < |names| ::
         Edge(deps, |names|, i, j) <==> DependsOn(names, classes, i, j)
  }

  /** From class descriptions to the import graph of the generated files. */
  method ResolveTree(names: seq<string>, classes: seq<Class>)
    returns (ghost deps: seq<bool>, components: seq<seq<nat>>, of: map<nat, nat>, imports: seq<seq<nat>>)
    requires |names| == |classes| && Distinct(names)
    ensures Describes(names, classes, deps)
    ensures SplitsByReachability(deps, |names|, components, of)
    ensures ImportsFollow(deps, |names|, components, of, imports)
    ensures forall walk | IsImportWalk(imports, of, walk) :: walk[0] != walk[|walk| - 1]
  {
    var n := |names|;
    var reach := SeedEdges(names, classes);
    var dependencies := reach[..];
    deps := dependencies;
    assert forall i: nat | i < n :: DependsOn(names, classes, i, i);
    Close(reach, n);
    var cells := reach[..];
    assert ClosedBelow(deps, cells, n, n);
    ClosureIsPreorder(deps, cells, n);
    components, of := Components(cells, n);
    GroupsSplit(deps, cells, n, components, of);
    imports := AllImports(dependencies, n, components, of);
    forall walk | IsImportWalk(imports, of, walk)
      ensures walk[0] != walk[|walk| - 1]
    {
      ImportsAcyclic(deps, cells, n, components, of, imports, walk);
    }
  }
}
