/** The fingerprint of everything a script imports or embeds, directly or not: a
    depth-first walk with an explicit stack over the files on disk. */
module Dependencies {
  import opened Wrappers
  import opened SourceScan
  import opened SourceNormal
  import opened CacheKey

  // A file in the role it is reached in.
  datatype Node = Node(path: string, isImport: bool)

  // The files on disk, the digest of a content, and where a path named in a file leads.
  datatype Disk = Disk(files: map<string, string>, digest: string -> string, resolve: (string, string) -> string)
  {
    function Text(path: string): string {
      if path in files then files[path] else ""
    }

    // Empty for a file that cannot be read.
    function FileDigest(path: string): string {
      if path in files then digest(files[path]) else ""
    }
  }

  const DIGEST_LENGTH := 64

  ghost predicate WellDigested(d: Disk) {
    forall path <- d.files :: |d.digest(d.files[path])| == DIGEST_LENGTH
  }

  function Extension(path: string): string {
    if '.' !in path then "" else if path[0] == '.' && '.' !in path[1..] then path[1..] else Extension(path[1..])
  }

  // Imports of packages such as "std" name no file.
  predicate NamesFile(dependency: Dependency) {
    !dependency.isImport || '/' in dependency.path || Extension(dependency.path) == "zig"
  }

  function Targets(resolve: (string, string) -> string, from: string, found: seq<Dependency>): seq<Node> {
    if found == [] then []
    else
      (if NamesFile(found[0]) then [Node(resolve(from, found[0].path), found[0].isImport)] else [])
      + Targets(resolve, from, found[1..])
  }

  // What a node pulls in; embedded files pull in nothing.
  function Children(d: Disk, n: Node): Option<seq<Node>> {
    if !n.isImport then Some([])
    else
      match Scan(d.Text(n.path))
      case Some(found) => Some(Targets(d.resolve, n.path, found))
      case None => None
  }

  /******* Reachability *******/

  ghost predicate IsChain(d: Disk, root: Node, chain: seq<Node>) {
    && |chain| > 0 && chain[0] == root
    && forall k: nat | k < |chain| - 1 :: Children(d, chain[k]).Some? && chain[k + 1] in Children(d, chain[k]).value
  }

  ghost predicate Reachable(d: Disk, root: Node, n: Node) {
    exists chain :: IsChain(d, root, chain) && chain[|chain| - 1] == n
  }

  // A node is sound when it can be read and its directives are understood.
  ghost predicate SoundNode(d: Disk, root: Node, n: Node) {
    (n == root || n.path in d.files) && Children(d, n).Some?
  }

  lemma RootReachable(d: Disk, root: Node)
    ensures Reachable(d, root, root)
  {
    assert IsChain(d, root, [root]);
  }

  lemma ChildReachable(d: Disk, root: Node, n: Node, child: Node)
    requires Reachable(d, root, n) && Children(d, n).Some? && child in Children(d, n).value
    ensures Reachable(d, root, child)
  {
    var chain :| IsChain(d, root, chain) && chain[|chain| - 1] == n;
    assert IsChain(d, root, chain + [child]);
  }

  /******* The walk *******/

  // The nodes fingerprinted, in order, and all nodes visited.
  datatype Walk = Walk(hashed: seq<Node>, visited: set<Node>)

  ghost function Unvisited(d: Disk, visited: set<Node>): set<Node> {
    (set path <- d.files, isImport <- {true, false} :: Node(path, isImport)) - visited
  }

  // The walk from a stack whose nodes are all fingerprinted; None when it must give up.
  ghost function Explore(d: Disk, pending: seq<Node>, visited: set<Node>): Option<Walk>
    decreases Unvisited(d, visited), |pending|
  {
    if pending == [] then Some(Walk([], visited))
    else
      var n, rest := pending[|pending| - 1], pending[..|pending| - 1];
      if n in visited then Explore(d, rest, visited)
      else if n.path !in d.files || Children(d, n).None? then None
      else
        assert n in Unvisited(d, visited);
        Continue([n], Explore(d, rest + Children(d, n).value, visited + {n}))
  }

  ghost function Continue(hashed: seq<Node>, walk: Option<Walk>): Option<Walk> {
    match walk
    case Some(w) => Some(Walk(hashed + w.hashed, w.visited))
    case None => None
  }

  // The root itself is scanned but not fingerprinted.
  ghost function ExploreAll(d: Disk, root: Node): Option<Walk> {
    match Children(d, root)
    case Some(children) => Explore(d, children, {root})
    case None => None
  }

  function Fingerprint(d: Disk, hashed: seq<Node>): string {
    if hashed == [] then "" else Field(hashed[0].path, d.FileDigest(hashed[0].path)) + Fingerprint(d, hashed[1..])
  }

  lemma {:induction false} FingerprintAppend(d: Disk, hashed: seq<Node>, n: Node)
    ensures Fingerprint(d, hashed + [n]) == Fingerprint(d, hashed) + Field(n.path, d.FileDigest(n.path))
  {
    if hashed != [] {
      FingerprintAppend(d, hashed[1..], n);
      assert (hashed + [n])[1..] == hashed[1..] + [n];
    } else {
      assert [n][1..] == [];
    }
  }

  lemma ContinueTwice(a: seq<Node>, b: seq<Node>, walk: Option<Walk>)
    ensures Continue(a, Continue(b, walk)) == Continue(a + b, walk)
    ensures Continue([], walk) == walk
  {
    if walk.Some? {
      assert a + (b + walk.value.hashed) == a + b + walk.value.hashed;
      assert [] + walk.value.hashed == walk.value.hashed;
    }
  }

  method PushTargets(d: Disk, from: string, found: seq<Dependency>, pending: seq<Node>) returns (pushed: seq<Node>)
    ensures pushed == pending + Targets(d.resolve, from, found)
  {
    pushed := pending;
    for k := 0 to |found|
      invariant pending + Targets(d.resolve, from, found) == pushed + Targets(d.resolve, from, found[k..])
    {
      assert found[k..][1..] == found[k + 1..];
      if !NamesFile(found[k]) {
        continue;
      }
      pushed := pushed + [Node(d.resolve(from, found[k].path), found[k].isImport)];
    }
  }

  /** The work list with its visited set computes the walk; it ends on every disk,
      import cycles included. */
  method AppendDependencies(d: Disk, sourcePath: string)
    returns (ok: bool, fingerprint: string, visited: set<Node>)
    requires WellDigested(d)
    ensures ok <==> ExploreAll(d, Node(sourcePath, true)).Some?
    ensures ok ==> var walk := ExploreAll(d, Node(sourcePath, true)).value;
                   fingerprint == Fingerprint(d, walk.hashed) && visited == walk.visited
  {
    hide Fingerprint;
    var root := Node(sourcePath, true);
    var pending := [root];
    var first := true;
    fingerprint, visited := Fingerprint(d, []), {};
    ghost var hashed: seq<Node> := [];
    while pending != []
      invariant fingerprint == Fingerprint(d, hashed)
      invariant first ==> pending == [root] && visited == {} && hashed == []
      invariant !first ==> ExploreAll(d, root) == Continue(hashed, Explore(d, pending, visited))
      decreases first, Unvisited(d, visited), |pending|
    {
      ghost var before := pending;
      var current := pending[|pending| - 1];
      pending := pending[..|pending| - 1];
      if current in visited {
        continue;
      }
      if !first {
        var hash := d.FileDigest(current.path);
        if hash == "" {
          return false, fingerprint, visited;
        }
        assert current in Unvisited(d, visited);
        fingerprint := fingerprint + Field(current.path, hash);
        FingerprintAppend(d, hashed, current);
      }
      visited := visited + {current};
      var found := [];
      if current.isImport {
        var scanned;
        scanned, found := SourceDependencies(d.Text(current.path));
        if !scanned {
          return false, fingerprint, visited;
        }
      }
      pending := PushTargets(d, current.path, found, pending);
      ContinueTwice(hashed, [current], Explore(d, pending, visited));
      assert Children(d, current) == Some(Targets(d.resolve, current.path, found));
      if first {
        assert visited == {root};
        assert current == root && pending == Children(d, root).value;
        assert ExploreAll(d, root) == Explore(d, Children(d, root).value, {root});
      } else {
        assert Explore(d, before, visited - {current}) == Continue([current], Explore(d, pending, visited));
      }
      hashed := if first then [] else hashed + [current];
      first := false;
    }
    assert hashed + [] == hashed;
    return true, fingerprint, visited;
  }

  /******* The walk visits exactly what is reachable *******/

  // Visited nodes are sound and reachable, and what they pull in is visited or still pending.
  ghost predicate Frontier(d: Disk, root: Node, pending: seq<Node>, visited: set<Node>) {
    && (forall n <- pending :: Reachable(d, root, n))
    && (forall n <- visited :: Reachable(d, root, n) && SoundNode(d, root, n))
    && (forall n <- visited, child | child in Children(d, n).value :: child in visited || child in pending)
  }

  ghost predicate Closed(d: Disk, root: Node, visited: set<Node>) {
    && root in visited
    && (forall n <- visited :: Reachable(d, root, n) && SoundNode(d, root, n))
    && (forall n <- visited, child | child in Children(d, n).value :: child in visited)
  }

  ghost predicate FoundUnsound(d: Disk, root: Node) {
    exists n :: Reachable(d, root, n) && !SoundNode(d, root, n)
  }

  lemma PushKeepsFrontier(d: Disk, root: Node, pending: seq<Node>, visited: set<Node>, n: Node, rest: seq<Node>)
    requires Frontier(d, root, pending, visited) && pending == rest + [n] && SoundNode(d, root, n)
    ensures Frontier(d, root, rest + Children(d, n).value, visited + {n})
  {
    hide Reachable, Children;
    assert n in pending;
    forall child <- Children(d, n).value
      ensures Reachable(d, root, child)
    {
      ChildReachable(d, root, n, child);
    }
  }

  lemma {:induction false} ExploreIsExact(d: Disk, root: Node, pending: seq<Node>, visited: set<Node>)
    requires Frontier(d, root, pending, visited) && root in visited
    ensures match Explore(d, pending, visited)
            case Some(walk) =>
              && Closed(d, root, walk.visited)
              && (forall n :: n in walk.visited <==> n in visited || n in walk.hashed)
              && (forall k: nat | k < |walk.hashed| :: walk.hashed[k] !in visited && walk.hashed[k].path in d.files)
              && (forall j: nat, k: nat | j < k < |walk.hashed| :: walk.hashed[j] != walk.hashed[k])
            case None => FoundUnsound(d, root)
    decreases Unvisited(d, visited), |pending|
  {
    hide Reachable, Children;
    if pending != [] {
      var n, rest := pending[|pending| - 1], pending[..|pending| - 1];
      assert pending == rest + [n] && n in pending;
      if n in visited {
        ExploreIsExact(d, root, rest, visited);
      } else if !SoundNode(d, root, n) {
        assert Explore(d, pending, visited) == None;
      } else {
        assert n in Unvisited(d, visited);
        PushKeepsFrontier(d, root, pending, visited, n, rest);
        ExploreIsExact(d, root, rest + Children(d, n).value, visited + {n});
      }
    }
  }

  lemma {:induction false} ClosedHoldsChain(d: Disk, root: Node, visited: set<Node>, chain: seq<Node>, k: nat)
    requires Closed(d, root, visited) && IsChain(d, root, chain) && k < |chain|
    ensures chain[k] in visited
  {
    if k > 0 {
      ClosedHoldsChain(d, root, visited, chain, k - 1);
    }
  }

  /** The walk succeeds iff every reachable node is sound; then it has visited
      exactly the reachable nodes and fingerprinted each of them once, except the root. */
  lemma VisitsExactlyReachable(d: Disk, root: Node)
    ensures ExploreAll(d, root).Some? <==> forall n :: Reachable(d, root, n) ==> SoundNode(d, root, n)
    ensures ExploreAll(d, root).Some? ==>
              var walk := ExploreAll(d, root).value;
              && (forall n :: n in walk.visited <==> Reachable(d, root, n))
              && (forall n :: n in walk.hashed <==> n != root && Reachable(d, root, n))
              && (forall j: nat, k: nat | j < k < |walk.hashed| :: walk.hashed[j] != walk.hashed[k])
  {
    hide Children, Explore;
    RootReachable(d, root);
    if Children(d, root).Some? {
      var children := Children(d, root).value;
      forall child <- children
        ensures Reachable(d, root, child)
      {
        ChildReachable(d, root, root, child);
      }
      ExploreIsExact(d, root, children, {root});
      if ExploreAll(d, root).Some? {
        var walk := ExploreAll(d, root).value;
        forall n | Reachable(d, root, n)
          ensures n in walk.visited
        {
          var chain :| IsChain(d, root, chain) && chain[|chain| - 1] == n;
          ClosedHoldsChain(d, root, walk.visited, chain, |chain| - 1);
        }
      }
    }
  }

  /******* Fingerprints tell disks apart *******/

  // Two disks on which the same paths are resolved and the same digest is used.
  ghost predicate Comparable(d: Disk, e: Disk) {
    && WellDigested(d) && WellDigested(e)
    && d.resolve == e.resolve && d.digest == e.digest
    && forall p <- d.files, q <- e.files :: d.digest(d.files[p]) == d.digest(e.files[q]) ==> d.files[p] == e.files[q]
  }

  ghost predicate AgreeOn(d: Disk, e: Disk, nodes: seq<Node>) {
    forall n <- nodes :: n.path in d.files && n.path in e.files && d.files[n.path] == e.files[n.path]
  }

  lemma FirstField(d: Disk, n: Node, hashed: seq<Node>)
    ensures Fingerprint(d, [n] + hashed) == Field(n.path, d.FileDigest(n.path)) + Fingerprint(d, hashed)
  {
    assert ([n] + hashed)[1..] == hashed;
  }

  // Walks that go to the same node first agree on it iff their first fields agree.
  lemma FirstNodeAgrees(d: Disk, e: Disk, n: Node, v: seq<Node>, w: seq<Node>)
    requires Comparable(d, e) && n.path in d.files && n.path in e.files
    requires Fingerprint(d, [n] + v) == Fingerprint(e, [n] + w)
    ensures d.files[n.path] == e.files[n.path] && Fingerprint(d, v) == Fingerprint(e, w)
  {
    hide Fingerprint, Field;
    FirstField(d, n, v);
    FirstField(e, n, w);
    FieldReadBack(n.path, d.FileDigest(n.path), e.FileDigest(n.path), Fingerprint(d, v), Fingerprint(e, w));
  }

  lemma {:induction false} SameWalk(d: Disk, e: Disk, pending: seq<Node>, visited: set<Node>)
    requires Comparable(d, e) && Explore(d, pending, visited).Some? && Explore(e, pending, visited).Some?
    ensures var v, w := Explore(d, pending, visited).value, Explore(e, pending, visited).value;
            && (Fingerprint(d, v.hashed) == Fingerprint(e, w.hashed) <==> AgreeOn(d, e, v.hashed))
            && (AgreeOn(d, e, v.hashed) ==> v == w)
    decreases Unvisited(d, visited), |pending|
  {
    hide Fingerprint, Field, Targets, Scan;
    if pending == [] {
      FingerprintOfNothing(d, e);
    } else {
      var n, rest := pending[|pending| - 1], pending[..|pending| - 1];
      if n in visited {
        SameWalk(d, e, rest, visited);
      } else {
        assert n in Unvisited(d, visited);
        var x := Explore(d, rest + Children(d, n).value, visited + {n}).value;
        var y := Explore(e, rest + Children(e, n).value, visited + {n}).value;
        var v, w := Explore(d, pending, visited).value, Explore(e, pending, visited).value;
        assert v.hashed == [n] + x.hashed && w.hashed == [n] + y.hashed;
        if Fingerprint(d, v.hashed) == Fingerprint(e, w.hashed) {
          FirstNodeAgrees(d, e, n, x.hashed, y.hashed);
        }
        if d.files[n.path] == e.files[n.path] {
          assert Children(d, n) == Children(e, n);
          SameWalk(d, e, rest + Children(d, n).value, visited + {n});
          FirstField(d, n, x.hashed);
          FirstField(e, n, y.hashed);
        }
        assert n in v.hashed;
        assert forall m <- x.hashed :: m in v.hashed;
      }
    }
  }

  lemma FingerprintOfNothing(d: Disk, e: Disk)
    ensures Fingerprint(d, []) == Fingerprint(e, [])
  {
  }

  /** For roots that pull in the same nodes, two successful walks give equal fingerprints iff
      the disks agree on every file fingerprinted along the way. */
  lemma FingerprintsTellDisksApart(d: Disk, e: Disk, root: Node)
    requires Comparable(d, e) && Children(d, root) == Children(e, root)
    requires ExploreAll(d, root).Some? && ExploreAll(e, root).Some?
    ensures Fingerprint(d, ExploreAll(d, root).value.hashed) == Fingerprint(e, ExploreAll(e, root).value.hashed)
            <==> AgreeOn(d, e, ExploreAll(d, root).value.hashed)
  {
    hide Fingerprint, Explore;
    SameWalk(d, e, Children(d, root).value, {root});
  }

  lemma SameNormalFormSameChildren(d: Disk, e: Disk, root: Node)
    requires d.resolve == e.resolve && Normalize(d.Text(root.path)) == Normalize(e.Text(root.path))
    requires PathsAreUnix(d.Text(root.path)) && PathsAreUnix(e.Text(root.path))
    ensures Children(d, root) == Children(e, root)
  {
    hide Normalize, PathsAreUnix, Scan;
    SameNormalFormSameDirectives(d.Text(root.path), e.Text(root.path));
  }

  /** Equal cache keys mean equal build inputs, down to every imported and embedded file. The
      key holds the root in its normal form, so the roots themselves may differ in what that
      form leaves out. */
  lemma EqualKeysMeanEqualInputs(d: Disk, e: Disk, root: Node, b: BuildInputs, c: BuildInputs)
    requires Comparable(d, e)
    requires b.source == Normalize(d.Text(root.path)) && c.source == Normalize(e.Text(root.path))
    requires PathsAreUnix(d.Text(root.path)) && PathsAreUnix(e.Text(root.path))
    requires ExploreAll(d, root).Some? && b.userTree == Fingerprint(d, ExploreAll(d, root).value.hashed)
    requires ExploreAll(e, root).Some? && c.userTree == Fingerprint(e, ExploreAll(e, root).value.hashed)
    requires d.digest(Identity(b)) == d.digest(Identity(c)) ==> Identity(b) == Identity(c)
    requires d.digest(Identity(b)) == d.digest(Identity(c))
    ensures b == c
    ensures Normalize(d.Text(root.path)) == Normalize(e.Text(root.path))
    ensures forall n | n != root && Reachable(d, root, n) ::
              n.path in d.files && n.path in e.files && d.files[n.path] == e.files[n.path]
  {
    hide Identity, Fingerprint, Explore, Normalize, PathsAreUnix;
    IdentityInjective(b, c);
    SameNormalFormSameChildren(d, e, root);
    FingerprintsTellDisksApart(d, e, root);
    VisitsExactlyReachable(d, root);
  }

  /******* Which directives are followed *******/

  lemma {:induction false} ExtensionIsLast(a: string, b: string)
    requires '.' !in b
    ensures Extension(a + "." + b) == b
  {
    var path := a + "." + b;
    if a == "" {
      assert path[0] == '.' && path[1..] == b;
    } else {
      ExtensionIsLast(a[1..], b);
      assert path[1..] == a[1..] + "." + b;
      assert '.' in path[1..] by {
        assert path[|a|] == '.';
      }
    }
  }

  lemma {:induction false} LastDot(path: string) returns (a: string, b: string)
    requires '.' in path
    ensures path == a + "." + b && '.' !in b
  {
    var last := |path| - 1;
    if path[last] == '.' {
      a, b := path[..last], "";
    } else {
      assert path == path[..last] + [path[last]];
      var more;
      a, more := LastDot(path[..last]);
      b := more + [path[last]];
      assert path == a + "." + b;
    }
  }

  predicate EndsInZig(path: string) {
    |path| >= 4 && path[|path| - 4..] == ".zig"
  }

  // Where the last dot is, the ending shows.
  lemma EndsBehindDot(path: string, a: string, b: string)
    requires path == a + "." + b && '.' !in b
    ensures b == "zig" <==> EndsInZig(path)
  {
    var n := |path|;
    assert path[|a|] == '.' && path[|a| + 1..] == b;
    assert forall k: nat | |a| < k < n :: path[k] == b[k - |a| - 1] && path[k] != '.';
    if b == "zig" {
      assert path[n - 4..] == ".zig";
    }
    if EndsInZig(path) {
      var end := path[n - 4..];
      assert path[n - 4] == end[0] == '.' && path[n - 3] == end[1] && path[n - 2] == end[2] && path[n - 1] == end[3];
      assert end[1] == 'z' && end[2] == 'i' && end[3] == 'g';
      assert n - 4 == |a|;
      assert b == end[1..];
    }
  }

  lemma DotIsIn(path: string)
    requires EndsInZig(path)
    ensures '.' in path
  {
    assert path[|path| - 4..][0] == '.';
    assert path[|path| - 4] in path;
  }

  /** The extension is what follows the last dot, and there is none without a dot. */
  lemma ZigIffEnds(path: string)
    ensures '.' !in path ==> Extension(path) == ""
    ensures Extension(path) == "zig" <==> EndsInZig(path)
  {
    if EndsInZig(path) {
      DotIsIn(path);
    }
    if '.' in path {
      hide Extension, EndsInZig;
      var a, b := LastDot(path);
      ExtensionIsLast(a, b);
      EndsBehindDot(path, a, b);
    }
  }

  // An import that names neither a directory nor a Zig file, such as "std".
  predicate IsPackage(dependency: Dependency) {
    dependency.isImport && '/' !in dependency.path && !EndsInZig(dependency.path)
  }

  // The files the directives lead to, packages left out.
  function Followed(d: Disk, from: string, found: seq<Dependency>): seq<Node> {
    if found == [] then []
    else
      var last := found[|found| - 1];
      Followed(d, from, found[..|found| - 1])
      + if IsPackage(last) then [] else [Node(d.resolve(from, last.path), last.isImport)]
  }

  lemma {:induction false} TargetsEnd(resolve: (string, string) -> string, from: string, found: seq<Dependency>, last: Dependency)
    ensures Targets(resolve, from, found + [last]) == Targets(resolve, from, found) + Targets(resolve, from, [last])
  {
    if found == [] {
      assert found + [last] == [last];
    } else {
      TargetsEnd(resolve, from, found[1..], last);
      assert (found + [last])[1..] == found[1..] + [last];
    }
  }

  lemma {:induction false} TargetsAreFollowed(d: Disk, from: string, found: seq<Dependency>)
    ensures Targets(d.resolve, from, found) == Followed(d, from, found)
  {
    if found != [] {
      var before, last := found[..|found| - 1], found[|found| - 1];
      TargetsAreFollowed(d, from, before);
      TargetsEnd(d.resolve, from, before, last);
      assert found == before + [last];
      ZigIffEnds(last.path);
      assert [last][1..] == [];
    }
  }

  /** What a file pulls in: the targets of its directives in order, apart from packages; it has
      an answer iff its text is a program. A file that is embedded pulls in nothing. */
  lemma ChildrenAreFollowed(d: Disk, path: string)
    ensures Children(d, Node(path, false)) == Some([])
    ensures forall pieces, ending | IsProgram(pieces, ending) && PrintProgram(pieces, ending) == d.Text(path) ::
              Children(d, Node(path, true)) == Some(Followed(d, path, Directives(pieces)))
    ensures Children(d, Node(path, true)).Some? <==>
              exists pieces, ending :: IsProgram(pieces, ending) && PrintProgram(pieces, ending) == d.Text(path)
  {
    hide Scan, Targets, Followed, IsProgram, PrintProgram, Directives;
    forall pieces, ending | IsProgram(pieces, ending) && PrintProgram(pieces, ending) == d.Text(path)
      ensures Children(d, Node(path, true)) == Some(Followed(d, path, Directives(pieces)))
    {
      PrintedProgramScanned(pieces, ending);
      TargetsAreFollowed(d, path, Directives(pieces));
    }
    if Scan(d.Text(path)).Some? {
      var pieces, ending := ScannedIsProgram(d.Text(path));
    }
  }

  lemma {:induction false} DirectiveFound(pieces: seq<Piece>, k: nat)
    requires k < |pieces| && pieces[k].Directed?
    ensures Dependency(pieces[k].path, pieces[k].isImport) in Directives(pieces)
  {
    if k > 0 {
      DirectiveFound(pieces[1..], k - 1);
    }
  }

  lemma {:induction false} FollowedHolds(d: Disk, from: string, found: seq<Dependency>, dependency: Dependency)
    requires dependency in found && !IsPackage(dependency)
    ensures Node(d.resolve(from, dependency.path), dependency.isImport) in Followed(d, from, found)
  {
    var before, last := found[..|found| - 1], found[|found| - 1];
    assert found == before + [last];
    if dependency != last {
      FollowedHolds(d, from, before, dependency);
    }
  }

  /** A script that imports a Zig file by any path, or embeds a file, has another fingerprint
      when the content of that file is another. */
  lemma ImportedFileCounts(d: Disk, e: Disk, root: Node, pieces: seq<Piece>, ending: Ending, k: nat)
    requires Comparable(d, e) && ExploreAll(d, root).Some? && ExploreAll(e, root).Some?
    requires root.isImport && d.Text(root.path) == e.Text(root.path) == PrintProgram(pieces, ending)
    requires IsProgram(pieces, ending) && k < |pieces| && pieces[k].Directed?
    requires pieces[k].isImport ==> EndsInZig(pieces[k].path) || '/' in pieces[k].path
    requires var n := Node(d.resolve(root.path, pieces[k].path), pieces[k].isImport);
             n != root && !(n.path in d.files && n.path in e.files && d.files[n.path] == e.files[n.path])
    ensures Fingerprint(d, ExploreAll(d, root).value.hashed) != Fingerprint(e, ExploreAll(e, root).value.hashed)
  {
    hide Fingerprint, Explore, Scan, Children, IsProgram, PrintProgram, Directives, Followed, ExploreAll, Comparable, Reachable;
    var found := Directives(pieces);
    var n := Node(d.resolve(root.path, pieces[k].path), pieces[k].isImport);
    ChildrenAreFollowed(d, root.path);
    ChildrenAreFollowed(e, root.path);
    SameResolveSameFollowed(d, e, root.path, found);
    DirectiveFound(pieces, k);
    FollowedHolds(d, root.path, found, Dependency(pieces[k].path, pieces[k].isImport));
    RootReachable(d, root);
    ChildReachable(d, root, root, n);
    VisitsExactlyReachable(d, root);
    assert n in ExploreAll(d, root).value.hashed;
    FingerprintsTellDisksApart(d, e, root);
  }

  lemma {:induction false} SameResolveSameFollowed(d: Disk, e: Disk, from: string, found: seq<Dependency>)
    requires Comparable(d, e)
    ensures Followed(d, from, found) == Followed(e, from, found)
  {
    if found != [] {
      SameResolveSameFollowed(d, e, from, found[..|found| - 1]);
    }
  }
}
