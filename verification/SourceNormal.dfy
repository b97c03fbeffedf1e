/** The normal form of a source text: unix line ends and no blanks at either edge. The cache
    key holds this form, while the walk over the imports reads the text as it is on disk. */
module SourceNormal {
  import opened Wrappers
  import opened SourceScan

  /******* Normalisation *******/

  function Unix(s: string): string {
    if s == "" then ""
    else if "\r\n" <= s then "\n" + Unix(s[2..])
    else [s[0]] + Unix(s[1..])
  }

  // Blanks and control characters.
  predicate IsEdge(c: char) {
    c <= ' '
  }

  predicate AllEdges(s: string) {
    forall k: nat | k < |s| :: IsEdge(s[k])
  }

  function StripLeft(s: string): string {
    if s != "" && IsEdge(s[0]) then StripLeft(s[1..]) else s
  }

  function StripRight(s: string): string {
    if s != "" && IsEdge(s[|s| - 1]) then StripRight(s[..|s| - 1]) else s
  }

  function Normalize(s: string): string {
    StripRight(StripLeft(Unix(s)))
  }

  /******* What the normal form is *******/

  function LinesWith(lines: seq<string>, end: string): string {
    if lines == [] then ""
    else if |lines| == 1 then lines[0]
    else lines[0] + end + LinesWith(lines[1..], end)
  }

  predicate HasLineEnd(s: string) {
    exists i: nat :: i + 1 < |s| && s[i] == '\r' && s[i + 1] == '\n'
  }

  lemma {:induction false} UnixOfLine(line: string, rest: string)
    requires !HasLineEnd(line) && (rest == "" || "\r\n" <= rest)
    ensures Unix(line + rest) == line + Unix(rest)
  {
    var s := line + rest;
    if line == "" {
      assert s == rest;
    } else {
      assert s[1..] == line[1..] + rest && s[0] == line[0];
      assert !HasLineEnd(line[1..]) by {
        assert forall i: nat | i < |line[1..]| :: line[1..][i] == line[i + 1];
      }
      UnixOfLine(line[1..], rest);
      assert |line| > 1 ==> s[1] == line[1];
      assert |line| == 1 && rest != "" ==> s[1] == '\r';
      assert !("\r\n" <= s);
      assert line == [line[0]] + line[1..];
    }
  }

  lemma UnixOfEnd(rest: string)
    ensures Unix("\r\n" + rest) == "\n" + Unix(rest)
  {
    assert ("\r\n" + rest)[2..] == rest;
  }

  /** Replacing line ends turns exactly those of two characters into single ones: the same lines
      with other ends. */
  lemma {:induction false} UnixOfLines(lines: seq<string>)
    requires forall line <- lines :: !HasLineEnd(line)
    ensures Unix(LinesWith(lines, "\r\n")) == LinesWith(lines, "\n")
  {
    hide Unix, HasLineEnd;
    if lines == [] {
      UnixOfNothing();
    } else {
      assert lines[0] in lines;
      assert forall line <- lines[1..] :: line in lines;
      if |lines| == 1 {
        UnixOfLine(lines[0], "");
        UnixOfNothing();
        assert lines[0] + "" == lines[0];
      } else {
        var rest := LinesWith(lines[1..], "\r\n");
        UnixOfLines(lines[1..]);
        UnixOfLine(lines[0], "\r\n" + rest);
        UnixOfEnd(rest);
        assert LinesWith(lines, "\r\n") == lines[0] + ("\r\n" + rest);
        assert lines[0] + ("\n" + Unix(rest)) == lines[0] + "\n" + Unix(rest);
      }
    }
  }

  lemma UnixOfNothing()
    ensures Unix("") == ""
  {
  }

  lemma {:induction false} StripLeftSplits(s: string) returns (edges: string)
    ensures AllEdges(edges) && s == edges + StripLeft(s)
    ensures StripLeft(s) == "" || StripLeft(s)[0] > ' '
  {
    edges := "";
    if s != "" && IsEdge(s[0]) {
      var more := StripLeftSplits(s[1..]);
      edges := [s[0]] + more;
      assert s == [s[0]] + s[1..];
    }
  }

  lemma {:induction false} StripRightEnds(s: string) returns (edges: string)
    ensures AllEdges(edges) && s == StripRight(s) + edges
    ensures StripRight(s) == "" || StripRight(s)[|StripRight(s)| - 1] > ' '
    ensures StripRight(s) <= s
  {
    edges := "";
    if s != "" && IsEdge(s[|s| - 1]) {
      var more := StripRightEnds(s[..|s| - 1]);
      edges := more + [s[|s| - 1]];
      assert s == s[..|s| - 1] + [s[|s| - 1]];
    }
  }

  /** The normal form is the text with unix line ends between its edges: what is stripped on
      either side is blanks and control characters, and all of them. */
  lemma NormalIsBetweenEdges(s: string) returns (left: string, right: string)
    ensures Unix(s) == left + Normalize(s) + right
    ensures forall c <- left + right :: c <= ' '
    ensures Normalize(s) == "" || (Normalize(s)[0] > ' ' && Normalize(s)[|Normalize(s)| - 1] > ' ')
  {
    hide Unix;
    left := StripLeftSplits(Unix(s));
    var rest := StripLeft(Unix(s));
    right := StripRightEnds(rest);
    assert Normalize(s) == StripRight(rest);
    assert Unix(s) == left + (Normalize(s) + right) == left + Normalize(s) + right;
    assert Normalize(s) != "" ==> Normalize(s)[0] == rest[0];
    forall c <- left + right ensures c <= ' ' {
      assert c in left || c in right;
    }
  }

  /******* Line ends *******/

  lemma UnixStep(s: string)
    requires s != ""
    ensures "\r\n" <= s ==> Unix(s) == "\n" + Unix(s[2..]) && Unix(s)[0] == '\n' && Unix(s)[1..] == Unix(s[2..])
    ensures !("\r\n" <= s) ==> Unix(s) == [s[0]] + Unix(s[1..]) && Unix(s)[0] == s[0] && Unix(s)[1..] == Unix(s[1..])
    ensures Unix(s) != ""
  {
  }

  lemma Regroup(a: string, b: string, c: string)
    ensures a + (b + c) == (a + b) + c
  {
  }

  lemma TailOfSum(a: string, b: string, k: nat)
    requires k <= |a|
    ensures (a + b)[k..] == a[k..] + b
    ensures k < |a| ==> a[k..][|a| - k - 1] == a[|a| - 1]
  {
  }

  lemma {:induction false} UnixSplits(a: string, b: string)
    requires a == "" || b == "" || a[|a| - 1] != '\r' || b[0] != '\n'
    ensures Unix(a + b) == Unix(a) + Unix(b)
    decreases |a|
  {
    if a == "" {
      assert a + b == b;
    } else if b == "" {
      assert a + b == a && Unix(a) + "" == Unix(a);
    } else {
      hide Unix;
      var k := if "\r\n" <= a then 2 else 1;
      var head := if "\r\n" <= a then "\n" else [a[0]];
      UnixStep(a);
      UnixStep(a + b);
      SameStart(a, b);
      TailOfSum(a, b, k);
      UnixSplits(a[k..], b);
      Regroup(head, Unix(a[k..]), Unix(b));
    }
  }

  lemma SameStart(a: string, b: string)
    requires a != "" && b != "" && (a[|a| - 1] != '\r' || b[0] != '\n')
    ensures (a + b)[0] == a[0] && ("\r\n" <= a + b <==> "\r\n" <= a)
  {
    if |a| == 1 {
      assert (a + b)[1] == b[0];
    } else {
      assert (a + b)[1] == a[1];
    }
  }

  // A text with no line ends in it.
  predicate Plain(s: string) {
    '\r' !in s && '\n' !in s
  }

  lemma {:induction false} UnixOfPlain(s: string)
    requires Plain(s)
    ensures Unix(s) == s
  {
    if s != "" {
      UnixOfPlain(s[1..]);
      assert s[0] in s;
      assert [s[0]] + s[1..] == s;
    }
  }

  lemma PrefixStep(p: string, s: string)
    requires p != "" && s != ""
    ensures p <= s <==> p[0] == s[0] && p[1..] <= s[1..]
    ensures |p| <= |s| ==> s[1..][|p| - 1..] == s[|p|..]
  {
    assert p == [p[0]] + p[1..] && s == [s[0]] + s[1..];
  }

  lemma StartsWithCharacter(s: string, p: string)
    requires s != "" && p != "" && Plain(p) && !("\r\n" <= s)
    requires p[1..] <= Unix(s[1..]) <==> p[1..] <= s[1..]
    requires p[1..] <= s[1..] ==> Unix(s[1..])[|p| - 1..] == Unix(s[1..][|p| - 1..])
    ensures p <= Unix(s) <==> p <= s
    ensures p <= s ==> Unix(s)[|p|..] == Unix(s[|p|..])
  {
    hide Unix, Plain;
    UnixStep(s);
    PrefixStep(p, s);
    PrefixStep(p, Unix(s));
  }

  lemma StartsWithLineEnd(s: string, p: string)
    requires p != "" && Plain(p) && "\r\n" <= s
    ensures !(p <= Unix(s)) && !(p <= s)
  {
    hide Unix;
    UnixStep(s);
    assert p[0] in p;
  }

  lemma {:induction false} UnixStarts(s: string, p: string)
    requires Plain(p)
    ensures p <= Unix(s) <==> p <= s
    ensures p <= s ==> Unix(s)[|p|..] == Unix(s[|p|..])
    decreases |p|
  {
    if p == "" {
      assert s[0..] == s && Unix(s)[0..] == Unix(s);
    } else if s != "" {
      hide Unix;
      if "\r\n" <= s {
        StartsWithLineEnd(s, p);
      } else {
        UnixStarts(s[1..], p[1..]);
        StartsWithCharacter(s, p);
      }
    }
  }

  lemma {:induction false} LineOfUnix(s: string)
    ensures AfterLine(Unix(s)) == Unix(AfterLine(s))
    decreases |s|
  {
    hide Unix;
    if s == "" {
      UnixOfPlain(s);
    } else {
      UnixStep(s);
      if "\r\n" <= s {
        assert s[1..][1..] == s[2..] && s[1..][0] == '\n';
      } else if s[0] != '\n' {
        LineOfUnix(s[1..]);
      }
    }
  }

  lemma SkipsLineFeed(s: string, quote: char)
    requires s != "" && s[0] == '\n' && (quote == '"' || quote == '\'')
    ensures AfterLiteral(s, quote) == AfterLiteral(s[1..], quote)
  {
  }

  lemma {:induction false} LiteralOfUnix(s: string, quote: char)
    requires quote == '"' || quote == '\''
    ensures AfterLiteral(Unix(s), quote) == Unix(AfterLiteral(s, quote))
    decreases |s|
  {
    hide Unix;
    if s == "" {
      UnixOfPlain(s);
    } else {
      UnixStep(s);
      if "\r\n" <= s {
        assert s[1..][1..] == s[2..];
        SkipsLineFeed(s[1..], quote);
        LiteralOfUnix(s[2..], quote);
      } else if s[0] == '\\' {
        UnixOfPlain("");
        if |s| > 1 {
          UnixStep(s[1..]);
          assert s[1..][1..] == s[2..] && Unix(s)[1..][1..] == Unix(s)[2..];
          if "\r\n" <= s[1..] {
            assert s[1..][2..] == s[3..] && s[2..][1..] == s[3..];
            SkipsLineFeed(s[2..], quote);
            LiteralOfUnix(s[3..], quote);
          } else {
            LiteralOfUnix(s[2..], quote);
          }
        } else {
          assert s[1..] == "";
        }
      } else if s[0] != quote {
        LiteralOfUnix(s[1..], quote);
      }
    }
  }

  lemma {:induction false} BlanksOfUnix(s: string)
    ensures SkipBlanks(Unix(s)) == Unix(SkipBlanks(s))
    decreases |s|
  {
    hide Unix;
    if s == "" {
      UnixOfPlain(s);
    } else {
      UnixStep(s);
      if "\r\n" <= s {
        assert s[1..][1..] == s[2..] && s[1..][0] == '\n';
        BlanksOfUnix(s[2..]);
      } else if IsBlank(s[0]) {
        BlanksOfUnix(s[1..]);
      }
    }
  }

  lemma PathStep(s: string)
    requires s != "" && s[0] != '"' && s[0] != '\\'
    ensures PathLength(s) == match PathLength(s[1..]) case Some(n) => Some(n + 1) case None => None
  {
  }

  lemma PathEnds(s: string)
    requires s == "" || s[0] == '"' || s[0] == '\\'
    ensures PathLength(Unix(s)) == PathLength(s)
    ensures PathLength(s).Some? ==> PathLength(s).value == 0 && Unix(s[..0]) == ""
  {
    assert s[..0] == "";
  }

  // The closing quote is where the path up to it ends, with unix line ends.
  lemma {:induction false} PathLengthOfUnix(s: string)
    ensures PathLength(Unix(s)) ==
            match PathLength(s) case Some(n) => Some(|Unix(s[..n])|) case None => None
    decreases |s|
  {
    hide Unix, PathLength;
    if s == "" || s[0] == '"' || s[0] == '\\' {
      PathEnds(s);
    } else if "\r\n" <= s {
      CrossesLineEnd(s);
      PathLengthOfUnix(s[2..]);
    } else {
      CrossesCharacter(s);
      PathLengthOfUnix(s[1..]);
    }
  }

  lemma CrossesLineEnd(s: string)
    requires "\r\n" <= s
    ensures PathLength(Unix(s)) == match PathLength(Unix(s[2..])) case Some(n) => Some(n + 1) case None => None
    ensures PathLength(s) == match PathLength(s[2..]) case Some(n) => Some(n + 2) case None => None
    ensures forall n: nat | n + 2 <= |s| :: |Unix(s[..n + 2])| == |Unix(s[2..][..n])| + 1
  {
    hide Unix, PathLength;
    UnixStep(s);
    PathStep(Unix(s));
    PathStep(s);
    assert s[1..][1..] == s[2..] && s[1..][0] == '\n';
    PathStep(s[1..]);
    forall n: nat | n + 2 <= |s| ensures |Unix(s[..n + 2])| == |Unix(s[2..][..n])| + 1 {
      UnixStep(s[..n + 2]);
      assert s[..n + 2][2..] == s[2..][..n];
    }
  }

  lemma CrossesCharacter(s: string)
    requires s != "" && !("\r\n" <= s) && s[0] != '"' && s[0] != '\\'
    ensures PathLength(Unix(s)) == match PathLength(Unix(s[1..])) case Some(n) => Some(n + 1) case None => None
    ensures PathLength(s) == match PathLength(s[1..]) case Some(n) => Some(n + 1) case None => None
    ensures forall n: nat | n + 1 <= |s| :: |Unix(s[..n + 1])| == |Unix(s[1..][..n])| + 1
  {
    hide Unix, PathLength;
    UnixStep(s);
    PathStep(Unix(s));
    PathStep(s);
    forall n: nat | n + 1 <= |s| ensures |Unix(s[..n + 1])| == |Unix(s[1..][..n])| + 1 {
      UnixStep(s[..n + 1]);
      assert s[..n + 1][1..] == s[1..][..n];
    }
  }

  lemma ArgumentOfUnix(s: string)
    ensures Argument(Unix(s)).Some? <==> Argument(s).Some?
    ensures Argument(s).Some? ==> Argument(Unix(s)) == Some((Unix(Argument(s).value.0), Unix(Argument(s).value.1)))
  {
    hide Unix, SkipBlanks, PathLength;
    BlanksOfUnix(s);
    var first := SkipBlanks(s);
    if first == "" {
      UnixOfPlain("");
    } else {
      UnixStep(first);
      if first[0] == '(' {
        BlanksOfUnix(first[1..]);
        var quoted := SkipBlanks(first[1..]);
        if quoted == "" {
          UnixOfPlain("");
        } else {
          UnixStep(quoted);
          if quoted[0] == '"' {
            QuotedOfUnix(quoted[1..]);
          }
        }
      }
    }
  }

  lemma QuotedOfUnix(s: string)
    ensures PathLength(Unix(s)).Some? <==> PathLength(s).Some?
    ensures PathLength(s).Some? ==>
              var n, m := PathLength(s).value, PathLength(Unix(s)).value;
              Unix(s)[..m] == Unix(s[..n]) && Unix(s)[m + 1..] == Unix(s[n + 1..])
  {
    hide Unix, PathLength;
    PathLengthOfUnix(s);
    if PathLength(s).Some? {
      var n := PathLength(s).value;
      assert s == s[..n] + s[n..];
      UnixSplits(s[..n], s[n..]);
      UnixStep(s[n..]);
      assert s[n..][1..] == s[n + 1..];
      assert Unix(s)[|Unix(s[..n])| + 1..] == Unix(s[n..])[1..];
    }
  }

  // The same directives, with unix line ends in their paths.
  function UnixPaths(found: seq<Dependency>): seq<Dependency> {
    seq(|found|, k requires 0 <= k < |found| => found[k].(path := Unix(found[k].path)))
  }

  function UnixFound(found: Option<seq<Dependency>>): Option<seq<Dependency>> {
    match found
    case Some(dependencies) => Some(UnixPaths(dependencies))
    case None => None
  }

  lemma UnixPrepends(d: Dependency, rest: Option<seq<Dependency>>)
    ensures UnixFound(Prepend([d], rest)) == Prepend([d.(path := Unix(d.path))], UnixFound(rest))
  {
    hide Unix;
    if rest.Some? {
      assert UnixPaths([d] + rest.value) == [d.(path := Unix(d.path))] + UnixPaths(rest.value);
    }
  }

  /** Scanning a text with unix line ends finds the same directives, but for the line ends in
      their paths. */
  lemma {:induction false} ScanOfUnix(s: string)
    ensures Scan(Unix(s)) == UnixFound(Scan(s))
    decreases |s|
  {
    hide Unix, AfterLine, AfterLiteral, Argument, Prepend;
    if s == "" {
      UnixOfPlain("");
      assert UnixPaths([]) == [];
    } else {
      UnixStep(s);
      UnixStarts(s, "//");
      UnixStarts(s, IMPORT);
      UnixStarts(s, EMBED);
      if "\r\n" <= s {
        assert s[1..][1..] == s[2..] && s[1..][0] == '\n';
        ScanSkips(s);
        ScanSkips(s[1..]);
        ScanSkips(Unix(s));
        ScanOfUnix(s[2..]);
      } else if "//" <= s {
        LineOfUnix(s[2..]);
        ScanOfUnix(AfterLine(s[2..]));
      } else if s[0] == '"' || s[0] == '\'' {
        LiteralOfUnix(s[1..], s[0]);
        ScanOfUnix(AfterLiteral(s[1..], s[0]));
      } else if IMPORT <= s {
        DirectiveOfUnix(s[|IMPORT|..], true);
      } else if EMBED <= s {
        DirectiveOfUnix(s[|EMBED|..], false);
      } else {
        ScanOfUnix(s[1..]);
      }
    }
  }

  lemma DirectiveOfUnix(s: string, isImport: bool)
    ensures Directive(Unix(s), isImport) == UnixFound(Directive(s, isImport))
    decreases |s|
  {
    hide Unix, Argument, Scan, Prepend;
    ArgumentOfUnix(s);
    match Argument(s)
    case Some((path, rest)) =>
      ScanOfUnix(rest);
      UnixPrepends(Dependency(path, isImport), Scan(rest));
    case None =>
  }

  // A character that starts nothing is passed over.
  lemma ScanSkips(s: string)
    requires s != "" && (IsEdge(s[0]))
    ensures Scan(s) == Scan(s[1..])
  {
    assert "//"[0] == '/' && IMPORT[0] == '@' && EMBED[0] == '@';
  }

  /******* Edges *******/

  lemma {:induction false} ScanOfStripLeft(s: string)
    ensures Scan(StripLeft(s)) == Scan(s)
  {
    hide Scan;
    if s != "" && IsEdge(s[0]) {
      ScanSkips(s);
      ScanOfStripLeft(s[1..]);
    }
  }

  lemma {:induction false} ScanOfEdges(s: string)
    requires AllEdges(s)
    ensures Scan(s) == Some([])
  {
    if s != "" {
      ScanSkips(s);
      ScanOfEdges(s[1..]);
    }
  }

  // What a scanning step leaves of a text, and of the same text with edges behind it.
  predicate EdgesBehind(rest: string, longer: string) {
    rest <= longer && AllEdges(longer[|rest|..])
  }

  lemma {:induction false} LineBeforeEdges(s: string, edges: string)
    requires AllEdges(edges)
    ensures EdgesBehind(AfterLine(s), AfterLine(s + edges))
  {
    if s == "" {
      assert s + edges == edges;
      LineOfEdges(edges);
    } else {
      assert (s + edges)[1..] == s[1..] + edges;
      if s[0] != '\n' {
        LineBeforeEdges(s[1..], edges);
      }
    }
  }

  lemma {:induction false} LineOfEdges(edges: string)
    requires AllEdges(edges)
    ensures AllEdges(AfterLine(edges))
  {
    if edges != "" {
      LineOfEdges(edges[1..]);
    }
  }

  lemma {:induction false} LiteralOfEdges(edges: string, quote: char)
    requires AllEdges(edges) && !IsEdge(quote)
    ensures AllEdges(AfterLiteral(edges, quote))
  {
    if edges != "" {
      LiteralOfEdges(edges[1..], quote);
    }
  }

  lemma {:induction false} LiteralBeforeEdges(s: string, edges: string, quote: char)
    requires AllEdges(edges) && !IsEdge(quote)
    ensures EdgesBehind(AfterLiteral(s, quote), AfterLiteral(s + edges, quote))
    decreases |s|
  {
    if s == "" {
      assert s + edges == edges;
      LiteralOfEdges(edges, quote);
    } else {
      assert (s + edges)[1..] == s[1..] + edges;
      if s[0] == '\\' {
        if |s| == 1 {
          if edges != "" {
            assert (s + edges)[2..] == edges[1..];
            LiteralOfEdges(edges[1..], quote);
          }
        } else {
          assert (s + edges)[2..] == s[2..] + edges;
          LiteralBeforeEdges(s[2..], edges, quote);
        }
      } else if s[0] != quote {
        LiteralBeforeEdges(s[1..], edges, quote);
      }
    }
  }

  lemma {:induction false} BlanksBeforeEdges(s: string, edges: string)
    requires AllEdges(edges)
    ensures SkipBlanks(s) != "" ==> SkipBlanks(s + edges) == SkipBlanks(s) + edges
    ensures SkipBlanks(s) == "" ==> AllEdges(SkipBlanks(s + edges))
  {
    if s == "" {
      assert s + edges == edges;
      BlanksOfEdges(edges);
    } else {
      assert (s + edges)[1..] == s[1..] + edges && (s + edges)[0] == s[0];
      if IsBlank(s[0]) {
        BlanksBeforeEdges(s[1..], edges);
      }
    }
  }

  lemma {:induction false} BlanksOfEdges(edges: string)
    requires AllEdges(edges)
    ensures AllEdges(SkipBlanks(edges))
  {
    if edges != "" {
      BlanksOfEdges(edges[1..]);
    }
  }

  lemma {:induction false} PathBeforeEdges(s: string, edges: string)
    requires AllEdges(edges)
    ensures PathLength(s + edges) == PathLength(s)
  {
    if s == "" {
      assert s + edges == edges;
      PathOfEdges(edges);
    } else {
      assert (s + edges)[1..] == s[1..] + edges && (s + edges)[0] == s[0];
      PathBeforeEdges(s[1..], edges);
    }
  }

  lemma {:induction false} PathOfEdges(edges: string)
    requires AllEdges(edges)
    ensures PathLength(edges) == None
  {
    if edges != "" {
      PathOfEdges(edges[1..]);
    }
  }

  lemma ArgumentBeforeEdges(s: string, edges: string)
    requires AllEdges(edges)
    ensures match Argument(s)
            case Some((path, rest)) => Argument(s + edges) == Some((path, rest + edges))
            case None => Argument(s + edges) == None
  {
    hide SkipBlanks, PathLength;
    BlanksBeforeEdges(s, edges);
    var first := SkipBlanks(s);
    if first == "" {
      assert SkipBlanks(s + edges) != "" ==> IsEdge(SkipBlanks(s + edges)[0]);
    } else if first[0] == '(' {
      assert (first + edges)[1..] == first[1..] + edges;
      BlanksBeforeEdges(first[1..], edges);
      var quoted := SkipBlanks(first[1..]);
      if quoted == "" {
        assert SkipBlanks(first[1..] + edges) != "" ==> IsEdge(SkipBlanks(first[1..] + edges)[0]);
      } else if quoted[0] == '"' {
        assert (quoted + edges)[1..] == quoted[1..] + edges;
        PathBeforeEdges(quoted[1..], edges);
        if PathLength(quoted[1..]).Some? {
          var n := PathLength(quoted[1..]).value;
          assert (quoted[1..] + edges)[..n] == quoted[1..][..n];
          assert (quoted[1..] + edges)[n + 1..] == quoted[1..][n + 1..] + edges;
        }
      }
    }
  }

  // A prefix without edges in it is found with edges behind the text iff without them.
  lemma {:induction false} StartsBeforeEdges(s: string, edges: string, p: string)
    requires AllEdges(edges) && forall c <- p :: !IsEdge(c)
    ensures p <= s + edges <==> p <= s
    ensures p <= s ==> (s + edges)[|p|..] == s[|p|..] + edges
    decreases |p|
  {
    if p != "" {
      assert p[0] in p;
      if s == "" {
        assert s + edges == edges;
      } else {
        assert (s + edges)[0] == s[0] && (s + edges)[1..] == s[1..] + edges;
        StartsBeforeEdges(s[1..], edges, p[1..]);
        assert p == [p[0]] + p[1..] && s == [s[0]] + s[1..] && s + edges == [s[0]] + (s[1..] + edges);
        if p <= s {
          assert s[1..][|p| - 1..] == s[|p|..] && (s + edges)[1..][|p| - 1..] == (s + edges)[|p|..];
        }
      }
    }
  }

  lemma ScanBehind(rest: string, longer: string)
    requires EdgesBehind(rest, longer)
    ensures Scan(longer) == Scan(rest)
    decreases |rest|, 1
  {
    assert longer == rest + longer[|rest|..];
    ScanBeforeEdges(rest, longer[|rest|..]);
  }

  /** Edges behind a text change nothing about what is found in it. */
  lemma {:induction false} ScanBeforeEdges(s: string, edges: string)
    requires AllEdges(edges)
    ensures Scan(s + edges) == Scan(s)
    decreases |s|, 0
  {
    hide AfterLine, AfterLiteral, Argument, Prepend;
    if s == "" {
      assert s + edges == edges;
      ScanOfEdges(edges);
    } else {
      assert (s + edges)[1..] == s[1..] + edges && (s + edges)[0] == s[0];
      StartsBeforeEdges(s, edges, "//");
      StartsBeforeEdges(s, edges, IMPORT);
      StartsBeforeEdges(s, edges, EMBED);
      if "//" <= s {
        LineBeforeEdges(s[2..], edges);
        ScanBehind(AfterLine(s[2..]), AfterLine(s[2..] + edges));
      } else if s[0] == '"' || s[0] == '\'' {
        LiteralBeforeEdges(s[1..], edges, s[0]);
        ScanBehind(AfterLiteral(s[1..], s[0]), AfterLiteral(s[1..] + edges, s[0]));
      } else if IMPORT <= s {
        DirectiveBeforeEdges(s[|IMPORT|..], edges, true);
      } else if EMBED <= s {
        DirectiveBeforeEdges(s[|EMBED|..], edges, false);
      } else {
        ScanBeforeEdges(s[1..], edges);
      }
    }
  }

  lemma DirectiveBeforeEdges(s: string, edges: string, isImport: bool)
    requires AllEdges(edges)
    ensures Directive(s + edges, isImport) == Directive(s, isImport)
    decreases |s|, 2
  {
    hide Argument, Scan, Prepend;
    ArgumentBeforeEdges(s, edges);
    match Argument(s)
    case Some((path, rest)) => ScanBeforeEdges(rest, edges);
    case None =>
  }

  lemma {:induction false} StripRightSplits(s: string)
    ensures EdgesBehind(StripRight(s), s)
  {
    if s != "" && IsEdge(s[|s| - 1]) {
      StripRightSplits(s[..|s| - 1]);
    }
  }

  /** The normal form of a text has the directives of the text, with unix line ends in their
      paths. */
  lemma NormalFormScans(s: string)
    ensures Scan(Normalize(s)) == UnixFound(Scan(s))
  {
    hide Scan, Unix, StripLeft, StripRight;
    ScanOfUnix(s);
    ScanOfStripLeft(Unix(s));
    StripRightSplits(StripLeft(Unix(s)));
    ScanBehind(StripRight(StripLeft(Unix(s))), StripLeft(Unix(s)));
  }

  // No path of a directive has a line end of two characters.
  ghost predicate PathsAreUnix(s: string) {
    Scan(s).Some? ==> forall d <- Scan(s).value :: Unix(d.path) == d.path
  }

  /** Texts with one normal form have the same directives, if none of their paths has a line
      end of two characters. */
  lemma SameNormalFormSameDirectives(s: string, t: string)
    requires Normalize(s) == Normalize(t) && PathsAreUnix(s) && PathsAreUnix(t)
    ensures Scan(s) == Scan(t)
  {
    NormalFormScans(s);
    NormalFormScans(t);
    hide Scan, Normalize, Unix;
    UnixPathsSame(s);
    UnixPathsSame(t);
  }

  lemma UnixPathsSame(s: string)
    requires PathsAreUnix(s)
    ensures UnixFound(Scan(s)) == Scan(s)
  {
    hide Scan, Unix;
    if Scan(s).Some? {
      var found := Scan(s).value;
      forall k: nat | k < |found| ensures UnixPaths(found)[k] == found[k] {
        assert found[k] in found;
      }
      assert UnixPaths(found) == found;
    }
  }
}
