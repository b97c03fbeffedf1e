/** The scanner that finds the files a Zig source pulls in with `@import` and
    `@embedFile`, skipping line comments and quoted literals. */
module SourceScan {
  import opened Wrappers

  datatype Dependency = Dependency(path: string, isImport: bool)

  const IMPORT := "@import"
  const EMBED := "@embedFile"

  predicate IsBlank(c: char) {
    c == ' ' || c == '\t' || c == '\r' || c == '\n'
  }

  /******* Meaning of a source text *******/

  function AfterLine(s: string): (r: string)
    ensures |r| <= |s|
  {
    if s == "" then "" else if s[0] == '\n' then s[1..] else AfterLine(s[1..])
  }

  // The rest behind a literal whose opening quote has been read.
  function AfterLiteral(s: string, quote: char): (r: string)
    ensures |r| <= |s|
    decreases |s|
  {
    if s == "" then ""
    else if s[0] == '\\' then AfterLiteral(if |s| == 1 then "" else s[2..], quote)
    else if s[0] == quote then s[1..]
    else AfterLiteral(s[1..], quote)
  }

  function SkipBlanks(s: string): (r: string)
    ensures |r| <= |s|
  {
    if s != "" && IsBlank(s[0]) then SkipBlanks(s[1..]) else s
  }

  // The path up to the closing quote; a backslash or the end of the text is an error.
  function PathLength(s: string): (r: Option<nat>)
    ensures r.Some? ==> r.value < |s| && s[r.value] == '"'
  {
    if s == "" || s[0] == '\\' then None
    else if s[0] == '"' then Some(0)
    else
      match PathLength(s[1..])
      case Some(n) => Some(n + 1)
      case None => None
  }

  // The argument of a directive and the rest behind it.
  function Argument(s: string): (r: Option<(string, string)>)
    ensures r.Some? ==> |r.value.1| < |s|
  {
    var open := SkipBlanks(s);
    if open == "" || open[0] != '(' then None
    else
      var quoted := SkipBlanks(open[1..]);
      if quoted == "" || quoted[0] != '"' then None
      else
        match PathLength(quoted[1..])
        case Some(n) => Some((quoted[1..][..n], quoted[1..][n + 1..]))
        case None => None
  }

  function Prepend(found: seq<Dependency>, rest: Option<seq<Dependency>>): Option<seq<Dependency>> {
    match rest
    case Some(more) => Some(found + more)
    case None => None
  }

  lemma PrependNothing(rest: Option<seq<Dependency>>)
    ensures Prepend([], rest) == rest
  {
    if rest.Some? {
      assert [] + rest.value == rest.value;
    }
  }

  lemma PrependTwice(a: seq<Dependency>, b: seq<Dependency>, rest: Option<seq<Dependency>>)
    ensures Prepend(a, Prepend(b, rest)) == Prepend(a + b, rest)
  {
    if rest.Some? {
      assert a + (b + rest.value) == a + b + rest.value;
    }
  }

  function Directive(s: string, isImport: bool): Option<seq<Dependency>>
    decreases |s|, 0
  {
    match Argument(s)
    case Some((path, rest)) => Prepend([Dependency(path, isImport)], Scan(rest))
    case None => None
  }

  function Scan(s: string): Option<seq<Dependency>>
    decreases |s|, 1
  {
    if s == "" then Some([])
    else if "//" <= s then Scan(AfterLine(s[2..]))
    else if s[0] == '"' || s[0] == '\'' then Scan(AfterLiteral(s[1..], s[0]))
    else if IMPORT <= s then Directive(s[|IMPORT|..], true)
    else if EMBED <= s then Directive(s[|EMBED|..], false)
    else Scan(s[1..])
  }

  /******* The scanner *******/

  // What is left from an index that may lie behind the end.
  function From(s: string, index: nat): string {
    if index <= |s| then s[index..] else ""
  }

  method SkipComment(source: string, start: nat) returns (index: nat)
    requires start <= |source|
    ensures start <= index <= |source| && source[index..] == AfterLine(source[start..])
  {
    index := start;
    while index < |source|
      invariant start <= index <= |source|
      invariant AfterLine(source[start..]) == AfterLine(source[index..])
    {
      index := index + 1;
      if source[index - 1] == '\n' {
        return;
      }
    }
  }

  method SkipLiteral(source: string, start: nat) returns (index: nat)
    requires start < |source|
    ensures start < index && From(source, index) == AfterLiteral(source[start + 1..], source[start])
  {
    var quote := source[start];
    index := start + 1;
    while index < |source|
      invariant start < index
      invariant AfterLiteral(source[start + 1..], quote) == AfterLiteral(From(source, index), quote)
    {
      if source[index] == '\\' {
        index := index + 2;
        continue;
      }
      index := index + 1;
      if source[index - 1] == quote {
        break;
      }
    }
  }

  method SkipBlanksFrom(source: string, start: nat) returns (index: nat)
    requires start <= |source|
    ensures start <= index <= |source| && source[index..] == SkipBlanks(source[start..])
  {
    index := start;
    while index < |source| && IsBlank(source[index])
      invariant start <= index <= |source|
      invariant SkipBlanks(source[start..]) == SkipBlanks(source[index..])
    {
      index := index + 1;
    }
  }

  method ReadPath(source: string, begin: nat) returns (ok: bool, index: nat)
    requires begin <= |source|
    ensures ok <==> PathLength(source[begin..]).Some?
    ensures ok ==> begin <= index < |source| && PathLength(source[begin..]) == Some(index - begin)
  {
    ok, index := false, begin;
    while index < |source| && source[index] != '"'
      invariant begin <= index <= |source|
      invariant PathLength(source[begin..]).Some? <==> PathLength(source[index..]).Some?
      invariant PathLength(source[index..]).Some? ==>
          PathLength(source[begin..]).value == index - begin + PathLength(source[index..]).value
    {
      if source[index] == '\\' {
        return;
      }
      index := index + 1;
    }
    ok := index < |source|;
  }

  method ReadArgument(source: string, start: nat) returns (ok: bool, path: string, index: nat)
    requires start <= |source|
    ensures ok <==> Argument(source[start..]).Some?
    ensures ok ==> start < index <= |source| && Argument(source[start..]) == Some((path, source[index..]))
  {
    hide SkipBlanks, PathLength;
    ok, path := false, "";
    var open := SkipBlanksFrom(source, start);
    index := open;
    if index >= |source| || source[index] != '(' {
      return;
    }
    assert source[open..][1..] == source[open + 1..];
    index := SkipBlanksFrom(source, open + 1);
    if index >= |source| || source[index] != '"' {
      return;
    }
    var begin := index + 1;
    assert source[index..][1..] == source[begin..];
    ok, index := ReadPath(source, begin);
    if !ok {
      return;
    }
    path := source[begin..index];
    assert source[begin..][..index - begin] == path && source[begin..][index - begin + 1..] == source[index + 1..];
    index := index + 1;
  }

  // What the meaning of the text says at one index.
  lemma ScanPlain(source: string, index: nat)
    requires index < |source| && !("//" <= source[index..]) && source[index] != '"' && source[index] != '\''
    requires !(IMPORT <= source[index..]) && !(EMBED <= source[index..])
    ensures Scan(source[index..]) == Scan(source[index + 1..])
  {
    assert source[index..][1..] == source[index + 1..];
  }

  lemma ScanComment(source: string, index: nat)
    requires index + 1 < |source| && source[index] == '/' && source[index + 1] == '/'
    ensures Scan(source[index..]) == Scan(AfterLine(source[index + 2..]))
  {
    assert source[index..][2..] == source[index + 2..];
  }

  lemma ScanLiteral(source: string, index: nat)
    requires index < |source| && (source[index] == '"' || source[index] == '\'')
    ensures Scan(source[index..]) == Scan(AfterLiteral(source[index + 1..], source[index]))
  {
    assert source[index..][1..] == source[index + 1..];
  }

  lemma ScanDirective(source: string, index: nat, isImport: bool)
    requires index < |source| && (if isImport then IMPORT <= source[index..] else EMBED <= source[index..])
    ensures var argument := index + if isImport then |IMPORT| else |EMBED|;
            && argument <= |source|
            && Scan(source[index..]) ==
               match Argument(source[argument..])
               case Some((path, rest)) => Prepend([Dependency(path, isImport)], Scan(rest))
               case None => None
  {
    hide Argument, Prepend;
    var argument := index + if isImport then |IMPORT| else |EMBED|;
    var rest := source[index..];
    assert IMPORT[0] == '@' && EMBED[0] == '@' && IMPORT[1] == 'i' && EMBED[1] == 'e';
    assert rest[0] == '@' && rest[1] == if isImport then 'i' else 'e';
    assert rest[argument - index..] == source[argument..];
  }

  lemma PrependEnds(found: seq<Dependency>)
    ensures Prepend(found, None) == None && Prepend(found, Scan("")) == Some(found)
  {
    assert found + [] == found;
  }

  /** The scanner stays within the text and returns what the text means. */
  method SourceDependencies(source: string) returns (ok: bool, dependencies: seq<Dependency>)
    ensures ok <==> Scan(source).Some?
    ensures ok ==> Scan(source) == Some(dependencies)
  {
    dependencies := [];
    var index := 0;
    PrependNothing(Scan(source));
    hide Scan, Prepend, Argument, AfterLine, AfterLiteral;
    while index < |source|
      invariant Scan(source) == Prepend(dependencies, Scan(From(source, index)))
      decreases |source| - index
    {
      if source[index] == '/' && index + 1 < |source| && source[index + 1] == '/' {
        ScanComment(source, index);
        index := SkipComment(source, index + 2);
        continue;
      }
      if source[index] == '"' || source[index] == '\'' {
        ScanLiteral(source, index);
        index := SkipLiteral(source, index);
        continue;
      }
      var isImport := IMPORT <= source[index..];
      var isEmbed := EMBED <= source[index..];
      if !isImport && !isEmbed {
        ScanPlain(source, index);
        index := index + 1;
        continue;
      }
      ScanDirective(source, index, isImport);
      var argument := index + if isImport then |IMPORT| else |EMBED|;
      var found, path, next := ReadArgument(source, argument);
      if !found {
        PrependEnds(dependencies);
        return false, dependencies;
      }
      PrependTwice(dependencies, [Dependency(path, isImport)], Scan(source[next..]));
      dependencies := dependencies + [Dependency(path, isImport)];
      index := next;
    }
    PrependEnds(dependencies);
    return true, dependencies;
  }

  /******* Printed programs *******/

  datatype Unit = Raw(c: char) | Escaped(c: char)

  // Pieces of a program text; the parenthesis that closes a directive is plain text.
  datatype Piece =
    | Comment(text: string)
    | Literal(quote: char, units: seq<Unit>)
    | Directed(isImport: bool, before: string, inner: string, path: string)
    | Plain(c: char)

  // What a program ends in: a comment without a line break, or a literal that is not closed,
  // perhaps by a backslash.
  datatype Ending = Complete | OpenComment(text: string) | OpenLiteral(quote: char, units: seq<Unit>, escape: bool)

  predicate AllBlank(s: string) {
    forall k: nat | k < |s| :: s[k] == ' ' || s[k] == '\t' || s[k] == '\r' || s[k] == '\n'
  }

  predicate IsQuote(c: char) {
    c == '"' || c == '\''
  }

  predicate UnitsFit(quote: char, units: seq<Unit>) {
    IsQuote(quote) && forall k: nat | k < |units| && units[k].Raw? :: units[k].c != quote && units[k].c != '\\'
  }

  // A piece that is read as itself when `rest` follows; a plain character must not begin
  // anything else.
  predicate Fits(piece: Piece, rest: string) {
    match piece
    case Comment(text) => '\n' !in text
    case Literal(quote, units) => UnitsFit(quote, units)
    case Directed(_, before, inner, path) =>
      AllBlank(before) && AllBlank(inner) && '"' !in path && '\\' !in path
    case Plain(c) =>
      && !IsQuote(c) && !(c == '/' && "/" <= rest)
      && !(c == '@' && ("import" <= rest || "embedFile" <= rest))
  }

  predicate EndingFits(ending: Ending) {
    match ending
    case Complete => true
    case OpenComment(text) => '\n' !in text
    case OpenLiteral(quote, units, _) => UnitsFit(quote, units)
  }

  // Every piece is read as itself in front of what follows it.
  ghost predicate IsProgram(pieces: seq<Piece>, ending: Ending) {
    && EndingFits(ending)
    && forall k: nat | k < |pieces| :: Fits(pieces[k], PrintProgram(pieces[k + 1..], ending))
  }

  function PrintUnits(units: seq<Unit>): string {
    if units == [] then ""
    else (match units[0] case Raw(c) => [c] case Escaped(c) => ['\\', c]) + PrintUnits(units[1..])
  }

  function PrintPiece(piece: Piece): string {
    match piece
    case Comment(text) => "//" + text + "\n"
    case Literal(quote, units) => [quote] + PrintUnits(units) + [quote]
    case Directed(isImport, before, inner, path) =>
      (if isImport then "@import" else "@embedFile") + PrintArgument(before, inner, path)
    case Plain(c) => [c]
  }

  function PrintArgument(before: string, inner: string, path: string): string {
    before + "(" + inner + "\"" + path + "\""
  }

  function PrintEnding(ending: Ending): string {
    match ending
    case Complete => ""
    case OpenComment(text) => "//" + text
    case OpenLiteral(quote, units, escape) => [quote] + PrintUnits(units) + (if escape then "\\" else "")
  }

  function PrintProgram(pieces: seq<Piece>, ending: Ending): string {
    if pieces == [] then PrintEnding(ending) else PrintPiece(pieces[0]) + PrintProgram(pieces[1..], ending)
  }

  function Directives(pieces: seq<Piece>): seq<Dependency> {
    if pieces == [] then []
    else Found(pieces[0]) + Directives(pieces[1..])
  }

  lemma {:induction false} LineEnds(text: string, rest: string)
    requires '\n' !in text
    ensures AfterLine(text + "\n" + rest) == rest
    ensures AfterLine(text) == ""
  {
    if text != "" {
      LineEnds(text[1..], rest);
      assert (text + "\n" + rest)[1..] == text[1..] + "\n" + rest;
    }
  }

  // The units of a literal are passed over, whatever follows them.
  lemma {:induction false} UnitsPassed(units: seq<Unit>, quote: char, rest: string)
    requires UnitsFit(quote, units)
    ensures AfterLiteral(PrintUnits(units) + rest, quote) == AfterLiteral(rest, quote)
  {
    var text := PrintUnits(units) + rest;
    if units == [] {
      assert text == rest;
    } else {
      UnitsPassed(units[1..], quote, rest);
      match units[0]
      case Raw(c) =>
        assert text[1..] == PrintUnits(units[1..]) + rest;
      case Escaped(c) =>
        assert text[2..] == PrintUnits(units[1..]) + rest;
    }
  }

  lemma LiteralEnds(units: seq<Unit>, quote: char, rest: string)
    requires UnitsFit(quote, units)
    ensures AfterLiteral(PrintUnits(units) + [quote] + rest, quote) == rest
    ensures AfterLiteral(PrintUnits(units), quote) == AfterLiteral(PrintUnits(units) + "\\", quote) == ""
  {
    UnitsPassed(units, quote, [quote] + rest);
    UnitsPassed(units, quote, "");
    UnitsPassed(units, quote, "\\");
    assert PrintUnits(units) + [quote] + rest == PrintUnits(units) + ([quote] + rest);
    assert ([quote] + rest)[1..] == rest && PrintUnits(units) + "" == PrintUnits(units);
  }

  lemma {:induction false} BlanksEnd(blanks: string, rest: string)
    requires AllBlank(blanks) && (rest == "" || !IsBlank(rest[0]))
    ensures SkipBlanks(blanks + rest) == rest
  {
    if blanks == "" {
      assert blanks + rest == rest;
    } else {
      BlanksEnd(blanks[1..], rest);
      assert (blanks + rest)[1..] == blanks[1..] + rest;
    }
  }

  lemma {:induction false} PathEnds(path: string, rest: string)
    requires '"' !in path && '\\' !in path
    ensures PathLength(path + "\"" + rest) == Some(|path|)
  {
    if path != "" {
      PathEnds(path[1..], rest);
      assert (path + "\"" + rest)[1..] == path[1..] + "\"" + rest;
    }
  }

  lemma ArgumentRead(before: string, inner: string, path: string, rest: string)
    requires AllBlank(before) && AllBlank(inner) && '"' !in path && '\\' !in path
    ensures Argument(PrintArgument(before, inner, path) + rest) == Some((path, rest))
  {
    hide SkipBlanks, PathLength;
    var quoted := "\"" + path + "\"" + rest;
    BlanksEnd(before, "(" + (inner + quoted));
    assert PrintArgument(before, inner, path) + rest == before + ("(" + (inner + quoted));
    assert ("(" + (inner + quoted))[1..] == inner + quoted;
    BlanksEnd(inner, quoted);
    assert quoted[1..] == path + "\"" + rest;
    PathEnds(path, rest);
    assert quoted[1..][..|path|] == path && quoted[1..][|path| + 1..] == rest;
  }

  function Found(piece: Piece): seq<Dependency> {
    if piece.Directed? then [Dependency(piece.path, piece.isImport)] else []
  }

  lemma DirectedScanned(isImport: bool, argument: string, path: string, rest: string)
    requires Argument(argument) == Some((path, rest))
    ensures Scan((if isImport then IMPORT else EMBED) + argument)
            == Prepend([Dependency(path, isImport)], Scan(rest))
  {
    hide Argument, AfterLine, AfterLiteral;
    var keyword := if isImport then IMPORT else EMBED;
    var text := keyword + argument;
    assert text[0] == '@' && text[1] == keyword[1] && text[..|keyword|] == keyword;
    assert text[|keyword|..] == argument;
  }

  lemma CommentScanned(text: string, rest: string)
    requires AfterLine(text) == rest
    ensures Scan("//" + text) == Scan(rest)
  {
    hide AfterLine;
    assert ("//" + text)[2..] == text;
  }

  lemma LiteralScanned(quote: char, text: string, rest: string)
    requires (quote == '"' || quote == '\'') && AfterLiteral(text, quote) == rest
    ensures Scan([quote] + text) == Scan(rest)
  {
    hide AfterLiteral;
    assert ([quote] + text)[0] == quote && ([quote] + text)[1..] == text;
  }

  lemma PlainBegins(c: char, rest: string)
    requires Fits(Plain(c), rest)
    ensures var text := [c] + rest; !("//" <= text) && !(IMPORT <= text) && !(EMBED <= text)
  {
    var text := [c] + rest;
    assert text[1..] == rest;
    Begins(text, '/', "/");
    Begins(text, '@', "import");
    Begins(text, '@', "embedFile");
  }

  lemma PlainScanned(c: char, rest: string)
    requires Fits(Plain(c), rest)
    ensures Scan([c] + rest) == Scan(rest)
  {
    PlainBegins(c, rest);
    assert ([c] + rest)[1..] == rest;
    hide AfterLine, AfterLiteral;
  }

  lemma Begins(s: string, c: char, word: string)
    ensures [c] + word <= s <==> s != "" && s[0] == c && word <= s[1..]
  {
    if s != "" {
      assert s == [s[0]] + s[1..];
      if [c] + word <= s {
        assert ([c] + word)[0] == c && ([c] + word)[1..] == word;
        assert word == s[1..][..|word|];
      }
    }
  }

  // A piece is consumed as a whole, whatever follows it.
  lemma PieceScanned(piece: Piece, rest: string)
    requires Fits(piece, rest)
    ensures Scan(PrintPiece(piece) + rest) == Prepend(Found(piece), Scan(rest))
  {
    hide Scan, AfterLine, AfterLiteral, Argument, PrintArgument, PrintUnits;
    PrependNothing(Scan(rest));
    match piece
    case Comment(comment) =>
      LineEnds(comment, rest);
      CommentScanned(comment + "\n" + rest, rest);
      assert PrintPiece(piece) + rest == "//" + (comment + "\n" + rest);
    case Literal(quote, units) =>
      LiteralEnds(units, quote, rest);
      LiteralScanned(quote, PrintUnits(units) + [quote] + rest, rest);
      assert PrintPiece(piece) + rest == [quote] + (PrintUnits(units) + [quote] + rest);
    case Directed(isImport, before, inner, path) =>
      ArgumentRead(before, inner, path, rest);
      var argument := PrintArgument(before, inner, path) + rest;
      DirectedScanned(isImport, argument, path, rest);
      assert PrintPiece(piece) + rest == (if isImport then IMPORT else EMBED) + argument;
    case Plain(c) =>
      PlainScanned(c, rest);
  }

  lemma EndingScanned(ending: Ending)
    requires EndingFits(ending)
    ensures Scan(PrintEnding(ending)) == Some([])
  {
    hide AfterLine, AfterLiteral, PrintUnits;
    match ending
    case Complete =>
    case OpenComment(text) =>
      LineEnds(text, "");
      CommentScanned(text, "");
    case OpenLiteral(quote, units, escape) =>
      LiteralEnds(units, quote, "");
      var text := PrintUnits(units) + if escape then "\\" else "";
      assert PrintUnits(units) + "" == PrintUnits(units);
      LiteralScanned(quote, text, "");
      assert PrintEnding(ending) == [quote] + text;
  }

  lemma LaterPieces(pieces: seq<Piece>, ending: Ending)
    requires pieces != []
    ensures IsProgram(pieces, ending) <==>
              Fits(pieces[0], PrintProgram(pieces[1..], ending)) && IsProgram(pieces[1..], ending)
  {
    hide Fits, PrintProgram;
    forall k: nat | k + 1 < |pieces|
      ensures pieces[1..][k] == pieces[k + 1] && pieces[1..][k + 1..] == pieces[k + 2..]
    {
    }
    if Fits(pieces[0], PrintProgram(pieces[1..], ending)) && IsProgram(pieces[1..], ending) {
      forall k: nat | k < |pieces|
        ensures Fits(pieces[k], PrintProgram(pieces[k + 1..], ending))
      {
        assert k > 0 ==> Fits(pieces[1..][k - 1], PrintProgram(pieces[1..][k..], ending));
      }
    }
  }

  /** Scanning a printed program succeeds and finds exactly its directives, in order. */
  lemma {:induction false} PrintedProgramScanned(pieces: seq<Piece>, ending: Ending)
    requires IsProgram(pieces, ending)
    ensures Scan(PrintProgram(pieces, ending)) == Some(Directives(pieces))
  {
    hide Scan, PrintPiece, Fits;
    if pieces == [] {
      EndingScanned(ending);
    } else {
      LaterPieces(pieces, ending);
      PrintedProgramScanned(pieces[1..], ending);
      PieceScanned(pieces[0], PrintProgram(pieces[1..], ending));
    }
  }

  /******* Every text that can be scanned is a program *******/

  lemma {:induction false} LineOf(s: string) returns (text: string)
    ensures '\n' !in text && (s == text + "\n" + AfterLine(s) || (s == text && AfterLine(s) == ""))
  {
    if s == "" {
      text := "";
    } else if s[0] == '\n' {
      text := "";
      assert s == "\n" + s[1..];
    } else {
      var more := LineOf(s[1..]);
      text := [s[0]] + more;
      assert s == [s[0]] + s[1..];
    }
  }

  lemma UnitAhead(unit: Unit, more: seq<Unit>, quote: char, s: string, tail: string)
    requires UnitsFit(quote, more) && (unit.Raw? ==> unit.c != quote && unit.c != '\\')
    requires s == (match unit case Raw(c) => [c] case Escaped(c) => ['\\', c]) + tail
    ensures UnitsFit(quote, [unit] + more)
    ensures AfterLiteral(s, quote) == AfterLiteral(tail, quote)
    ensures forall rest :: tail == PrintUnits(more) + rest ==> s == PrintUnits([unit] + more) + rest
  {
    assert ([unit] + more)[1..] == more;
    if unit.Raw? {
      assert s[0] == unit.c && s[1..] == tail;
    } else {
      assert s[0] == '\\' && s[2..] == tail;
    }
  }

  // The units of a literal, and how it ends.
  lemma {:induction false} UnitsOf(s: string, quote: char) returns (units: seq<Unit>, closed: bool, escape: bool)
    requires IsQuote(quote)
    ensures UnitsFit(quote, units)
    ensures s == PrintUnits(units) + if closed then [quote] + AfterLiteral(s, quote) else if escape then "\\" else ""
    ensures !closed ==> AfterLiteral(s, quote) == ""
    decreases |s|
  {
    if s == "" || s == "\\" || s[0] == quote {
      units, closed, escape := LastUnits(s, quote);
    } else {
      var unit := if s[0] == '\\' then Escaped(s[1]) else Raw(s[0]);
      var tail := if s[0] == '\\' then s[2..] else s[1..];
      assert s == (match unit case Raw(c) => [c] case Escaped(c) => ['\\', c]) + tail;
      hide AfterLiteral, PrintUnits, UnitsFit;
      var more;
      more, closed, escape := UnitsOf(tail, quote);
      UnitAhead(unit, more, quote, s, tail);
      units := [unit] + more;
    }
  }

  lemma LastUnits(s: string, quote: char) returns (units: seq<Unit>, closed: bool, escape: bool)
    requires IsQuote(quote) && (s == "" || s == "\\" || s[0] == quote)
    ensures UnitsFit(quote, units)
    ensures s == PrintUnits(units) + if closed then [quote] + AfterLiteral(s, quote) else if escape then "\\" else ""
    ensures !closed ==> AfterLiteral(s, quote) == ""
  {
    units, closed, escape := [], s != "" && s[0] == quote, s == "\\";
    assert AfterLiteral("", quote) == "";
    assert s != "" ==> s == [s[0]] + s[1..];
  }

  lemma {:induction false} BlanksOf(s: string) returns (blanks: string)
    ensures AllBlank(blanks) && s == blanks + SkipBlanks(s)
  {
    blanks := "";
    if s != "" && IsBlank(s[0]) {
      hide AllBlank;
      var more := BlanksOf(s[1..]);
      OneMoreBlank(s[0], more);
      blanks := [s[0]] + more;
      assert s == [s[0]] + (more + SkipBlanks(s[1..]));
    }
  }

  lemma OneMoreBlank(c: char, blanks: string)
    requires IsBlank(c) && AllBlank(blanks)
    ensures AllBlank([c] + blanks)
  {
  }

  lemma {:induction false} PathOf(s: string)
    requires PathLength(s).Some?
    ensures '"' !in s[..PathLength(s).value] && '\\' !in s[..PathLength(s).value]
  {
    if s[0] != '"' {
      PathOf(s[1..]);
      assert s[..PathLength(s).value] == [s[0]] + s[1..][..PathLength(s[1..]).value];
    }
  }

  lemma ArgumentOf(s: string) returns (before: string, inner: string)
    requires Argument(s).Some?
    ensures var (path, rest) := Argument(s).value;
            && AllBlank(before) && AllBlank(inner) && '"' !in path && '\\' !in path
            && s == PrintArgument(before, inner, path) + rest
  {
    hide SkipBlanks, PathLength, AllBlank, PrintArgument;
    var (path, rest) := Argument(s).value;
    before := BlanksOf(s);
    var open := SkipBlanks(s);
    inner := BlanksOf(open[1..]);
    var quoted := SkipBlanks(open[1..]);
    PathOf(quoted[1..]);
    assert quoted[1..] == path + "\"" + rest;
    ArgumentJoins(before, open, inner, quoted, path, rest);
  }

  lemma ArgumentJoins(before: string, open: string, inner: string, quoted: string, path: string, rest: string)
    requires open != "" && open[0] == '(' && open[1..] == inner + quoted
    requires quoted != "" && quoted[0] == '"' && quoted[1..] == path + "\"" + rest
    ensures before + open == PrintArgument(before, inner, path) + rest
  {
    assert open == "(" + open[1..] && quoted == "\"" + quoted[1..];
    assert before + ("(" + (inner + ("\"" + (path + "\"" + rest)))) == PrintArgument(before, inner, path) + rest;
  }

  // The first piece of a text that can be scanned, unless the text is an ending.
  lemma FirstPiece(s: string) returns (piece: Option<Piece>, ending: Ending, rest: string)
    requires Scan(s).Some?
    ensures piece.None? ==> s == PrintEnding(ending) && EndingFits(ending) && Scan(s) == Some([])
    ensures piece.Some? ==>
              && s == PrintPiece(piece.value) + rest && Fits(piece.value, rest) && |rest| < |s|
              && Scan(s) == Prepend(Found(piece.value), Scan(rest))
  {
    piece, ending, rest := None, Complete, "";
    if "//" <= s {
      piece, ending, rest := CommentFirst(s);
    } else if s != "" && IsQuote(s[0]) {
      piece, ending, rest := LiteralFirst(s);
    } else if s != "" {
      piece, rest := DirectiveOrPlain(s);
    }
    hide Scan, PrintPiece, PrintEnding, Fits;
    if piece.Some? {
      PieceScanned(piece.value, rest);
    } else {
      EndingScanned(ending);
    }
  }

  lemma CommentFirst(s: string) returns (piece: Option<Piece>, ending: Ending, rest: string)
    requires "//" <= s
    ensures piece.None? ==> s == PrintEnding(ending) && EndingFits(ending)
    ensures piece.Some? ==> s == PrintPiece(piece.value) + rest && Fits(piece.value, rest) && |rest| < |s|
  {
    hide AfterLine;
    var text := LineOf(s[2..]);
    piece, ending, rest := None, OpenComment(text), "";
    assert s == "//" + s[2..];
    if s[2..] == text + "\n" + AfterLine(s[2..]) {
      piece, rest := Some(Comment(text)), AfterLine(s[2..]);
      assert s == PrintPiece(Comment(text)) + rest;
    }
  }

  lemma LiteralFirst(s: string) returns (piece: Option<Piece>, ending: Ending, rest: string)
    requires s != "" && IsQuote(s[0])
    ensures piece.None? ==> s == PrintEnding(ending) && EndingFits(ending)
    ensures piece.Some? ==> s == PrintPiece(piece.value) + rest && Fits(piece.value, rest) && |rest| < |s|
  {
    hide AfterLiteral, PrintUnits, UnitsFit;
    var units, closed, escape := UnitsOf(s[1..], s[0]);
    piece, ending, rest := None, OpenLiteral(s[0], units, escape), "";
    assert s == [s[0]] + s[1..];
    if closed {
      piece, rest := Some(Literal(s[0], units)), AfterLiteral(s[1..], s[0]);
      assert s == PrintPiece(Literal(s[0], units)) + rest;
    } else {
      assert s == PrintEnding(ending);
    }
  }

  lemma DirectiveOrPlain(s: string) returns (piece: Option<Piece>, rest: string)
    requires Scan(s).Some? && s != "" && !("//" <= s) && !IsQuote(s[0])
    ensures piece.Some? && s == PrintPiece(piece.value) + rest && Fits(piece.value, rest) && |rest| < |s|
  {
    ScansArgument(s);
    hide Scan;
    if IMPORT <= s {
      piece, rest := DirectiveFirst(s, true);
    } else if EMBED <= s {
      piece, rest := DirectiveFirst(s, false);
    } else {
      PlainFits(s);
      piece, rest := Some(Plain(s[0])), s[1..];
      assert s == [s[0]] + s[1..];
    }
  }

  lemma PlainFits(s: string)
    requires s != "" && !("//" <= s) && !IsQuote(s[0]) && !(IMPORT <= s) && !(EMBED <= s)
    ensures Fits(Plain(s[0]), s[1..])
  {
    Begins(s, '/', "/");
    Begins(s, '@', "import");
    Begins(s, '@', "embedFile");
  }

  lemma ScansArgument(s: string)
    requires Scan(s).Some? && s != "" && !("//" <= s) && !IsQuote(s[0])
    ensures IMPORT <= s ==> Argument(s[|IMPORT|..]).Some?
    ensures !(IMPORT <= s) && EMBED <= s ==> Argument(s[|EMBED|..]).Some?
  {
    hide Argument;
  }

  lemma DirectiveFirst(s: string, isImport: bool) returns (piece: Option<Piece>, rest: string)
    requires var keyword := if isImport then IMPORT else EMBED;
             keyword <= s && Argument(s[|keyword|..]).Some?
    ensures piece.Some? && s == PrintPiece(piece.value) + rest && Fits(piece.value, rest) && |rest| < |s|
  {
    hide Argument, PrintArgument;
    var keyword := if isImport then IMPORT else EMBED;
    var before, inner := ArgumentOf(s[|keyword|..]);
    var (path, more) := Argument(s[|keyword|..]).value;
    piece, rest := Some(Directed(isImport, before, inner, path)), more;
    assert s == keyword + s[|keyword|..];
    assert s == PrintPiece(piece.value) + rest;
  }

  lemma EndingIsProgram(ending: Ending)
    requires EndingFits(ending)
    ensures IsProgram([], ending)
  {
  }

  lemma {:induction false} ScannedIsProgram(s: string) returns (pieces: seq<Piece>, ending: Ending)
    requires Scan(s).Some?
    ensures IsProgram(pieces, ending) && PrintProgram(pieces, ending) == s && Scan(s) == Some(Directives(pieces))
    decreases |s|
  {
    hide Scan, PrintPiece, Fits, PrintEnding, IsProgram;
    var piece, last, rest := FirstPiece(s);
    if piece.None? {
      pieces, ending := [], last;
      EndingIsProgram(ending);
    } else {
      var more;
      more, ending := ScannedIsProgram(rest);
      pieces := [piece.value] + more;
      assert pieces[1..] == more;
      LaterPieces(pieces, ending);
    }
  }

  /** The scanner succeeds on exactly the texts that are programs, whatever characters they
      hold, and then finds exactly the directives of the program. */
  lemma ScannedIff(s: string, found: seq<Dependency>)
    ensures Scan(s) == Some(found) <==>
            exists pieces, ending :: IsProgram(pieces, ending) && PrintProgram(pieces, ending) == s && Directives(pieces) == found
  {
    hide Scan, IsProgram, PrintProgram, Directives;
    if Scan(s).Some? {
      var pieces, ending := ScannedIsProgram(s);
    }
    forall pieces, ending | IsProgram(pieces, ending) && PrintProgram(pieces, ending) == s
      ensures Scan(s) == Some(Directives(pieces))
    {
      PrintedProgramScanned(pieces, ending);
    }
  }
}
