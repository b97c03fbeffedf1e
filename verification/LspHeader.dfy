/** What a header of the language server may look like: lines, exactly one of which declares
    the length of the body. */
module LspHeader {
  import opened Wrappers
  import opened Decimal
  import opened Strings
  import opened LspFraming

  /******* The length field *******/

  function Spaces(n: nat): string {
    seq(n, _ => ' ')
  }

  lemma {:induction false} SpacesAreSkipped(n: nat, digits: string)
    requires digits == "" || digits[0] != ' '
    ensures SkipSpaces(Spaces(n) + digits) == digits
  {
    var s := Spaces(n) + digits;
    if n > 0 {
      SpacesAreSkipped(n - 1, digits);
      assert s[1..] == Spaces(n - 1) + digits;
    } else {
      assert s == digits;
    }
  }

  lemma {:induction false} SpacesInFront(s: string) returns (n: nat)
    ensures s == Spaces(n) + SkipSpaces(s) && (SkipSpaces(s) == "" || SkipSpaces(s)[0] != ' ')
  {
    if s != "" && s[0] == ' ' {
      var more := SpacesInFront(s[1..]);
      n := more + 1;
      assert Spaces(n) == [' '] + Spaces(more) && s == [' '] + s[1..];
    } else {
      n := 0;
    }
  }

  // Any number of spaces, then the digits of a number within the limit.
  ghost predicate Declares(field: string, length: nat) {
    length <= 8 * 1024 * 1024 &&
    exists n: nat, digits ::
      && field == Spaces(n) + digits && digits != "" && (forall k: nat | k < |digits| :: '0' <= digits[k] <= '9')
      && Value(digits) == length
  }

  /** A length field is accepted iff it is spaces and digits, and then means their value. */
  lemma DeclaredIff(field: string, length: nat)
    ensures DeclaredLength(field) == Some(length) <==> Declares(field, length)
  {
    hide Value, SkipSpaces;
    var k := SpacesInFront(field);
    if DeclaredLength(field) == Some(length) {
      assert field == Spaces(k) + SkipSpaces(field);
    }
    if Declares(field, length) {
      var n: nat, number :| field == Spaces(n) + number && number != ""
                            && (forall k: nat | k < |number| :: '0' <= number[k] <= '9') && Value(number) == length;
      SpacesAreSkipped(n, number);
    }
  }

  /******* Lines *******/

  function Lines(lines: seq<string>): string {
    if lines == [] then ""
    else if |lines| == 1 then lines[0]
    else lines[0] + NEWLINE + Lines(lines[1..])
  }

  ghost predicate AreLines(lines: seq<string>) {
    forall line <- lines, i: nat :: !OccursAt(line, NEWLINE, i)
  }

  predicate Breaks(text: string, i: nat) {
    i + 1 < |text| && text[i] == '\r' && text[i + 1] == '\n'
  }

  lemma BreaksWhere(text: string, i: nat)
    ensures OccursAt(text, NEWLINE, i) <==> Breaks(text, i)
    ensures OccursAt(text, TERMINATOR, i) <==> Breaks(text, i) && Breaks(text, i + 2)
  {
    if i + 2 <= |text| {
      assert text[i..i + 2] == [text[i], text[i + 1]];
    }
    if i + 4 <= |text| {
      assert text[i..i + 4] == [text[i], text[i + 1], text[i + 2], text[i + 3]];
    }
  }

  lemma LineHasNoBreak(line: string, behind: string, i: nat)
    requires (forall j: nat :: !OccursAt(line, NEWLINE, j)) && behind != "" && behind[0] == '\r' && i < |line|
    ensures !Breaks(line + behind, i)
  {
    BreaksWhere(line, i);
    assert !OccursAt(line, NEWLINE, i);
  }

  lemma LineEndsThere(text: string, from: nat, line: string)
    requires from + |line| <= |text| && text[from..from + |line|] == line && (forall i: nat :: !OccursAt(line, NEWLINE, i))
    requires from + |line| == |text| || OccursAt(text, NEWLINE, from + |line|)
    ensures LineEnd(text, from) == from + |line|
  {
    var end := from + |line|;
    assert forall k: nat | k < |line| :: line[k] == text[from + k];
    BreaksWhere(text, end);
    forall i: nat | from <= i < end ensures !OccursAt(text, NEWLINE, i) {
      BreaksWhere(text, i);
      BreaksWhere(line, i - from);
      assert !OccursAt(line, NEWLINE, i - from);
    }
    hide OccursAt, Breaks;
    if end == |text| {
      NeverFound(text, NEWLINE, from);
    } else {
      FirstFound(text, NEWLINE, from, end);
    }
  }

  // What follows the colon in the length lines.
  function Declared(lines: seq<string>): seq<string> {
    if lines == [] then []
    else (if "Content-Length:" <= lines[0] then [lines[0][15..]] else []) + Declared(lines[1..])
  }

  lemma {:induction false} FieldsOfLines(done: string, lines: seq<string>)
    requires AreLines(lines)
    ensures LengthFields(done + Lines(lines), |done|) == Declared(lines)
    decreases |lines|
  {
    hide LengthFields, LineEnd, OccursAt;
    var text := done + Lines(lines);
    if lines == [] {
      NoFields(text);
    } else {
      var line := lines[0];
      assert line in lines;
      if |lines| == 1 {
        LineEndsThere(text, |done|, line);
        LastField(text, |done|, line);
        assert lines[1..] == [];
      } else {
        var next := done + line + NEWLINE;
        assert text == next + Lines(lines[1..]);
        assert text[|done|..|done| + |line|] == line && text[|done| + |line|..|done| + |line| + 2] == NEWLINE;
        NewlineThere(text, |done| + |line|);
        LineEndsThere(text, |done|, line);
        FieldsOfLines(next, lines[1..]);
        OneField(text, |done|, line);
      }
    }
  }

  lemma NoFields(text: string)
    ensures LengthFields(text, |text|) == []
  {
  }

  lemma NewlineThere(text: string, i: nat)
    requires i + 2 <= |text| && text[i..i + 2] == NEWLINE
    ensures OccursAt(text, NEWLINE, i)
  {
  }

  lemma OneField(text: string, from: nat, line: string)
    requires from < |text| && LineEnd(text, from) == from + |line| && text[from..from + |line|] == line
    ensures LengthFields(text, from) ==
            (if "Content-Length:" <= line then [line[15..]] else []) + LengthFields(text, from + |line| + 2)
  {
    hide LineEnd;
  }

  lemma LastField(text: string, from: nat, line: string)
    requires from + |line| == |text| && text[from..] == line && LineEnd(text, from) == |text|
    ensures LengthFields(text, from) == if "Content-Length:" <= line then [line[15..]] else []
  {
    hide LineEnd;
    if line != "" {
      OneField(text, from, line);
    }
  }

  lemma {:induction false} NoneDeclared(lines: seq<string>)
    ensures Declared(lines) == [] <==> forall j: nat | j < |lines| :: !("Content-Length:" <= lines[j])
  {
    if lines != [] {
      NoneDeclared(lines[1..]);
      assert forall j: nat | 0 < j < |lines| :: lines[j] == lines[1..][j - 1];
      if Declared(lines) == [] {
        forall j: nat | j < |lines| ensures !("Content-Length:" <= lines[j]) {
          assert j > 0 ==> lines[j] == lines[1..][j - 1];
        }
      }
    }
  }

  // This line, and no other, is a length line.
  ghost predicate OnlyAt(lines: seq<string>, k: nat, field: string) {
    && k < |lines| && lines[k] == "Content-Length:" + field
    && forall j: nat | j < |lines| && j != k :: !("Content-Length:" <= lines[j])
  }

  lemma IsPrefixed(line: string, field: string)
    requires line == "Content-Length:" + field
    ensures "Content-Length:" <= line && line[15..] == field
  {
  }

  lemma {:induction false} OnlyOneGives(lines: seq<string>, k: nat, field: string)
    requires OnlyAt(lines, k, field)
    ensures Declared(lines) == [field]
  {
    var rest := lines[1..];
    assert forall j: nat | 0 < j < |lines| :: rest[j - 1] == lines[j];
    if k == 0 {
      IsPrefixed(lines[0], field);
      NoneDeclared(rest);
    } else {
      OnlyOneGives(rest, k - 1, field);
    }
  }

  lemma {:induction false} OneGiven(lines: seq<string>, field: string) returns (k: nat)
    requires Declared(lines) == [field]
    ensures OnlyAt(lines, k, field)
  {
    var rest := lines[1..];
    if "Content-Length:" <= lines[0] {
      NoneDeclared(rest);
      assert [lines[0][15..]] + Declared(rest) == [field];
      assert |Declared(rest)| == 0 && Declared(lines)[0] == lines[0][15..];
      assert lines[0] == "Content-Length:" + lines[0][15..];
      k := 0;
      forall j: nat | j < |lines| && j != k ensures !("Content-Length:" <= lines[j]) {
        assert lines[j] == rest[j - 1];
      }
    } else {
      assert [] + Declared(rest) == Declared(rest);
      var later := OneGiven(rest, field);
      k := later + 1;
      forall j: nat | j < |lines| && j != k ensures !("Content-Length:" <= lines[j]) {
        assert j > 0 ==> lines[j] == rest[j - 1] && j - 1 != later;
      }
    }
  }

  /** A header declares a length iff exactly one of its lines begins with "Content-Length:", and
      what follows is that number behind any spaces. */
  lemma HeaderLengthIff(lines: seq<string>, length: nat)
    requires AreLines(lines)
    ensures HeaderLength(Lines(lines)) == Some(length) <==>
            exists k: nat, field :: OnlyAt(lines, k, field) && Declares(field, length)
  {
    FieldsOfLines("", lines);
    assert "" + Lines(lines) == Lines(lines);
    hide DeclaredLength, Declares, OnlyAt, AreLines, Declared;
    var fields := LengthFields(Lines(lines), 0);
    if |fields| == 1 {
      DeclaredIff(fields[0], length);
      var k := OneGiven(lines, fields[0]);
    }
    forall k: nat, field | OnlyAt(lines, k, field) && Declares(field, length)
      ensures HeaderLength(Lines(lines)) == Some(length)
    {
      OnlyOneGives(lines, k, field);
      DeclaredIff(field, length);
    }
  }

  /** Every header is made of lines in one way. */
  lemma {:induction false} HeadersAreLines(header: string) returns (lines: seq<string>)
    ensures lines != [] && AreLines(lines) && Lines(lines) == header
    decreases |header|
  {
    var found := Find(header, NEWLINE, 0);
    var first := if found.Some? then header[..found.value] else header;
    forall i: nat ensures !OccursAt(first, NEWLINE, i) {
      if OccursAt(first, NEWLINE, i) {
        assert first[i..i + 2] == header[i..i + 2];
        if found.Some? {
          FoundIsFirst(header, NEWLINE, 0, i);
        } else {
          FoundIfThere(header, NEWLINE, 0, i);
        }
      }
    }
    lines := [first];
    if found.Some? {
      var more := HeadersAreLines(header[found.value + 2..]);
      lines := [first] + more;
      assert lines[1..] == more;
      assert header == first + NEWLINE + header[found.value + 2..];
    }
  }

  lemma {:induction false} FoundIfThere(text: string, pattern: string, from: nat, at: nat)
    requires from <= at && OccursAt(text, pattern, at)
    ensures Find(text, pattern, from).Some?
    decreases at - from
  {
    if from < at && !OccursAt(text, pattern, from) {
      FoundIfThere(text, pattern, from + 1, at);
    }
  }

  /******* Messages *******/

  // The first line, and what the text goes on with behind it.
  lemma Behind(lines: seq<string>) returns (behind: string)
    requires lines != []
    ensures Lines(lines) + TERMINATOR == lines[0] + behind && behind != "" && behind[0] == '\r'
    ensures |lines| > 1 ==> behind == NEWLINE + (Lines(lines[1..]) + TERMINATOR)
  {
    behind := if |lines| == 1 then TERMINATOR else NEWLINE + (Lines(lines[1..]) + TERMINATOR);
  }

  lemma BreaksBehind(front: string, rest: string, j: nat)
    ensures Breaks(front + rest, |front| + j) == Breaks(rest, j)
  {
    assert j < |rest| ==> (front + rest)[|front| + j] == rest[j];
    assert j + 1 < |rest| ==> (front + rest)[|front| + j + 1] == rest[j + 1];
  }

  // Between lines that are not empty there is no terminator.
  lemma {:induction false} NoStopBefore(lines: seq<string>, i: nat)
    requires lines != [] && AreLines(lines) && (forall line <- lines :: line != "") && i < |Lines(lines)|
    ensures var text := Lines(lines) + TERMINATOR; !(Breaks(text, i) && Breaks(text, i + 2))
    decreases |lines|
  {
    hide OccursAt, Breaks;
    var line, text := lines[0], Lines(lines) + TERMINATOR;
    var behind := Behind(lines);
    assert line in lines;
    if i < |line| {
      LineHasNoBreak(line, behind, i);
    } else {
      var front, rest := line + NEWLINE, Lines(lines[1..]) + TERMINATOR;
      assert text == front + rest;
      assert forall later <- lines[1..] :: later in lines;
      if i == |line| {
        BreaksBehind(front, rest, 0);
        assert lines[1] in lines && lines[1..][0] == lines[1];
        var later := Behind(lines[1..]);
        LineHasNoBreak(lines[1], later, 0);
      } else if i == |line| + 1 {
        NoBreakAt(text, i);
      } else {
        BreaksBehind(front, rest, i - |front|);
        BreaksBehind(front, rest, i + 2 - |front|);
        NoStopBefore(lines[1..], i - |front|);
      }
    }
  }

  lemma NoBreakAt(text: string, i: nat)
    requires i < |text| && text[i] == '\n'
    ensures !Breaks(text, i)
  {
  }

  /** A message with a header of lines that are not empty, one of which declares the length of
      its body, is well formed whatever the other lines say; so all such messages are read. */
  lemma LinesAreWellFormed(lines: seq<string>, body: string)
    requires lines != [] && AreLines(lines) && (forall line <- lines :: line != "") && |Lines(lines)| <= HEADER_LIMIT
    requires exists k: nat, field :: OnlyAt(lines, k, field) && Declares(field, |body|)
    ensures WellFormed(Message(Lines(lines), body))
  {
    HeaderLengthIff(lines, |body|);
    TerminatorFirst(lines);
    hide HeaderLength, AreLines, OnlyAt, Declares, Find;
  }

  lemma TerminatorFirst(lines: seq<string>)
    requires lines != [] && AreLines(lines) && forall line <- lines :: line != ""
    ensures Find(Lines(lines) + TERMINATOR, TERMINATOR, 0) == Some(|Lines(lines)|)
  {
    var header := Lines(lines);
    forall i: nat | i < |header| ensures !OccursAt(header + TERMINATOR, TERMINATOR, i) {
      NoStopBefore(lines, i);
      BreaksWhere(header + TERMINATOR, i);
    }
    assert (header + TERMINATOR)[|header|..|header| + 4] == TERMINATOR;
    FirstFound(header + TERMINATOR, TERMINATOR, 0, |header|);
  }

  /** A header that ends behind the limit, or of whose lines not exactly one declares a length,
      fails the stream at once, whatever follows it and whatever was delivered before. */
  lemma BadHeaderFails(lines: seq<string>, rest: string, delivered: seq<string>, quota: nat)
    requires lines != [] && AreLines(lines) && (forall line <- lines :: line != "") && quota > 0
    requires |Lines(lines)| > HEADER_LIMIT
             || forall k: nat, field, length: nat | OnlyAt(lines, k, field) :: !Declares(field, length)
    ensures Parsed(Buffer(Lines(lines) + TERMINATOR + rest, delivered, false), quota) == Buffer("", delivered, true)
  {
    var header := Lines(lines);
    var input := header + TERMINATOR + rest;
    TerminatorFirst(lines);
    TerminatorIsStable(header, rest, 0);
    assert input[..|header|] == header;
    if |header| <= HEADER_LIMIT {
      if HeaderLength(header).Some? {
        HeaderLengthIff(lines, HeaderLength(header).value);
      }
      assert HeaderLength(header).None?;
    }
    hide HeaderLength, Find, AreLines, OnlyAt, Declares, Lines;
    assert Next(input) == Fail;
  }
}
