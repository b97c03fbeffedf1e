/** Normal forms of document paths (POSIX): file URIs are decoded, other schemes kept,
    and the segments resolved without looking at the file system. */
module DocumentPath {
  import opened Wrappers
  import opened Strings

  const FILE_SCHEME := "file://"
  const SEPARATOR := "://"

  /******* Percent decoding (section 2.1 of RFC 3986) *******/

  function HexValue(c: char): Option<nat> {
    if '0' <= c <= '9' then Some(c as nat - '0' as nat)
    else if 'a' <= c <= 'f' then Some(c as nat - 'a' as nat + 10)
    else if 'A' <= c <= 'F' then Some(c as nat - 'A' as nat + 10)
    else None
  }

  lemma HexValueSmall(c: char)
    ensures HexValue(c).Some? ==> HexValue(c).value < 16
  {
  }

  predicate IsEscape(s: string) {
    |s| >= 3 && s[0] == '%' && HexValue(s[1]).Some? && HexValue(s[2]).Some?
  }

  function EscapedChar(s: string): char
    requires IsEscape(s)
  {
    HexValueSmall(s[1]);
    HexValueSmall(s[2]);
    (16 * HexValue(s[1]).value + HexValue(s[2]).value) as char
  }

  // Malformed escapes are left as they are.
  function Decoded(s: string): string {
    if s == "" then ""
    else if IsEscape(s) then [EscapedChar(s)] + Decoded(s[3..])
    else [s[0]] + Decoded(s[1..])
  }

  lemma DecodedFrom(value: string, i: nat)
    requires i < |value|
    ensures var rest := value[i..];
            Decoded(rest) == if IsEscape(rest) then [EscapedChar(rest)] + Decoded(value[i + 3..])
                             else [value[i]] + Decoded(value[i + 1..])
  {
    hide EscapedChar, HexValue;
    assert IsEscape(value[i..]) ==> value[i..][3..] == value[i + 3..];
    assert value[i..][1..] == value[i + 1..];
  }

  method UriDecode(value: string) returns (result: string)
    ensures result == Decoded(value)
  {
    hide Decoded, EscapedChar, HexValue;
    result := "";
    var i := 0;
    while i < |value|
      invariant i <= |value|
      invariant Decoded(value) == result + Decoded(value[i..])
    {
      DecodedFrom(value, i);
      if IsEscape(value[i..]) {
        result := result + [EscapedChar(value[i..])];
        i := i + 3;
        continue;
      }
      result := result + [value[i]];
      i := i + 1;
    }
    DecodedNothing();
    assert value[i..] == "";
  }

  lemma DecodedNothing()
    ensures Decoded("") == ""
  {
  }

  const UPPER := "0123456789ABCDEF"
  const LOWER := "0123456789abcdef"

  // Each byte escaped by two digits, or left as it is.
  function Encoded(s: string, escape: char -> bool, digits: string): string
    requires |digits| == 16 && forall k: nat | k < |s| :: s[k] as nat < 256
  {
    if s == "" then ""
    else
      (if escape(s[0]) then ['%', digits[s[0] as nat / 16], digits[s[0] as nat % 16]] else [s[0]])
      + Encoded(s[1..], escape, digits)
  }

  lemma HexDigits(n: nat)
    requires n < 16
    ensures HexValue(UPPER[n]) == Some(n) && HexValue(LOWER[n]) == Some(n)
  {
  }

  lemma EscapeUndone(c: char, digits: string, rest: string)
    requires c as nat < 256 && (digits == UPPER || digits == LOWER)
    ensures Decoded(['%', digits[c as nat / 16], digits[c as nat % 16]] + rest) == [c] + Decoded(rest)
  {
    HexDigits(c as nat / 16);
    HexDigits(c as nat % 16);
    var all := ['%', digits[c as nat / 16], digits[c as nat % 16]] + rest;
    assert all[0] == '%' && all[1] == digits[c as nat / 16] && all[2] == digits[c as nat % 16] && all[3..] == rest;
    hide HexValue;
    assert IsEscape(all) && EscapedChar(all) == c;
  }

  lemma PlainStays(c: char, rest: string)
    requires c != '%'
    ensures Decoded([c] + rest) == [c] + Decoded(rest)
  {
    hide HexValue;
    assert ([c] + rest)[1..] == rest;
  }

  /** Decoding undoes every encoding, in upper or lower case, that escapes at least the percent
      sign. */
  lemma {:induction false} DecodeUndoesEncode(s: string, escape: char -> bool, digits: string)
    requires (forall k: nat | k < |s| :: s[k] as nat < 256) && escape('%') && (digits == UPPER || digits == LOWER)
    ensures Decoded(Encoded(s, escape, digits)) == s
  {
    hide Decoded;
    if s == "" {
      DecodedNothing();
    } else {
      var rest := Encoded(s[1..], escape, digits);
      DecodeUndoesEncode(s[1..], escape, digits);
      EscapeUndone(s[0], digits, rest);
      if !escape(s[0]) {
        PlainStays(s[0], rest);
      }
      assert s == [s[0]] + s[1..];
    }
  }

  /******* Segments *******/

  // The pieces between slashes, empty ones included.
  function Segments(s: string): (r: seq<string>)
    ensures r != []
  {
    if s == "" then [""]
    else
      var before, c := Segments(s[..|s| - 1]), s[|s| - 1];
      if c == '/' then before + [""] else before[..|before| - 1] + [before[|before| - 1] + [c]]
  }

  // One segment is resolved against those kept so far.
  function Resolve(parts: seq<string>, segment: string, rooted: bool, drive: bool): seq<string> {
    if segment == "" || segment == "." then parts
    else if segment == ".." then
      if parts != [] && parts[|parts| - 1] != ".." && parts[|parts| - 1] != "/" && !(|parts| == 1 && drive)
      then parts[..|parts| - 1]
      else if !rooted && !drive then parts + [segment]
      else parts
    else parts + [segment]
  }

  function Fold(segments: seq<string>, rooted: bool, drive: bool): seq<string> {
    if segments == [] then []
    else Resolve(Fold(segments[..|segments| - 1], rooted, drive), segments[|segments| - 1], rooted, drive)
  }

  function Join(parts: seq<string>): string {
    if parts == [] then ""
    else if |parts| == 1 then parts[0]
    else Join(parts[..|parts| - 1]) + "/" + parts[|parts| - 1]
  }

  predicate IsLetter(c: char) {
    'a' <= c <= 'z' || 'A' <= c <= 'Z'
  }

  predicate Rooted(s: string) {
    s != "" && s[0] == '/'
  }

  predicate HasDrive(s: string) {
    |s| >= 2 && s[1] == ':' && IsLetter(s[0])
  }

  function Render(parts: seq<string>, rooted: bool): string {
    var joined := (if rooted then "/" else "") + Join(parts);
    if joined == "" then "." else joined
  }

  // The body of a path: a fold over its segments.
  function Body(s: string): string {
    Render(Fold(Segments(s), Rooted(s), HasDrive(s)), Rooted(s))
  }

  /******* Schemes *******/

  predicate IsSchemeChar(c: char, first: bool) {
    IsLetter(c) || (!first && ('0' <= c <= '9' || c == '+' || c == '-' || c == '.'))
  }

  predicate IsScheme(s: string) {
    s != "" && forall k: nat | k < |s| :: IsSchemeChar(s[k], k == 0)
  }

  // The length of the scheme of a URI that is no file URI.
  function SchemeLength(path: string): Option<nat> {
    match Find(path, SEPARATOR, 0)
    case Some(end) => if !(FILE_SCHEME <= path) && IsScheme(path[..end]) then Some(end) else None
    case None => None
  }

  function FileBody(path: string): string
    requires FILE_SCHEME <= path
  {
    var work := Decoded(path[|FILE_SCHEME|..]);
    if work != "" && work[0] != '/' && ':' !in work then "/" + work else work
  }

  function WithoutSlash(s: string): string {
    if s != "" && s[0] == '/' then s[1..] else s
  }

  /** The normal form. */
  function Normal(path: string): string {
    if FILE_SCHEME <= path then Body(FileBody(path))
    else
      match SchemeLength(path)
      case Some(end) => path[..end + 3] + Body(WithoutSlash(path[end + 3..]))
      case None => Body(path)
  }

  /******* The normaliser *******/

  function Collapsed(s: string): string {
    if s == "" then ""
    else
      var before, c := Collapsed(s[..|s| - 1]), s[|s| - 1];
      if c == '/' && before != "" && before[|before| - 1] == '/' then before else before + [c]
  }

  // The parts resolved so far and the segment being read.
  datatype Reading = Reading(parts: seq<string>, segment: string)

  function Read(s: string, rooted: bool, drive: bool): Reading {
    if s == "" then Reading([], "")
    else
      var before, c := Read(s[..|s| - 1], rooted, drive), s[|s| - 1];
      if c == '/' then Reading(Resolve(before.parts, before.segment, rooted, drive), "")
      else Reading(before.parts, before.segment + [c])
  }

  lemma {:induction false} ReadFolds(s: string, rooted: bool, drive: bool)
    ensures var r, segments := Read(s, rooted, drive), Segments(s);
            r.segment == segments[|segments| - 1] && r.parts == Fold(segments[..|segments| - 1], rooted, drive)
  {
    if s != "" {
      var t, segments := s[..|s| - 1], Segments(s);
      ReadFolds(t, rooted, drive);
      var before := Segments(t);
      if s[|s| - 1] == '/' {
        assert segments[..|segments| - 1] == before;
      } else {
        assert segments[..|segments| - 1] == before[..|before| - 1];
      }
    }
  }

  lemma {:induction false} CollapsingKeepsReading(s: string, rooted: bool, drive: bool)
    ensures Read(Collapsed(s), rooted, drive) == Read(s, rooted, drive)
  {
    if s != "" {
      var before, c := Collapsed(s[..|s| - 1]), s[|s| - 1];
      CollapsingKeepsReading(s[..|s| - 1], rooted, drive);
      if c == '/' && before != "" && before[|before| - 1] == '/' {
        assert Read(before, rooted, drive).segment == "";
      } else {
        assert (before + [c])[..|before|] == before;
      }
    }
  }

  lemma {:induction false} CollapsingKeepsStart(s: string)
    ensures s != "" ==> Collapsed(s) != "" && Collapsed(s)[0] == s[0]
    ensures |s| >= 2 && s[0] != '/' ==> |Collapsed(s)| >= 2 && Collapsed(s)[1] == s[1]
    ensures |s| == 1 ==> Collapsed(s) == s
  {
    if |s| > 1 {
      CollapsingKeepsStart(s[..|s| - 1]);
    }
  }

  method Collapse(work: string) returns (collapsed: string)
    ensures collapsed == Collapsed(work)
  {
    collapsed := "";
    for i := 0 to |work|
      invariant collapsed == Collapsed(work[..i])
    {
      assert work[..i + 1][..i] == work[..i];
      if work[i] == '/' && collapsed != "" && collapsed[|collapsed| - 1] == '/' {
        continue;
      }
      collapsed := collapsed + [work[i]];
    }
    assert work[..|work|] == work;
  }

  method ResolveSegment(kept: seq<string>, segment: string, rooted: bool, drive: bool) returns (parts: seq<string>)
    ensures parts == Resolve(kept, segment, rooted, drive)
  {
    parts := kept;
    if segment == "" || segment == "." {
      return;
    }
    if segment == ".." {
      if parts != [] && parts[|parts| - 1] != ".." && parts[|parts| - 1] != "/" && !(|parts| == 1 && drive) {
        parts := parts[..|parts| - 1];
      } else if !rooted && !drive {
        parts := parts + [segment];
      }
      return;
    }
    parts := parts + [segment];
  }

  method ResolveSegments(work: string) returns (parts: seq<string>)
    ensures parts == Fold(Segments(work), Rooted(work), HasDrive(work))
  {
    hide Resolve;
    var rooted, drive := Rooted(work), HasDrive(work);
    parts := [];
    var segment := "";
    for i := 0 to |work| + 1
      invariant i <= |work| ==> Reading(parts, segment) == Read(work[..i], rooted, drive)
      invariant i == |work| + 1 ==> parts == Fold(Segments(work), rooted, drive)
    {
      if i < |work| {
        assert work[..i + 1][..i] == work[..i];
      } else {
        assert work[..i] == work;
        ReadFolds(work, rooted, drive);
      }
      var delimiter := if i < |work| then work[i] else '/';
      if delimiter == '/' {
        parts := ResolveSegment(parts, segment, rooted, drive);
        segment := "";
      } else {
        segment := segment + [delimiter];
      }
    }
  }

  lemma CollapsingChangesNothing(s: string)
    ensures Fold(Segments(Collapsed(s)), Rooted(s), HasDrive(s)) == Fold(Segments(s), Rooted(s), HasDrive(s))
    ensures Rooted(Collapsed(s)) == Rooted(s) && HasDrive(Collapsed(s)) == HasDrive(s)
  {
    CollapsingKeepsStart(s);
    CollapsingKeepsReading(s, Rooted(s), HasDrive(s));
    ReadFolds(s, Rooted(s), HasDrive(s));
    ReadFolds(Collapsed(s), Rooted(s), HasDrive(s));
  }

  method IsSchemeName(work: string, end: nat) returns (isScheme: bool)
    requires 0 < end <= |work|
    ensures isScheme == IsScheme(work[..end])
  {
    isScheme := true;
    for i := 0 to end
      invariant isScheme && forall k: nat | k < i :: IsSchemeChar(work[k], k == 0)
    {
      if !IsSchemeChar(work[i], i == 0) {
        isScheme := false;
        assert !IsSchemeChar(work[..end][i], i == 0);
        break;
      }
    }
  }

  lemma JoinNext(parts: seq<string>, i: nat)
    requires i < |parts|
    ensures Join(parts[..i + 1]) == if i > 0 then Join(parts[..i]) + "/" + parts[i] else parts[i]
    ensures Join(parts[..0]) == ""
  {
    assert parts[..i + 1][..i] == parts[..i];
  }

  method RenderParts(parts: seq<string>, rooted: bool) returns (result: string)
    ensures result == Render(parts, rooted)
  {
    hide Join;
    var first := if rooted then "/" else "";
    result := first;
    if parts != [] {
      JoinNext(parts, 0);
    } else {
      JoinNothing();
    }
    ghost var joined := "";
    for i := 0 to |parts|
      invariant joined == Join(parts[..i])
      invariant result == first + joined
    {
      JoinNext(parts, i);
      if i > 0 {
        result := result + "/";
        joined := joined + "/";
      }
      result := result + parts[i];
      joined := joined + parts[i];
      assert i == 0 ==> joined == parts[i];
    }
    assert parts[..|parts|] == parts;
    if result == "" {
      result := if rooted then "/" else ".";
    }
  }

  lemma JoinNothing()
    ensures Join([]) == ""
  {
  }

  method NormalizeBody(body: string) returns (result: string)
    ensures result == Body(body)
  {
    hide Segments, Fold, HasDrive, Render;
    CollapsingChangesNothing(body);
    var work := Collapse(body);
    var parts := ResolveSegments(work);
    result := RenderParts(parts, Rooted(work));
  }

  /** The loops compute the plain fold over the segments of the path. */
  method NormalizeDocumentPath(path: string) returns (result: string)
    ensures result == Normal(path)
  {
    hide Decoded, Body, Find;
    var work, schemePrefix := path, "";
    if FILE_SCHEME <= work {
      work := UriDecode(work[|FILE_SCHEME|..]);
      if work != "" && work[0] != '/' && ':' !in work {
        work := "/" + work;
      }
    } else {
      var schemeEnd := Find(work, SEPARATOR, 0);
      if schemeEnd.Some? && schemeEnd.value > 0 {
        var isScheme := IsSchemeName(work, schemeEnd.value);
        if isScheme {
          schemePrefix := work[..schemeEnd.value + 3];
          work := work[schemeEnd.value + 3..];
          if work != "" && work[0] == '/' {
            work := work[1..];
          }
        }
      }
    }
    result := NormalizeBody(work);
    result := schemePrefix + result;
  }

  /******* The shape of a normal form *******/

  predicate NoSlash(s: string) {
    '/' !in s
  }

  // Nothing left to resolve: `..` only at the front, and only where the path may climb.
  ghost predicate Clean(parts: seq<string>, mayClimb: bool) {
    && (forall k: nat | k < |parts| :: parts[k] != "" && parts[k] != "." && NoSlash(parts[k]))
    && (forall k: nat | k < |parts| && parts[k] == ".." :: mayClimb && (k > 0 ==> parts[k - 1] == ".."))
  }

  lemma {:induction false} SegmentsHaveNoSlash(s: string)
    ensures forall k: nat | k < |Segments(s)| :: NoSlash(Segments(s)[k])
  {
    if s != "" {
      SegmentsHaveNoSlash(s[..|s| - 1]);
    }
  }

  lemma {:induction false} FoldIsClean(segments: seq<string>, rooted: bool, drive: bool)
    requires forall k: nat | k < |segments| :: NoSlash(segments[k])
    ensures Clean(Fold(segments, rooted, drive), !rooted && !drive)
  {
    if segments != [] {
      FoldIsClean(segments[..|segments| - 1], rooted, drive);
    }
  }

  // A normal body is rendered from clean parts.
  lemma PartsAreClean(s: string)
    ensures Clean(Fold(Segments(s), Rooted(s), HasDrive(s)), !Rooted(s) && !HasDrive(s))
  {
    SegmentsHaveNoSlash(s);
    FoldIsClean(Segments(s), Rooted(s), HasDrive(s));
  }

  lemma ResolveKeepsClean(init: seq<string>, last: string, rooted: bool, drive: bool)
    requires Clean(init + [last], !rooted && !drive)
    ensures Clean(init, !rooted && !drive) && Resolve(init, last, rooted, drive) == init + [last]
  {
    var parts := init + [last];
    assert forall k: nat | k < |init| :: init[k] == parts[k];
    assert parts[|init|] == last;
  }

  // Resolving clean parts again leaves them alone.
  lemma {:induction false} FoldKeepsClean(parts: seq<string>, rooted: bool, drive: bool)
    requires Clean(parts, !rooted && !drive)
    ensures Fold(parts, rooted, drive) == parts
  {
    if parts != [] {
      var init, last := parts[..|parts| - 1], parts[|parts| - 1];
      assert parts == init + [last];
      hide Clean, Resolve;
      ResolveKeepsClean(init, last, rooted, drive);
      FoldKeepsClean(init, rooted, drive);
    }
  }

  lemma SegmentsNext(s: string, c: char)
    requires c != '/'
    ensures var before := Segments(s);
            Segments(s + [c]) == before[..|before| - 1] + [before[|before| - 1] + [c]]
  {
    assert (s + [c])[..|s|] == s;
  }

  lemma {:induction false} SegmentsAppend(s: string, tail: string)
    requires NoSlash(tail)
    ensures var before := Segments(s);
            Segments(s + tail) == before[..|before| - 1] + [before[|before| - 1] + tail]
    decreases |tail|
  {
    hide Segments;
    var before := Segments(s);
    if tail == "" {
      assert s + tail == s && before[|before| - 1] + tail == before[|before| - 1];
    } else {
      var init, c := tail[..|tail| - 1], tail[|tail| - 1];
      SegmentsAppend(s, init);
      SegmentsNext(s + init, c);
      assert s + tail == s + init + [c] && tail == init + [c];
      assert before[|before| - 1] + init + [c] == before[|before| - 1] + tail;
    }
  }

  lemma SegmentsOfNothing()
    ensures Segments("") == [""] && Segments("/") == ["", ""] && Segments(".") == ["."]
  {
    assert "/"[..0] == "" && "."[..0] == "";
    assert "" + ['.'] == ".";
  }

  lemma SegmentsSlash(s: string)
    ensures Segments(s + "/") == Segments(s) + [""]
  {
    assert (s + "/")[..|s|] == s;
  }

  lemma {:induction false} SegmentsOfJoin(lead: seq<string>, prefix: string, parts: seq<string>)
    requires parts != [] && (forall k: nat | k < |parts| :: NoSlash(parts[k]))
    requires Segments(prefix) == lead + [""]
    ensures Segments(prefix + Join(parts)) == lead + parts
  {
    hide Segments;
    var init, last := parts[..|parts| - 1], parts[|parts| - 1];
    assert "" + last == last && parts == init + [last];
    if |parts| == 1 {
      SegmentsAppend(prefix, last);
    } else {
      SegmentsOfJoin(lead, prefix, init);
      var text := prefix + Join(init);
      SegmentsSlash(text);
      SegmentsAppend(text + "/", last);
      assert prefix + Join(parts) == text + "/" + last;
    }
  }

  lemma {:induction false} JoinStarts(parts: seq<string>)
    requires parts != [] && (forall k: nat | k < |parts| :: parts[k] != "")
    ensures Join(parts) != "" && Join(parts)[0] == parts[0][0]
  {
    if |parts| > 1 {
      JoinStarts(parts[..|parts| - 1]);
    }
  }

  // The segments of a text behind its leading slash, if it has one.
  function Names(s: string): seq<string> {
    if Rooted(s) then Segments(s)[1..] else Segments(s)
  }

  /** A normal body is rooted iff the path was. It is "." or "/" alone, or all its segments
      but the one before the leading slash are names: none is empty or ".", and ".." comes
      only as a leading run of a path that has neither root nor drive. */
  lemma BodyIsClean(s: string)
    ensures Rooted(Body(s)) == Rooted(s)
    ensures Body(s) == "." || Body(s) == "/" || Clean(Names(Body(s)), !Rooted(s) && !HasDrive(s))
    ensures Body(s) == "." ==> !Rooted(s)
  {
    hide Segments, Fold, Clean, Names, Render;
    PartsAreClean(s);
    RenderIsClean(Fold(Segments(s), Rooted(s), HasDrive(s)), Rooted(s), !Rooted(s) && !HasDrive(s));
  }

  lemma RenderIsClean(parts: seq<string>, rooted: bool, mayClimb: bool)
    requires Clean(parts, mayClimb)
    ensures var r := Render(parts, rooted);
            && Rooted(r) == rooted
            && (r == "." || r == "/" || Clean(Names(r), mayClimb))
            && (r == "." ==> !rooted)
  {
    if parts != [] {
      SegmentsOfNothing();
      JoinStarts(parts);
      hide Segments, Join;
      SegmentsOfJoin(if rooted then [""] else [], if rooted then "/" else "", parts);
      assert parts[0][0] != '/';
      assert [] + parts == parts && [] + [""] == [""];
      assert ([""] + parts)[1..] == parts;
    }
  }

  // The leading empty segment of a rooted path is skipped.
  lemma {:induction false} FoldSkipsRoot(parts: seq<string>, rooted: bool, drive: bool)
    ensures Fold([""] + parts, rooted, drive) == Fold(parts, rooted, drive)
  {
    var all := [""] + parts;
    if parts == [] {
      assert all[..0] == [];
    } else {
      FoldSkipsRoot(parts[..|parts| - 1], rooted, drive);
      assert all[..|all| - 1] == [""] + parts[..|parts| - 1];
    }
  }

  lemma NothingIsStable(rooted: bool)
    ensures Rooted(Render([], rooted)) == rooted && Body(Render([], rooted)) == Render([], rooted)
  {
    SegmentsOfNothing();
    var text := Render([], rooted);
    assert text == if rooted then "/" else ".";
    assert [""][..0] == [] && ["."][..0] == [];
    assert Fold([], rooted, false) == [] && Resolve([], "", rooted, false) == [] && Resolve([], ".", rooted, false) == [];
    assert Fold([""], rooted, false) == [] && Fold(["."], rooted, false) == [];
    FoldSkipsRoot([""], rooted, false);
  }

  /** Normal bodies are fixed points. */
  lemma RenderIsStable(parts: seq<string>, rooted: bool)
    requires Clean(parts, !rooted)
    ensures Rooted(Render(parts, rooted)) == rooted
    ensures Body(Render(parts, rooted)) == Render(parts, rooted)
  {
    hide Segments, Fold, Join;
    if parts == [] {
      NothingIsStable(rooted);
    } else {
      var text := Render(parts, rooted);
      JoinStarts(parts);
      SegmentsOfNothing();
      SegmentsOfJoin(if rooted then [""] else [], if rooted then "/" else "", parts);
      var drive := HasDrive(text);
      if drive {
        LeadingClimb(parts);
      }
      FoldKeepsClean(parts, rooted, drive);
      FoldSkipsRoot(parts, rooted, drive);
      assert [] + parts == parts && [] + [""] == [""];
    }
  }

  lemma {:induction false} LeadingClimb(parts: seq<string>)
    requires parts != [] && Clean(parts, true) && parts[0][0] != '.'
    ensures Clean(parts, false)
  {
    forall k: nat | k < |parts|
      ensures parts[k] != ".."
    {
      NoClimbAt(parts, k);
    }
  }

  lemma {:induction false} NoClimbAt(parts: seq<string>, k: nat)
    requires k < |parts| && Clean(parts, true) && parts[0][0] != '.'
    ensures parts[k] != ".."
  {
    if k > 0 {
      NoClimbAt(parts, k - 1);
    }
  }

  /******* Idempotence *******/

  // A scheme other than file, with at least two more slashes behind it.
  predicate SlashesAfterScheme(path: string) {
    SchemeLength(path).Some? && "//" <= path[SchemeLength(path).value + 3..]
  }

  predicate DoubleSlashAt(s: string, i: nat) {
    i + 1 < |s| && s[i] == '/' && s[i + 1] == '/'
  }

  lemma {:induction false} JoinHasNoDoubleSlash(parts: seq<string>, i: nat)
    requires forall k: nat | k < |parts| :: parts[k] != "" && NoSlash(parts[k])
    ensures !DoubleSlashAt(Join(parts), i)
    ensures parts != [] ==> Join(parts) != "" && Join(parts)[0] != '/' && Join(parts)[|Join(parts)| - 1] != '/'
  {
    if parts != [] {
      var init, last := parts[..|parts| - 1], parts[|parts| - 1];
      assert last[0] in last && last[|last| - 1] in last;
      JoinHasNoDoubleSlash(init, i);
      if |parts| == 1 {
        assert i < |last| ==> last[i] in last;
      } else {
        var j := Join(init);
        assert i > |j| && i - |j| - 1 < |last| ==> Join(parts)[i] == last[i - |j| - 1] && last[i - |j| - 1] in last;
      }
    }
  }

  lemma RenderHasNoDoubleSlash(parts: seq<string>, rooted: bool, i: nat)
    requires Clean(parts, !rooted)
    ensures !DoubleSlashAt(Render(parts, rooted), i)
  {
    JoinHasNoDoubleSlash(parts, if rooted && i > 0 then i - 1 else i);
  }

  lemma SeparatorShows(s: string, i: nat)
    requires OccursAt(s, SEPARATOR, i)
    ensures s[i] == ':' && DoubleSlashAt(s, i + 1)
  {
    assert s[i..i + 3][0] == s[i] && s[i..i + 3][1] == s[i + 1] && s[i..i + 3][2] == s[i + 2];
  }

  lemma FileSchemeShows(s: string)
    requires FILE_SCHEME <= s
    ensures OccursAt(s, SEPARATOR, 4) && DoubleSlashAt(s, 5) && forall i: nat | i < 4 :: s[i] != ':'
  {
  }

  // Without a double slash there is no scheme to find.
  lemma PlainText(s: string)
    requires forall i: nat :: !DoubleSlashAt(s, i)
    ensures !(FILE_SCHEME <= s) && SchemeLength(s) == None
    ensures Normal(s) == Body(s)
  {
    forall i: nat
      ensures !OccursAt(s, SEPARATOR, i)
    {
      if OccursAt(s, SEPARATOR, i) {
        SeparatorShows(s, i);
      }
    }
    NeverFound(s, SEPARATOR, 0);
    if FILE_SCHEME <= s {
      FileSchemeShows(s);
    }
  }

  lemma BodyIsStable(s: string)
    ensures Body(Body(s)) == Body(s) && Rooted(Body(s)) == Rooted(s)
    ensures forall i: nat :: !DoubleSlashAt(Body(s), i)
  {
    hide Fold, Segments, Render;
    var parts := Fold(Segments(s), Rooted(s), HasDrive(s));
    PartsAreClean(s);
    assert Clean(parts, !Rooted(s));
    RenderIsStable(parts, Rooted(s));
    forall i: nat
      ensures !DoubleSlashAt(Body(s), i)
    {
      RenderHasNoDoubleSlash(parts, Rooted(s), i);
    }
  }

  // A kept scheme is found again in front of another body.
  lemma SchemeFoundAgain(path: string, body: string)
    requires SchemeLength(path).Some?
    ensures var end := SchemeLength(path).value;
            var again := path[..end + 3] + body;
            SchemeLength(again) == Some(end) && again[end + 3..] == body && again[..end + 3] == path[..end + 3]
  {
    var end := SchemeLength(path).value;
    var scheme := path[..end];
    var again := path[..end + 3] + body;
    assert path[end..end + 3] == SEPARATOR;
    assert again[..end] == scheme && again[end..end + 3] == SEPARATOR;
    forall i: nat | i < end
      ensures !OccursAt(again, SEPARATOR, i)
    {
      assert IsSchemeChar(scheme[i], i == 0) && again[i] == scheme[i];
      if OccursAt(again, SEPARATOR, i) {
        SeparatorShows(again, i);
      }
    }
    FirstFound(again, SEPARATOR, 0, end);
    SeparatorShows(again, end);
    assert path[..end + 3] == again[..end + 3];
    if FILE_SCHEME <= again {
      FileSchemeShows(again);
    }
  }

  /** Normalising twice is the same as normalising once, except exactly for a scheme
      other than file that is followed by two more slashes. */
  lemma IdempotentExceptAfterScheme(path: string)
    ensures Normal(Normal(path)) == Normal(path) <==> !SlashesAfterScheme(path)
  {
    hide Body, Decoded, Find;
    if SchemeLength(path).None? {
      var work := if FILE_SCHEME <= path then FileBody(path) else path;
      BodyIsStable(work);
      PlainText(Body(work));
    } else {
      var end := SchemeLength(path).value;
      var rest := path[end + 3..];
      var work := WithoutSlash(rest);
      var body := Body(work);
      BodyIsStable(work);
      BodyIsStable(WithoutSlash(body));
      SchemeFoundAgain(path, body);
      assert Normal(path) == path[..end + 3] + body;
      assert Normal(Normal(path)) == path[..end + 3] + Body(WithoutSlash(body));
      assert SlashesAfterScheme(path) <==> Rooted(work);
      if Rooted(work) {
        BodyOfRooted(work);
      }
    }
  }

  // Below its leading slash a rooted body does not start with another.
  lemma BodyOfRooted(s: string)
    requires Rooted(s)
    ensures Rooted(Body(s)) && !Rooted(WithoutSlash(Body(s)))
  {
    BodyIsStable(s);
    assert !DoubleSlashAt(Body(s), 0);
  }
}
