/** Where a document path leads: the place one gets to by following its segments one after
    the other, and which spellings name the same document. */
module PathOutcome {
  import opened Wrappers
  import opened Strings
  import opened DocumentPath

  /******* Segments *******/

  /** The segments are what is between the slashes. */
  lemma {:induction false} SegmentsBetweenSlashes(s: string)
    ensures Join(Segments(s)) == s && forall segment <- Segments(s) :: '/' !in segment
  {
    if s != "" {
      var before, c := s[..|s| - 1], s[|s| - 1];
      SegmentsBetweenSlashes(before);
      var segments := Segments(before);
      var last := segments[|segments| - 1];
      assert s == before + [c] && last in segments;
      if c == '/' {
        assert (segments + [""])[..|segments|] == segments;
        assert Join(segments + [""]) == Join(segments) + "/" + "";
      } else {
        assert Segments(s)[..|segments| - 1] == segments[..|segments| - 1];
        assert |segments| > 1 ==> Join(segments) == Join(segments[..|segments| - 1]) + "/" + last;
      }
    }
  }

  /******* Following a path *******/

  // So many directories up from where one started, and then down along these names.
  datatype Place = Place(ups: nat, names: seq<string>)

  // One segment further: up, staying, or down along a name.
  function Move(here: Place, next: string, mayClimb: bool): Place {
    if next == ".." then
      if here.names != [] then Place(here.ups, here.names[..|here.names| - 1])
      else if mayClimb then Place(here.ups + 1, [])
      else here
    else if next == "" || next == "." then here
    else Place(here.ups, here.names + [next])
  }

  function Follow(segments: seq<string>, mayClimb: bool): Place {
    if segments == [] then Place(0, [])
    else Move(Follow(segments[..|segments| - 1], mayClimb), segments[|segments| - 1], mayClimb)
  }

  function Ups(n: nat): seq<string> {
    seq(n, _ => "..")
  }

  lemma {:induction false} NamesAreNames(segments: seq<string>, mayClimb: bool)
    ensures forall name <- Follow(segments, mayClimb).names :: name != ".."
    ensures !mayClimb ==> Follow(segments, mayClimb).ups == 0
  {
    if segments != [] {
      NamesAreNames(segments[..|segments| - 1], mayClimb);
    }
  }

  function Parts(place: Place): seq<string> {
    Ups(place.ups) + place.names
  }

  lemma ResolveMoves(here: Place, next: string, rooted: bool)
    requires (forall name <- here.names :: name != ".." && '/' !in name) && (rooted ==> here.ups == 0)
    ensures Resolve(Parts(here), next, rooted, false) == Parts(Move(here, next, !rooted))
  {
    if next == ".." {
      ResolveClimbs(here, rooted);
    } else {
      assert Parts(here) + [next] == Ups(here.ups) + (here.names + [next]);
    }
  }

  lemma ResolveDrops(parts: seq<string>, last: string, rooted: bool)
    requires last != ".." && last != "/"
    ensures Resolve(parts + [last], "..", rooted, false) == parts
  {
    assert (parts + [last])[..|parts|] == parts && (parts + [last])[|parts|] == last;
  }

  lemma ResolveLeaves(ups: nat, rooted: bool)
    requires rooted ==> ups == 0
    ensures Resolve(Ups(ups), "..", rooted, false) == if rooted then [] else Ups(ups + 1)
  {
    assert Ups(ups) + [".."] == Ups(ups + 1) && Ups(0) == [];
  }

  lemma ResolveClimbs(here: Place, rooted: bool)
    requires (forall name <- here.names :: name != ".." && '/' !in name) && (rooted ==> here.ups == 0)
    ensures Resolve(Parts(here), "..", rooted, false) == Parts(Move(here, "..", !rooted))
  {
    hide Resolve;
    if here.names != [] {
      var init, last := here.names[..|here.names| - 1], here.names[|here.names| - 1];
      assert last in here.names;
      assert Parts(here) == Ups(here.ups) + init + [last];
      ResolveDrops(Ups(here.ups) + init, last, rooted);
    } else {
      ResolveLeaves(here.ups, rooted);
      assert Parts(here) == Ups(here.ups) && Ups(here.ups + 1) + [] == Ups(here.ups + 1) && Ups(0) == [];
    }
  }

  lemma {:induction false} FoldFollows(segments: seq<string>, rooted: bool)
    requires forall segment <- segments :: '/' !in segment
    ensures Fold(segments, rooted, false) == Parts(Follow(segments, !rooted))
  {
    hide Resolve;
    if segments != [] {
      var init, next := segments[..|segments| - 1], segments[|segments| - 1];
      FoldFollows(init, rooted);
      NamesAreNames(init, !rooted);
      var here := Follow(init, !rooted);
      assert forall segment <- init :: segment in segments;
      FoldHasNoSlash(init, rooted, false);
      assert forall name <- here.names :: name in Parts(here);
      ResolveMoves(here, next, rooted);
      hide Fold, Follow;
      FollowNext(init, next, !rooted);
      FoldNext(init, next, rooted, false);
      assert segments == init + [next];
    }
  }

  lemma FollowNext(init: seq<string>, next: string, mayClimb: bool)
    ensures Follow(init + [next], mayClimb) == Move(Follow(init, mayClimb), next, mayClimb)
  {
    assert (init + [next])[..|init|] == init;
  }

  lemma FoldNext(init: seq<string>, next: string, rooted: bool, drive: bool)
    ensures Fold(init + [next], rooted, drive) == Resolve(Fold(init, rooted, drive), next, rooted, drive)
  {
    assert (init + [next])[..|init|] == init;
  }

  lemma {:induction false} FoldHasNoSlash(segments: seq<string>, rooted: bool, drive: bool)
    requires forall segment <- segments :: '/' !in segment
    ensures forall part <- Fold(segments, rooted, drive) :: '/' !in part
  {
    if segments != [] {
      assert segments[|segments| - 1] in segments;
      FoldHasNoSlash(segments[..|segments| - 1], rooted, drive);
    }
  }

  lemma ResolveMovesDrive(first: string, here: Place, next: string)
    requires first != ".." && here.ups == 0 && forall name <- here.names :: name != ".." && '/' !in name
    ensures Resolve([first] + here.names, next, false, true) == [first] + Move(here, next, false).names
  {
    var parts := [first] + here.names;
    if here.names != [] {
      var last := here.names[|here.names| - 1];
      assert last in here.names && parts[|parts| - 1] == last;
      assert parts[..|parts| - 1] == [first] + here.names[..|here.names| - 1];
    }
    assert parts + [next] == [first] + (here.names + [next]);
  }

  lemma DriveNext(first: string, init: seq<string>, next: string)
    requires first != ".." && '/' !in first && forall segment <- init :: '/' !in segment
    requires Fold([first] + init, false, true) == [first] + Follow(init, false).names
    ensures Fold([first] + (init + [next]), false, true) == [first] + Follow(init + [next], false).names
  {
    hide Fold, Follow, Move, Resolve;
    var here := Follow(init, false);
    NamesAreNames(init, false);
    FoldHasNoSlash([first] + init, false, true);
    assert forall name <- here.names :: name in [first] + here.names;
    ResolveMovesDrive(first, here, next);
    FoldNext([first] + init, next, false, true);
    FollowNext(init, next, false);
    assert [first] + (init + [next]) == [first] + init + [next];
  }

  // With a drive in front the rest is followed from it, and does not climb above it.
  lemma {:induction false} FoldFollowsDrive(first: string, segments: seq<string>)
    requires first != "" && first != "." && first != ".." && '/' !in first
    requires forall segment <- segments :: '/' !in segment
    ensures Fold([first] + segments, false, true) == [first] + Follow(segments, false).names
  {
    hide Fold, Follow, Move, Resolve;
    if segments == [] {
      assert [first] + segments == [first];
      FirstOfAll(first);
      NowhereYet();
    } else {
      var init, next := segments[..|segments| - 1], segments[|segments| - 1];
      FoldFollowsDrive(first, init);
      DriveNext(first, init, next);
      assert segments == init + [next];
    }
  }

  lemma NowhereYet()
    ensures Follow([], false).names == []
  {
  }

  lemma FirstOfAll(first: string)
    requires first != "" && first != "." && first != ".."
    ensures Fold([first], false, true) == [first]
  {
    assert [first][..0] == [] && Fold([], false, true) == [];
  }

  /** The body of a path without a drive is the text of the place its segments lead to: from
      the root, above which nothing is, or from where one is, which may be left upwards. */
  lemma BodyIsPlace(s: string)
    requires !HasDrive(s)
    ensures var place := Follow(Segments(s), !Rooted(s));
            var parts := Parts(place);
            Body(s) == if Rooted(s) then "/" + Join(parts) else if parts == [] then "." else Join(parts)
  {
    SegmentsBetweenSlashes(s);
    FoldFollows(Segments(s), Rooted(s));
    PartsAreClean(s);
    var parts := Fold(Segments(s), Rooted(s), HasDrive(s));
    hide Segments, Fold, Join, Follow;
    if parts != [] {
      JoinStarts(parts);
    } else {
      JoinNothing();
    }
  }

  /** With a drive the body is the drive and the place the other segments lead to from there. */
  lemma DriveIsPlace(s: string)
    requires |s| >= 2 && s[1] == ':' && ('a' <= s[0] <= 'z' || 'A' <= s[0] <= 'Z')
    ensures Body(s) == Join([Segments(s)[0]] + Follow(Segments(s)[1..], false).names)
  {
    hide Follow, Fold, Join, Render;
    SegmentsBetweenSlashes(s);
    DriveIsFirst(s);
    var segments := Segments(s);
    assert segments == [segments[0]] + segments[1..] && segments[0] in segments;
    assert segments[0][0] != '.';
    FoldFollowsDrive(segments[0], segments[1..]);
    var parts := [segments[0]] + Follow(segments[1..], false).names;
    PartsAreClean(s);
    assert Fold(segments, false, true) == parts;
    hide Segments, Fold, Join, Follow, Clean;
    RenderOfClean(parts);
    assert Body(s) == Render(parts, false);
  }

  lemma RenderOfClean(parts: seq<string>)
    requires parts != [] && Clean(parts, false)
    ensures Render(parts, false) == Join(parts)
  {
    JoinStarts(parts);
    assert "" + Join(parts) == Join(parts);
  }

  // The first segment is settled by the first slash.
  lemma FirstSegmentStays(s: string, c: char)
    ensures Segments(s)[0] <= Segments(s + [c])[0]
  {
    assert (s + [c])[..|s|] == s;
  }

  lemma {:induction false} DriveIsFirst(s: string)
    requires |s| >= 2 && s[0] != '/' && s[1] != '/'
    ensures |Segments(s)[0]| >= 2 && Segments(s)[0][..2] == s[..2]
  {
    hide Segments;
    if |s| == 2 {
      SegmentsOfNothing();
      SegmentsNext("", s[0]);
      SegmentsNext([s[0]], s[1]);
      assert "" + [s[0]] == [s[0]] && [s[0]] + [s[1]] == s;
    } else {
      var before := s[..|s| - 1];
      DriveIsFirst(before);
      FirstSegmentStays(before, s[|s| - 1]);
      assert s == before + [s[|s| - 1]] && before[..2] == s[..2];
    }
  }

  /******* Schemes *******/

  lemma RootedHasNoScheme(path: string)
    requires Rooted(path)
    ensures Normal(path) == Body(path)
  {
    hide Body, Decoded;
    assert !(FILE_SCHEME <= path);
    if Find(path, SEPARATOR, 0).Some? {
      var end := Find(path, SEPARATOR, 0).value;
      assert end > 0 ==> path[..end][0] == '/';
    }
  }

  /** A file URI names the document of the path it encodes, in whichever way. */
  lemma FileUriNamesPath(path: string, escape: char -> bool, digits: string)
    requires Rooted(path) && (forall k: nat | k < |path| :: path[k] as nat < 256) && escape('%')
    requires digits == UPPER || digits == LOWER
    ensures Normal("file://" + Encoded(path, escape, digits)) == Normal(path)
  {
    DecodeUndoesEncode(path, escape, digits);
    RootedHasNoScheme(path);
    hide Body, Decoded, Encoded;
    var uri := "file://" + Encoded(path, escape, digits);
    assert uri[..7] == FILE_SCHEME && uri[7..] == Encoded(path, escape, digits);
  }

  lemma {:induction false} NothingToDecode(s: string)
    requires '%' !in s
    ensures Decoded(s) == s
  {
    if s != "" {
      NothingToDecode(s[1..]);
      assert s[0] in s && s == [s[0]] + s[1..];
    }
  }

  predicate IsHex(c: char) {
    '0' <= c <= '9' || 'a' <= c <= 'f' || 'A' <= c <= 'F'
  }

  /** A percent sign that two hexadecimal digits do not follow stays as it is. */
  lemma MalformedEscapeStays(s: string)
    requires |s| < 2 || !IsHex(s[0]) || !IsHex(s[1])
    ensures Decoded("%" + s) == "%" + Decoded(s)
  {
    assert ("%" + s)[1..] == s;
    assert |s| >= 2 ==> ("%" + s)[1] == s[0] && ("%" + s)[2] == s[1];
  }

  /** A file URI with a host in front of the path, and no slash before it, is rooted as well,
      unless there is a colon in it, as there is behind a drive. */
  lemma FileUriWithoutSlash(rest: string)
    requires rest != "" && rest[0] != '/' && '%' !in rest
    ensures Normal("file://" + rest) == if ':' in rest then Body(rest) else Body("/" + rest)
  {
    NothingToDecode(rest);
    hide Body, Decoded;
    var uri := "file://" + rest;
    assert uri[..7] == FILE_SCHEME && uri[7..] == rest;
  }

  predicate IsSchemeName(scheme: string) {
    && scheme != "" && ('a' <= scheme[0] <= 'z' || 'A' <= scheme[0] <= 'Z')
    && forall c <- scheme ::
         'a' <= c <= 'z' || 'A' <= c <= 'Z' || '0' <= c <= '9' || c == '+' || c == '-' || c == '.'
  }

  lemma SchemeNameIff(scheme: string)
    ensures IsScheme(scheme) <==> IsSchemeName(scheme)
  {
    if IsScheme(scheme) {
      forall c <- scheme ensures IsLetter(c) || '0' <= c <= '9' || c == '+' || c == '-' || c == '.' {
        var k: nat :| k < |scheme| && scheme[k] == c;
        assert IsSchemeChar(scheme[k], k == 0);
      }
    }
    if IsSchemeName(scheme) {
      forall k: nat | k < |scheme| ensures IsSchemeChar(scheme[k], k == 0) {
        assert scheme[k] in scheme;
      }
    }
  }

  /** A scheme other than file stays in front as it is, and what is behind it is normalised
      without one leading slash. */
  lemma SchemeIsKept(scheme: string, rest: string)
    requires IsSchemeName(scheme) && scheme != "file"
    ensures Normal(scheme + "://" + rest) ==
            scheme + "://" + Body(if rest != "" && rest[0] == '/' then rest[1..] else rest)
  {
    hide Body, Decoded;
    var path, end := scheme + "://" + rest, |scheme|;
    SchemeNameIff(scheme);
    assert path[end..end + 3] == SEPARATOR && path[..end] == scheme && path[end + 3..] == rest;
    forall i: nat | i < end ensures !OccursAt(path, SEPARATOR, i) {
      assert path[i] in scheme;
      BeginsWithColon(path, i);
    }
    FirstFound(path, SEPARATOR, 0, end);
    if FILE_SCHEME <= path {
      FileSchemeShows(path);
      FileIsScheme(scheme, rest);
    }
    assert path[..end + 3] == scheme + "://";
  }

  lemma BeginsWithColon(text: string, i: nat)
    ensures OccursAt(text, SEPARATOR, i) ==> text[i] == ':'
  {
    if OccursAt(text, SEPARATOR, i) {
      assert text[i..i + 3][0] == text[i];
    }
  }

  lemma FileIsScheme(scheme: string, rest: string)
    requires IsSchemeName(scheme) && FILE_SCHEME <= scheme + "://" + rest
    ensures scheme == "file"
  {
    var path := scheme + "://" + rest;
    assert path[..7] == FILE_SCHEME;
    assert path[0] == 'f' && path[1] == 'i' && path[2] == 'l' && path[3] == 'e' && path[4] == ':';
    assert forall k: nat | k < |scheme| :: scheme[k] in scheme && path[k] == scheme[k];
    assert path[|scheme|] == ':';
    assert |scheme| == 4;
    assert scheme == path[..4];
  }

  /** A text without a scheme in front of "://" is all path. */
  lemma NoSchemeIsPath(path: string)
    requires !(FILE_SCHEME <= path)
    requires forall scheme, rest | path == scheme + "://" + rest :: !IsSchemeName(scheme)
    ensures Normal(path) == Body(path)
  {
    hide Body, Decoded;
    if Find(path, SEPARATOR, 0).Some? {
      var end := Find(path, SEPARATOR, 0).value;
      var scheme, rest := path[..end], path[end + 3..];
      assert path == scheme + "://" + rest;
      SchemeNameIff(scheme);
    }
  }
}
