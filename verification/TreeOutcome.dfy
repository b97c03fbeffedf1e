/** What writing and checking the generated tree mean for the files of a user, told by the
    paths themselves. */
module TreeOutcome {
  import opened Wrappers
  import opened TreeSync

  /******* Paths *******/

  function Joined(parts: seq<string>, c: char): string {
    if parts == [] then ""
    else if |parts| == 1 then parts[0]
    else parts[0] + [c] + Joined(parts[1..], c)
  }

  ghost predicate Without(parts: seq<string>, c: char) {
    forall part <- parts :: c !in part
  }

  lemma {:induction false} SplitJoins(s: string, c: char)
    ensures Joined(Split(s, c), c) == s && Without(Split(s, c), c)
  {
    if s != [] {
      SplitJoins(s[1..], c);
      var rest := Split(s[1..], c);
      assert s == [s[0]] + s[1..];
      if s[0] == c {
        assert ([[]] + rest)[1..] == rest;
        assert Joined([[]] + rest, c) == [] + [c] + Joined(rest, c);
      } else {
        var parts := [[s[0]] + rest[0]] + rest[1..];
        assert parts[1..] == rest[1..];
        assert Joined(parts, c) == [s[0]] + Joined(rest, c);
        assert rest[0] in rest;
        forall part <- parts ensures c !in part {
          assert part == [s[0]] + rest[0] || part in rest;
        }
      }
    }
  }

  lemma {:induction false} JoinedSplits(parts: seq<string>, c: char)
    requires parts != [] && Without(parts, c)
    ensures Split(Joined(parts, c), c) == parts
  {
    assert parts[0] in parts;
    if |parts| == 1 {
      SplitWhole(parts[0], c);
    } else {
      JoinedSplits(parts[1..], c);
      SplitPieces(parts[0], Joined(parts[1..], c), c);
    }
  }

  predicate ProperName(part: string) {
    part != "" && part != "." && part != ".." && '/' !in part && '\\' !in part
  }

  ghost predicate IsRelative(path: string, parts: seq<string>) {
    parts != [] && Joined(parts, '/') == path && forall part <- parts :: ProperName(part)
  }

  /** A path is accepted iff it is one or more proper names with slashes between them. */
  lemma ValidPathIff(path: string)
    ensures ValidPath(path) <==> exists parts :: IsRelative(path, parts)
  {
    if ValidPath(path) {
      SplitJoins(path, '/');
      var parts := Split(path, '/');
      forall part <- parts ensures ProperName(part) {
        PartsWithin(path, '/', '\\');
      }
      assert IsRelative(path, parts);
    }
    if parts :| IsRelative(path, parts) {
      JoinedSplits(parts, '/');
      JoinedWithin(parts, '/', '\\');
      assert parts[0] in parts && path[0] == parts[0][0];
    }
  }

  lemma {:induction false} PartsWithin(s: string, c: char, other: char)
    requires other !in s
    ensures Without(Split(s, c), other)
  {
    if s != [] {
      PartsWithin(s[1..], c, other);
      var rest := Split(s[1..], c);
      assert rest[0] in rest;
      forall part <- Split(s, c) ensures other !in part {
        assert part == [] || part == [s[0]] + rest[0] || part in rest;
      }
    }
  }

  lemma {:induction false} JoinedWithin(parts: seq<string>, c: char, other: char)
    requires Without(parts, other) && c != other
    ensures other !in Joined(parts, c)
  {
    if parts != [] {
      assert parts[0] in parts;
      JoinedWithin(parts[1..], c, other);
    }
  }

  /******* The generator's Zig files *******/

  const DIRECTORY := "generated_classes/"

  // Directly in the generated directory, or anywhere in one of its two subdirectories.
  ghost predicate IsZigName(inner: string) {
    || (exists stem :: '/' !in stem && '\\' !in stem && inner == stem + ".zig")
    || (exists stem :: inner == "classes/" + stem + ".zig")
    || (exists stem :: inner == "cycles/" + stem + ".zig")
  }

  ghost predicate IsZigFile(path: string) {
    exists inner :: path == DIRECTORY + inner && IsZigName(inner)
  }

  lemma Below(rest: string)
    ensures Under(DIRECTORY + rest) && Inner(DIRECTORY + rest) == rest
  {
    assert (DIRECTORY + rest)[..|DIRECTORY|] == ROOT;
  }

  lemma InnerBelow(path: string)
    requires Under(path)
    ensures path == DIRECTORY + Inner(path)
  {
  }

  lemma WithoutSuffix(s: string, stem: string, suffix: string)
    ensures s == stem + suffix ==> EndsWith(s, suffix)
    ensures EndsWith(s, suffix) ==> s == s[..|s| - |suffix|] + suffix
  {
  }

  lemma StemOf(inner: string, directory: string)
    requires directory != "" && directory[|directory| - 1] == '/'
    requires StartsWith(inner, directory) && EndsWith(inner, ".zig")
    ensures |inner| >= |directory| + 4 && inner == directory + inner[|directory|..|inner| - 4] + ".zig"
  {
    var n := |inner|;
    assert inner[..|directory|] == directory && inner[n - 4..] == ".zig";
    assert inner[n - 4] == '.' && inner[n - 3] == 'z' && inner[n - 2] == 'i' && inner[n - 1] == 'g';
    assert inner[|directory| - 1] == '/';
    assert |directory| - 1 < n - 4;
  }

  lemma InDirectory(inner: string, directory: string)
    requires directory == "classes/" || directory == "cycles/"
    ensures StartsWith(inner, directory) && EndsWith(inner, ".zig") <==>
            exists stem :: inner == directory + stem + ".zig"
  {
    if StartsWith(inner, directory) && EndsWith(inner, ".zig") {
      StemOf(inner, directory);
    }
    forall stem | inner == directory + stem + ".zig"
      ensures StartsWith(inner, directory) && EndsWith(inner, ".zig")
    {
      WithoutSuffix(inner, directory + stem, ".zig");
      assert inner[..|directory|] == directory;
    }
    hide StartsWith, EndsWith;
  }

  lemma ManagedName(inner: string)
    ensures (EndsWith(inner, ".zig")
             && (('/' !in inner && '\\' !in inner) || StartsWith(inner, "classes/") || StartsWith(inner, "cycles/")))
            <==> IsZigName(inner)
  {
    InDirectory(inner, "classes/");
    InDirectory(inner, "cycles/");
    forall stem ensures inner == stem + ".zig" ==> EndsWith(inner, ".zig") {
      WithoutSuffix(inner, stem, ".zig");
    }
    if EndsWith(inner, ".zig") && '/' !in inner && '\\' !in inner {
      WithoutSuffix(inner, "", ".zig");
      assert inner == inner[..|inner| - 4] + ".zig";
    }
    hide EndsWith, StartsWith;
  }

  lemma ManagedIff(path: string)
    ensures Managed(path) <==> IsZigFile(path)
  {
    ManagedName(Inner(path));
    hide EndsWith, StartsWith, IsZigName;
    if Under(path) {
      InnerBelow(path);
    }
    forall inner | path == DIRECTORY + inner ensures Under(path) && Inner(path) == inner {
      Below(inner);
    }
  }

  /** After writing, a Zig file directly in the generated directory or below its two
      subdirectories is there iff it was generated (a name with a backslash apart); every
      other file that is neither generated nor listed by the old manifest is as it was. */
  lemma ZigFilesAfterWrite(disk: Disk, files: seq<File>, path: string)
    requires Write(disk, files).error.None? && Possible(disk)
    ensures IsZigFile(path) && '\\' !in path ==> (path in Write(disk, files).disk.files <==> Generated(files, path))
    ensures !IsZigFile(path) && !Generated(files, path) && !Listed(disk, files, path) ==>
              var r := Write(disk, files).disk;
              && (path in r.files <==> path in disk.files)
              && (path in r.files ==> r.files[path] == disk.files[path])
  {
    ManagedIff(path);
    hide IsZigFile;
    if IsZigFile(path) && '\\' !in path {
      ManagedAreGenerated(disk, files, path);
    } else {
      WriteLeaves(disk, files);
      hide Write, Listed, Managed;
    }
  }

  /** On a disk without backslashes in its names, checking succeeds iff every path is valid,
      every file is there with its contents, and no Zig file of the generator's is there
      that was not generated. */
  lemma CheckIff(disk: Disk, files: seq<File>)
    requires forall p <- disk.files :: '\\' !in p
    ensures Check(disk, files).None? <==>
            && (forall f <- files :: exists parts :: IsRelative(f.path, parts))
            && (forall f <- files :: f.path in disk.files && disk.files[f.path] == f.contents)
            && (disk.generated ==> forall p <- disk.files :: IsZigFile(p) ==> Generated(files, p))
  {
    forall f <- files ensures ValidPath(f.path) <==> exists parts :: IsRelative(f.path, parts) {
      ValidPathIff(f.path);
    }
    hide ValidPath, IsRelative;
    forall p <- disk.files ensures AllValid(files) ==> (Stale(p, Expected(files)) <==> IsZigFile(p) && !Generated(files, p)) {
      ManagedIff(p);
      if AllValid(files) && Managed(p) {
        StaleUnlessGenerated(files, p);
      }
    }
    hide Stale, IsZigFile, Generated, Expected;
  }

  /** A generated directory without the generator's stamp is refused, and left as it is. */
  lemma ForeignDirectoryIsLeft(disk: Disk, files: seq<File>)
    requires disk.generated
    requires !("generated_classes/.generated-bindings" in disk.files
               && disk.files["generated_classes/.generated-bindings"] == "Generated by tools/generate_bindings.zig. Do not edit.\n")
    ensures Write(disk, files).disk == disk && Write(disk, files).error.Some?
  {
    hide AllValid;
  }

  /******* Manifests *******/

  // Names as lines, some of them with a carriage return before the line feed.
  function Lines(names: seq<string>, returns_: seq<bool>): string
    requires |names| == |returns_|
  {
    if names == [] then ""
    else names[0] + (if returns_[0] then "\r\n" else "\n") + Lines(names[1..], returns_[1..])
  }

  predicate IsLine(name: string) {
    '\n' !in name && (name == "" || name[|name| - 1] != '\r')
  }

  lemma TrimsReturn(name: string)
    requires IsLine(name)
    ensures TrimEnd(name) == name && TrimEnd(name + "\r") == name
  {
    assert (name + "\r")[..|name|] == name;
  }

  lemma NoLines()
    ensures Split("", '\n') == [""] && TrimEnd("") == ""
  {
  }

  lemma {:induction false} LinesSplit(names: seq<string>, returns_: seq<bool>)
    requires |names| == |returns_| && forall name <- names :: IsLine(name)
    ensures var lines := Split(Lines(names, returns_), '\n');
            |lines| == |names| + 1 && TrimEnd(lines[|names|]) == "" && forall k: nat | k < |names| :: TrimEnd(lines[k]) == names[k]
  {
    hide TrimEnd, Split, IsLine;
    if names == [] {
      NoLines();
    } else {
      assert forall name <- names[1..] :: name in names;
      LinesSplit(names[1..], returns_[1..]);
      assert names[0] in names;
      TrimsReturn(names[0]);
      var rest := Lines(names[1..], returns_[1..]);
      var first := if returns_[0] then names[0] + "\r" else names[0];
      LineHasNoFeed(names[0]);
      SplitPieces(first, rest, '\n');
      assert Lines(names, returns_) == first + ['\n'] + rest;
      hide Lines;
      var lines := Split(Lines(names, returns_), '\n');
      forall k: nat | k < |names| ensures TrimEnd(lines[k]) == names[k] {
        assert k > 0 ==> lines[k] == Split(rest, '\n')[k - 1] && names[k] == names[1..][k - 1];
      }
    }
  }

  lemma LineHasNoFeed(name: string)
    requires IsLine(name)
    ensures '\n' !in name && '\n' !in name + "\r"
  {
  }

  /** Writing over an older tree takes away every file its manifest lists, with either kind of
      line end, unless it is generated again. It refuses to when a listed name is no proper
      path, and does not otherwise. */
  lemma ObsoleteFilesAreGone(disk: Disk, files: seq<File>, names: seq<string>, returns_: seq<bool>)
    requires |names| == |returns_| && (forall name <- names :: IsLine(name)) && Possible(disk)
    requires "generated_classes/manifest.txt" in disk.files && disk.files["generated_classes/manifest.txt"] == Lines(names, returns_)
    requires AllValid(files) && Owned(disk)
    ensures Write(disk, files).error.None? <==>
            forall name <- names :: name == "" || exists parts :: IsRelative(name, parts)
    ensures Write(disk, files).error.None? ==>
              forall name <- names :: name != "" && name != "manifest.txt" && name != ".generated-bindings" ==>
                (DIRECTORY + name in Write(disk, files).disk.files <==> Generated(files, DIRECTORY + name))
  {
    var lines := OldLines(disk);
    LinesSplit(names, returns_);
    forall name <- names ensures ValidPath(name) <==> exists parts :: IsRelative(name, parts) {
      ValidPathIff(name);
    }
    forall name <- Expected(files) ensures ValidPath(name) {
      ExpectedIsValid(files, name);
    }
    WriteErrors(disk, files);
    hide Write, ValidPath, IsRelative, Expected, AllValid, TrimEnd, Split, Lines, IsLine;
    LinesAreNames(lines, names, Expected(files));
    if Write(disk, files).error.None? {
      WriteLeaves(disk, files);
      forall name <- names | name != "" && name != "manifest.txt" && name != ".generated-bindings"
        ensures DIRECTORY + name in Write(disk, files).disk.files <==> Generated(files, DIRECTORY + name)
      {
        ListedOrGenerated(disk, files, names, name);
      }
    }
  }

  lemma ExpectedIsValid(files: seq<File>, name: string)
    requires AllValid(files) && name in Expected(files)
    ensures ValidPath(name)
  {
    var f :| f in files && Listable(f.path) && Inner(f.path) == name;
    InnerBelow(f.path);
    assert f.path == "generated_classes" + ['/'] + name;
    SplitPieces("generated_classes", name, '/');
    assert forall part <- Split(name, '/') :: part in Split(f.path, '/');
    SplitJoins(name, '/');
    FirstPart(name);
    assert Split(name, '/')[0] in Split(name, '/');
    assert forall k: nat | k < |name| :: f.path[k + 18] == name[k];
  }

  lemma FirstPart(s: string)
    ensures s == "" || s[0] == '/' ==> Split(s, '/')[0] == ""
  {
  }

  lemma LinesAreNames(lines: seq<string>, names: seq<string>, expected: set<string>)
    requires |lines| == |names| + 1 && TrimEnd(lines[|names|]) == ""
    requires forall k: nat | k < |names| :: TrimEnd(lines[k]) == names[k]
    ensures LinesValid(lines, expected) <==> forall name <- names :: name == "" || name in expected || ValidPath(name)
  {
    hide TrimEnd, ValidPath;
    forall line <- lines ensures TrimEnd(line) == "" || TrimEnd(line) in names {
      var k: nat :| k < |lines| && lines[k] == line;
      assert k < |names| ==> names[k] in names;
    }
    forall name <- names ensures exists line <- lines :: TrimEnd(line) == name {
      var k: nat :| k < |names| && names[k] == name;
      assert lines[k] in lines;
    }
  }

  lemma ListedOrGenerated(disk: Disk, files: seq<File>, names: seq<string>, name: string)
    requires AllValid(files) && name in names && name != "" && name != "manifest.txt" && name != ".generated-bindings"
    requires |OldLines(disk)| == |names| + 1
    requires forall k: nat | k < |names| :: TrimEnd(OldLines(disk)[k]) == names[k]
    ensures Generated(files, DIRECTORY + name) || Listed(disk, files, DIRECTORY + name)
  {
    Below(name);
    var path := DIRECTORY + name;
    ListableIff(path, name);
    ExpectedIsGenerated(files, path);
    hide AllValid, Expected, TrimEnd, OldLines;
    var k: nat :| k < |names| && names[k] == name;
    if !Generated(files, path) {
      assert OldLines(disk)[k] in OldLines(disk);
      assert TrimEnd(OldLines(disk)[k]) == name;
    }
  }

  /** The manifest names exactly the files below the generated directory, but for the stamp and
      itself. */
  lemma {:induction false} ManifestListsAll(parts: seq<File>, name: string)
    ensures name in ManifestNames(parts) <==>
            && (exists f <- parts :: f.path == DIRECTORY + name)
            && name != ".generated-bindings" && name != "manifest.txt"
  {
    if parts != [] {
      ManifestListsAll(parts[1..], name);
      assert parts == [parts[0]] + parts[1..];
      Below(name);
      ListableIff(parts[0].path, name);
      hide Listable, Inner;
      assert parts[0] in parts;
      if f :| f in parts && f.path == DIRECTORY + name && f != parts[0] {
        assert f in parts[1..];
      }
    }
  }

  lemma ListableIff(path: string, name: string)
    ensures Listable(path) && Inner(path) == name <==>
            path == DIRECTORY + name && name != ".generated-bindings" && name != "manifest.txt"
  {
    Below(name);
    assert SENTINEL == DIRECTORY + ".generated-bindings" && MANIFEST == DIRECTORY + "manifest.txt";
    if Under(path) {
      InnerBelow(path);
    }
    if path == SENTINEL {
      Below(".generated-bindings");
    }
    if path == MANIFEST {
      Below("manifest.txt");
    }
  }
}
