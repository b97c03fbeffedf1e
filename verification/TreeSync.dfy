/** Writing the generated bindings to disk, and checking that the disk is up to date. */
module TreeSync {
  import opened Wrappers

  datatype File = File(path: string, contents: string)

  // Files by path below the output root, and whether the generated directory is there.
  datatype Disk = Disk(files: map<string, string>, generated: bool)

  datatype Error = InvalidGeneratedPath | UnownedGeneratedDirectory | StaleBindings

  // What a synchronisation leaves on disk, and the error it stopped with.
  datatype Outcome = Outcome(disk: Disk, error: Option<Error>)

  const ROOT := "generated_classes/"
  const SENTINEL := "generated_classes/.generated-bindings"
  const MANIFEST := "generated_classes/manifest.txt"
  const STAMP := "Generated by tools/generate_bindings.zig. Do not edit.\n"
  const ZIG := ".zig"

  /******* Paths *******/

  function Split(s: string, c: char): (parts: seq<string>)
    ensures |parts| > 0
  {
    if s == [] then [[]]
    else
      var rest := Split(s[1..], c);
      if s[0] == c then [[]] + rest else [[s[0]] + rest[0]] + rest[1..]
  }

  predicate ValidPath(path: string) {
    path != [] && path[0] != '/' && '\\' !in path &&
    forall part <- Split(path, '/') :: part != "" && part != "." && part != ".."
  }

  predicate StartsWith(s: string, prefix: string) {
    prefix <= s
  }

  predicate EndsWith(s: string, suffix: string) {
    |suffix| <= |s| && s[|s| - |suffix|..] == suffix
  }

  predicate Under(path: string) {
    StartsWith(path, ROOT)
  }

  // The path below the generated directory.
  function Inner(path: string): string {
    if Under(path) then path[|ROOT|..] else path
  }

  predicate Listable(path: string) {
    Under(path) && path != SENTINEL && path != MANIFEST
  }

  function Expected(files: seq<File>): set<string> {
    set f <- files | Listable(f.path) :: Inner(f.path)
  }

  function Slashed(s: string): string {
    seq(|s|, i requires 0 <= i < |s| => if s[i] == '\\' then '/' else s[i])
  }

  // The Zig files that the generator owns: those directly in its directory, and those
  // anywhere below its two subdirectories. A name with a backslash is looked at in the
  // subdirectories only.
  predicate Managed(path: string) {
    var inner := Inner(path);
    && Under(path) && EndsWith(inner, ZIG)
    && (('/' !in inner && '\\' !in inner) || StartsWith(inner, "classes/") || StartsWith(inner, "cycles/"))
  }

  predicate Stale(path: string, expected: set<string>) {
    Managed(path) &&
    (if '/' in Inner(path) then Slashed(Inner(path)) else Inner(path)) !in expected
  }

  /******* Synchronisation *******/

  predicate AllValid(files: seq<File>) {
    forall f <- files :: ValidPath(f.path)
  }

  function TrimEnd(line: string): string {
    if line != [] && line[|line| - 1] == '\r' then TrimEnd(line[..|line| - 1]) else line
  }

  // Removes what an earlier manifest lists and the new tree does not, up to a bad line.
  function Unlist(disk: Disk, lines: seq<string>, expected: set<string>): Outcome
    decreases |lines|
  {
    if lines == [] then Outcome(disk, None)
    else
      var line := TrimEnd(lines[0]);
      if line == "" || line in expected then Unlist(disk, lines[1..], expected)
      else if !ValidPath(line) then Outcome(disk, Some(InvalidGeneratedPath))
      else Unlist(disk.(files := disk.files - {ROOT + line}), lines[1..], expected)
  }

  function Reconciled(disk: Disk, expected: set<string>): Disk {
    if disk.generated then disk.(files := map p <- disk.files | !Stale(p, expected) :: disk.files[p]) else disk
  }

  function Store(disk: Disk, files: seq<File>): Disk {
    if files == [] then disk
    else
      var last := files[|files| - 1];
      var before := Store(disk, files[..|files| - 1]);
      Disk(before.files[last.path := last.contents], before.generated || Under(last.path))
  }

  predicate Owned(disk: Disk) {
    disk.generated ==> SENTINEL in disk.files && disk.files[SENTINEL] == STAMP
  }

  function Forget(disk: Disk, expected: set<string>): Outcome {
    if MANIFEST in disk.files then Unlist(disk, Split(disk.files[MANIFEST], '\n'), expected) else Outcome(disk, None)
  }

  function Write(disk: Disk, files: seq<File>): Outcome {
    if !AllValid(files) then Outcome(disk, Some(InvalidGeneratedPath))
    else if !Owned(disk) then Outcome(disk, Some(UnownedGeneratedDirectory))
    else
      var forgotten := Forget(disk, Expected(files));
      if forgotten.error.Some? then forgotten
      else Outcome(Store(Reconciled(forgotten.disk, Expected(files)), files), None)
  }

  predicate UpToDate(disk: Disk, files: seq<File>) {
    && (disk.generated ==> forall p <- disk.files :: !Stale(p, Expected(files)))
    && (forall f <- files :: f.path in disk.files && disk.files[f.path] == f.contents)
  }

  function Check(disk: Disk, files: seq<File>): Option<Error> {
    if !AllValid(files) then Some(InvalidGeneratedPath)
    else if UpToDate(disk, files) then None
    else Some(StaleBindings)
  }

  // A directory that is not there has nothing in it.
  ghost predicate Possible(disk: Disk) {
    !disk.generated ==> forall p <- disk.files :: !Under(p)
  }

  /******* What writing leaves *******/

  ghost predicate Generated(files: seq<File>, path: string) {
    exists f <- files :: f.path == path
  }

  // Two files of one path have one content.
  ghost predicate Consistent(files: seq<File>) {
    forall f <- files, g <- files | f.path == g.path :: f.contents == g.contents
  }

  // The lines that name a file to remove.
  ghost predicate Names(lines: seq<string>, expected: set<string>, path: string) {
    exists line <- lines :: TrimEnd(line) != "" && TrimEnd(line) !in expected && path == ROOT + TrimEnd(line)
  }

  ghost predicate LinesValid(lines: seq<string>, expected: set<string>) {
    forall line <- lines :: TrimEnd(line) == "" || TrimEnd(line) in expected || ValidPath(TrimEnd(line))
  }

  function OldLines(disk: Disk): seq<string> {
    if MANIFEST in disk.files then Split(disk.files[MANIFEST], '\n') else []
  }

  // The paths an earlier manifest names for removal.
  ghost predicate Listed(disk: Disk, files: seq<File>, path: string) {
    Names(OldLines(disk), Expected(files), path)
  }

  lemma GeneratedByLast(front: seq<File>, last: File, path: string)
    ensures Generated(front + [last], path) <==> Generated(front, path) || path == last.path
  {
    var files := front + [last];
    assert files[|front|] == last;
    if Generated(front, path) {
      var f :| f in front && f.path == path;
      assert f in files;
    }
  }

  lemma {:induction false} StoreIsExact(disk: Disk, files: seq<File>)
    ensures var r := Store(disk, files);
            && (forall p :: p in r.files <==> p in disk.files || Generated(files, p))
            && (forall p <- disk.files :: !Generated(files, p) ==> r.files[p] == disk.files[p])
            && (forall p <- r.files :: Generated(files, p) ==> File(p, r.files[p]) in files)
    decreases |files|
  {
    if files != [] {
      var front, last := files[..|files| - 1], files[|files| - 1];
      assert files == front + [last];
      StoreIsExact(disk, front);
      forall p ensures Generated(files, p) <==> Generated(front, p) || p == last.path {
        GeneratedByLast(front, last, p);
      }
      hide Generated, Under;
      assert forall f <- front :: f in files;
    }
  }

  lemma {:induction false} StoreMakesDirectory(disk: Disk, files: seq<File>)
    ensures Store(disk, files).generated <==> disk.generated || exists f <- files :: Under(f.path)
    decreases |files|
  {
    hide Under;
    if files != [] {
      var front, last := files[..|files| - 1], files[|files| - 1];
      assert files == front + [last];
      StoreMakesDirectory(disk, front);
    }
  }

  lemma {:induction false} UnlistIsExact(disk: Disk, lines: seq<string>, expected: set<string>)
    ensures var r := Unlist(disk, lines, expected);
            && r.disk.generated == disk.generated && r.disk.files.Keys <= disk.files.Keys
            && (forall p <- r.disk.files :: r.disk.files[p] == disk.files[p])
            && (forall p <- disk.files :: p !in r.disk.files ==> Names(lines, expected, p))
            && r.error == (if LinesValid(lines, expected) then None else Some(InvalidGeneratedPath))
            && (r.error.None? ==> forall p <- r.disk.files :: !Names(lines, expected, p))
    decreases |lines|
  {
    hide ValidPath, TrimEnd;
    if lines != [] {
      var line := TrimEnd(lines[0]);
      var d := if line == "" || line in expected then disk else disk.(files := disk.files - {ROOT + line});
      assert lines == [lines[0]] + lines[1..];
      UnlistIsExact(d, lines[1..], expected);
      forall p | Names(lines[1..], expected, p) ensures Names(lines, expected, p) {
        var other :| other in lines[1..] && TrimEnd(other) != "" && TrimEnd(other) !in expected && p == ROOT + TrimEnd(other);
        assert other in lines;
      }
      if line != "" && line !in expected {
        assert lines[0] in lines;
        assert Names(lines, expected, ROOT + line);
      }
    }
  }

  lemma ForgetIsExact(disk: Disk, files: seq<File>)
    ensures var r := Forget(disk, Expected(files));
            && r.disk.generated == disk.generated && r.disk.files.Keys <= disk.files.Keys
            && (forall p <- r.disk.files :: r.disk.files[p] == disk.files[p])
            && (forall p <- disk.files :: p !in r.disk.files ==> Listed(disk, files, p))
            && r.error == (if LinesValid(OldLines(disk), Expected(files)) then None else Some(InvalidGeneratedPath))
            && (r.error.None? ==> forall p <- r.disk.files :: !Listed(disk, files, p))
  {
    UnlistIsExact(disk, OldLines(disk), Expected(files));
  }

  /** The errors of writing, exactly: an invalid path to write, a directory without the
      stamp, or an invalid line in the old manifest. After the first two nothing has
      changed; after the third at most some of the files it lists are gone. */
  lemma WriteErrors(disk: Disk, files: seq<File>)
    ensures var r := Write(disk, files);
            && r.error == (if !AllValid(files) then Some(InvalidGeneratedPath)
                           else if !Owned(disk) then Some(UnownedGeneratedDirectory)
                           else if !LinesValid(OldLines(disk), Expected(files)) then Some(InvalidGeneratedPath)
                           else None)
            && (!AllValid(files) || !Owned(disk) ==> r.disk == disk)
            && (r.error.Some? ==> forall p ::
                  if p in r.disk.files then p in disk.files && r.disk.files[p] == disk.files[p]
                  else p in disk.files ==> Listed(disk, files, p))
  {
    ForgetIsExact(disk, files);
    hide Forget, AllValid, Owned, LinesValid, Listed;
  }

  /** What is on disk after writing: the generated files with their contents, and every
      other file that is not a managed stale one and not listed by the old manifest,
      as it was. */
  lemma WriteLeaves(disk: Disk, files: seq<File>)
    requires Write(disk, files).error.None? && Possible(disk)
    ensures var r := Write(disk, files).disk;
            && (forall p :: p in r.files <==>
                  || Generated(files, p)
                  || (p in disk.files && !Stale(p, Expected(files)) && !Listed(disk, files, p)))
            && (forall p <- r.files :: if Generated(files, p) then File(p, r.files[p]) in files else r.files[p] == disk.files[p])
            && (r.generated <==> disk.generated || exists f <- files :: Under(f.path))
  {
    ForgetIsExact(disk, files);
    hide Forget, Listed;
    var forgotten := Forget(disk, Expected(files)).disk;
    var reconciled := Reconciled(forgotten, Expected(files));
    StoreIsExact(reconciled, files);
    StoreMakesDirectory(reconciled, files);
    hide Store, AllValid, Owned, EndsWith;
    forall p | p in forgotten.files && !disk.generated ensures !Stale(p, Expected(files)) {
      assert !Under(p);
    }
  }

  // A valid path has no backslash, so it is its own slashed form.
  lemma ExpectedIsGenerated(files: seq<File>, path: string)
    requires AllValid(files) && Under(path) && path != SENTINEL && path != MANIFEST
    ensures Inner(path) in Expected(files) <==> Generated(files, path)
  {
    if Inner(path) in Expected(files) {
      var f :| f in files && Listable(f.path) && Inner(f.path) == Inner(path);
      assert f.path == ROOT + Inner(f.path);
      assert path == ROOT + Inner(path);
    }
  }

  lemma SlashedIsSame(s: string)
    requires '\\' !in s
    ensures Slashed(s) == s
  {
  }

  lemma GeneratedIsNotStale(files: seq<File>, path: string)
    requires AllValid(files) && Generated(files, path)
    ensures !Stale(path, Expected(files))
  {
    hide ValidPath;
    if Managed(path) {
      var f :| f in files && f.path == path;
      NoBackslash(path);
      SlashedIsSame(Inner(path));
      ManagedIsListable(path);
      assert f in files && Listable(f.path);
    }
  }

  lemma NoBackslash(path: string)
    requires ValidPath(path)
    ensures '\\' !in path && '\\' !in Inner(path)
  {
  }

  lemma ManagedIsListable(path: string)
    requires Managed(path)
    ensures Listable(path)
  {
    assert EndsWith(path, ZIG);
    assert SENTINEL[|SENTINEL| - 1] == 's';
    assert MANIFEST[|MANIFEST| - 1] == 't';
    assert path[|path| - 1] == path[|path| - 4..][3];
  }

  lemma StaleUnlessGenerated(files: seq<File>, path: string)
    requires AllValid(files) && Managed(path) && '\\' !in path
    ensures Stale(path, Expected(files)) <==> !Generated(files, path)
  {
    ManagedIsListable(path);
    ExpectedIsGenerated(files, path);
    SlashedIsSame(Inner(path));
  }

  /** After writing, the managed Zig files are exactly the generated ones (names with a
      backslash apart), with their contents. */
  lemma ManagedAreGenerated(disk: Disk, files: seq<File>, path: string)
    requires Write(disk, files).error.None? && Possible(disk) && Managed(path) && '\\' !in path
    ensures path in Write(disk, files).disk.files <==> Generated(files, path)
  {
    WriteLeaves(disk, files);
    hide Write, Listed, Managed;
    if AllValid(files) {
      StaleUnlessGenerated(files, path);
    }
  }

  // A manifest line with a backslash is an error, so none that is worked off names such a file.
  lemma BackslashIsNotListed(disk: Disk, files: seq<File>, path: string)
    requires Write(disk, files).error.None? && '\\' in path
    ensures !Listed(disk, files, path)
  {
    WriteErrors(disk, files);
    hide Write, ValidPath, TrimEnd, Expected;
    assert '\\' !in ROOT;
    if Listed(disk, files, path) {
      var line :| line in OldLines(disk) && TrimEnd(line) != "" && TrimEnd(line) !in Expected(files) &&
                  path == ROOT + TrimEnd(line);
      NoBackslash(TrimEnd(line));
    }
  }

  /** A file in a managed directory whose name has a backslash is taken for the file of a
      subdirectory: writing keeps it exactly when that file is generated, although it was
      not generated itself. */
  lemma BackslashSurvivesIff(disk: Disk, files: seq<File>, path: string)
    requires Write(disk, files).error.None? && Possible(disk) && Managed(path) && '\\' in path
    ensures !Generated(files, path)
    ensures path in Write(disk, files).disk.files <==>
            path in disk.files && Slashed(Inner(path)) in Expected(files)
  {
    WriteErrors(disk, files);
    hide Write, Listed, Expected;
    WriteLeaves(disk, files);
    BackslashIsNotListed(disk, files, path);
    forall f <- files ensures f.path != path {
      assert ValidPath(f.path);
    }
    hide ValidPath, AllValid;
    InnerKeepsBackslash(path);
    var inner := Inner(path);
    assert '/' in inner by {
      if StartsWith(inner, "classes/") {
        assert inner[7] == '/';
      } else {
        assert inner[6] == '/';
      }
    }
  }

  lemma InnerKeepsBackslash(path: string)
    requires Under(path) && '\\' in path
    ensures '\\' in Inner(path)
  {
    assert path == ROOT + Inner(path);
    assert '\\' !in ROOT;
  }

  lemma {:induction false} ValidJoin(part: string, path: string)
    requires '/' !in part && '\\' !in part && part != "" && part != "." && part != ".." && ValidPath(path)
    ensures ValidPath(part + ['/'] + path)
  {
    SplitPieces(part, path, '/');
    var joined := part + ['/'] + path;
    assert joined[0] == part[0];
  }

  lemma ValidName(part: string)
    requires '/' !in part && '\\' !in part && part != "" && part != "." && part != ".."
    ensures ValidPath(part)
  {
    SplitWhole(part, '/');
  }

  /** A concrete tree and disk where a file nobody generated survives writing, and checking
      finds nothing wrong. */
  lemma BackslashFileSurvives()
    ensures var file := File(ROOT + "classes/a/b.zig", "");
            var stray := ROOT + "classes/a\\b.zig";
            var disk := Disk(map[SENTINEL := STAMP, stray := ""], true);
            var r := Write(disk, [file]);
            r.error.None? && stray in r.disk.files && !Generated([file], stray) && Check(r.disk, [file]).None?
  {
    var inner, strayInner := "classes/a/b.zig", "classes/a\\b.zig";
    var file, stray := File(ROOT + inner, ""), ROOT + strayInner;
    var disk := Disk(map[SENTINEL := STAMP, stray := ""], true);
    SmallPaths(inner, strayInner);
    hide ValidPath, Managed, Slashed, Inner, Split, Listable;
    assert file in [file];
    assert inner in Expected([file]);
    assert MANIFEST !in disk.files by {
      assert |MANIFEST| == 30 && |SENTINEL| == 37 && |stray| == 33;
    }
    assert OldLines(disk) == [];
    BackslashSurvivesIff(disk, [file], stray);
    CheckAfterWrite(disk, [file]);
  }

  lemma SmallPaths(inner: string, stray: string)
    requires inner == "classes/a/b.zig" && stray == "classes/a\\b.zig"
    ensures ValidPath(ROOT + inner) && Listable(ROOT + inner) && Inner(ROOT + inner) == inner
    ensures Managed(ROOT + stray) && '\\' in ROOT + stray && Inner(ROOT + stray) == stray && Slashed(stray) == inner
  {
    SmallPathIsValid(inner);
    StrayIsManaged(stray);
    hide ValidPath, Managed;
    assert Under(ROOT + inner);
    assert |ROOT + inner| == 33 && |MANIFEST| == 30 && |SENTINEL| == 37;
  }

  lemma StrayIsManaged(stray: string)
    requires stray == "classes/a\\b.zig"
    ensures Managed(ROOT + stray) && '\\' in ROOT + stray && Inner(ROOT + stray) == stray
  {
    assert Under(ROOT + stray);
    assert stray[9] == '\\' && (ROOT + stray)[27] == '\\';
    assert stray[11..] == ZIG && stray[..8] == "classes/";
  }

  lemma SmallPathIsValid(inner: string)
    requires inner == "classes/a/b.zig"
    ensures ValidPath(ROOT + inner)
  {
    ValidName("b.zig");
    ValidJoin("a", "b.zig");
    var rest := "a" + ['/'] + "b.zig";
    assert rest == "a/b.zig";
    ValidJoin("classes", rest);
    assert inner == "classes" + ['/'] + rest;
    ValidJoin("generated_classes", inner);
    hide ValidPath;
    assert ROOT == "generated_classes" + ['/'];
  }

  lemma {:induction false} SplitWhole(x: string, c: char)
    requires c !in x
    ensures Split(x, c) == [x]
  {
    if x != [] {
      SplitWhole(x[1..], c);
      assert [x[0]] + x[1..] == x;
    }
  }

  lemma {:induction false} SplitPieces(x: string, y: string, c: char)
    requires c !in x
    ensures Split(x + [c] + y, c) == [x] + Split(y, c)
  {
    var s := x + [c] + y;
    if x == [] {
      assert s[1..] == y;
    } else {
      SplitPieces(x[1..], y, c);
      assert s[1..] == x[1..] + [c] + y;
      assert [x[0]] + x[1..] == x;
    }
  }

  /** Checking succeeds after writing, unless one path was generated twice with different
      contents. */
  lemma CheckAfterWrite(disk: Disk, files: seq<File>)
    requires Write(disk, files).error.None? && Possible(disk)
    ensures Check(Write(disk, files).disk, files).None? <==> Consistent(files)
  {
    WriteLeaves(disk, files);
    assert AllValid(files);
    var r := Write(disk, files).disk;
    hide Write, AllValid, Expected, Stale, Listed;
    forall p | p in r.files && Generated(files, p) ensures !Stale(p, Expected(files)) {
      GeneratedIsNotStale(files, p);
    }
    forall f <- files ensures Generated(files, f.path) && f.path in r.files && File(f.path, r.files[f.path]) in files {
    }
    if Consistent(files) {
      forall f <- files ensures r.files[f.path] == f.contents {
        var g := File(f.path, r.files[f.path]);
        assert g in files && g.path == f.path;
      }
    }
  }

  /******* Rendered trees *******/

  // The manifest of the other files of a tree.
  function ManifestText(parts: seq<File>): string {
    if parts == [] then ""
    else (if Listable(parts[0].path) then Inner(parts[0].path) + ['\n'] else "") + ManifestText(parts[1..])
  }

  // Names are lines: the rendered names end in ".zig" after an identifier.
  ghost predicate NamesAreLines(parts: seq<File>) {
    forall f <- parts | Listable(f.path) :: '\n' !in Inner(f.path) && TrimEnd(Inner(f.path)) == Inner(f.path)
  }

  // A tree as it is rendered: the stamp, any other files, and the manifest of them all,
  // in some order.
  ghost predicate Rendered(files: seq<File>, parts: seq<File>) {
    && File(SENTINEL, STAMP) in parts && NamesAreLines(parts)
    && (forall f :: f in files <==> f in parts || f == File(MANIFEST, ManifestText(parts)))
  }

  /** Lists the files of a tree, and leaves out the stamp. */
  method RenderManifest(parts: seq<File>) returns (text: string)
    requires forall f <- parts :: f.path != MANIFEST
    ensures text == ManifestText(parts)
  {
    text := "";
    for k := 0 to |parts|
      invariant text + ManifestText(parts[k..]) == ManifestText(parts)
    {
      assert parts[k..][1..] == parts[k + 1..];
      if !Under(parts[k].path) || parts[k].path == SENTINEL {
        assert text + ManifestText(parts[k..]) == text + ("" + ManifestText(parts[k + 1..]));
        continue;
      }
      ghost var line := Inner(parts[k].path) + ['\n'];
      assert text + ManifestText(parts[k..]) == text + (line + ManifestText(parts[k + 1..]));
      assert text + (line + ManifestText(parts[k + 1..])) == (text + line) + ManifestText(parts[k + 1..]);
      text := text + (Inner(parts[k].path) + ['\n']);
    }
  }

  // Reading a manifest gives back the names that were written, and an empty last line.
  function ManifestNames(parts: seq<File>): seq<string> {
    if parts == [] then []
    else (if Listable(parts[0].path) then [Inner(parts[0].path)] else []) + ManifestNames(parts[1..])
  }

  lemma {:induction false} ManifestReadBack(parts: seq<File>)
    requires NamesAreLines(parts)
    ensures Split(ManifestText(parts), '\n') == ManifestNames(parts) + [""]
  {
    hide Listable, TrimEnd;
    if parts != [] {
      assert parts[0] in parts;
      ManifestReadBack(parts[1..]);
      if Listable(parts[0].path) {
        SplitPieces(Inner(parts[0].path), ManifestText(parts[1..]), '\n');
        assert ManifestText(parts) == Inner(parts[0].path) + ['\n'] + ManifestText(parts[1..]);
      } else {
        assert ManifestText(parts) == ManifestText(parts[1..]);
      }
    }
  }

  lemma {:induction false} NamesAreExpected(parts: seq<File>)
    ensures forall name <- ManifestNames(parts) :: name in Expected(parts)
  {
    if parts != [] {
      NamesAreExpected(parts[1..]);
      forall name <- ManifestNames(parts) ensures name in Expected(parts) {
        if name in Expected(parts[1..]) {
          var f :| f in parts[1..] && Listable(f.path) && Inner(f.path) == name;
          assert f in parts;
        } else {
          assert parts[0] in parts;
        }
      }
    }
  }

  lemma {:induction false} UnlistNothing(disk: Disk, lines: seq<string>, expected: set<string>)
    requires forall line <- lines :: TrimEnd(line) == "" || TrimEnd(line) in expected
    ensures Unlist(disk, lines, expected) == Outcome(disk, None)
    decreases |lines|
  {
    hide TrimEnd, ValidPath;
    if lines != [] {
      assert lines[0] in lines;
      UnlistNothing(disk, lines[1..], expected);
    }
  }

  lemma {:induction false} StoreNothing(disk: Disk, files: seq<File>)
    requires forall f <- files :: f.path in disk.files && disk.files[f.path] == f.contents
    requires disk.generated
    ensures Store(disk, files) == disk
  {
    if files != [] {
      StoreNothing(disk, files[..|files| - 1]);
      assert disk.files[files[|files| - 1].path := files[|files| - 1].contents] == disk.files;
    }
  }

  lemma RenderedManifestIsQuiet(disk: Disk, files: seq<File>, parts: seq<File>)
    requires Rendered(files, parts) && UpToDate(disk, files)
    ensures Forget(disk, Expected(files)) == Outcome(disk, None)
  {
    hide Listable, Inner;
    var manifest := File(MANIFEST, ManifestText(parts));
    assert manifest in files;
    ManifestReadBack(parts);
    NamesAreExpected(parts);
    var lines := Split(ManifestText(parts), '\n');
    forall line <- lines ensures TrimEnd(line) == "" || TrimEnd(line) in Expected(files) {
      if line in ManifestNames(parts) {
        var f :| f in parts && Listable(f.path) && Inner(f.path) == line;
        assert f in files;
      }
    }
    UnlistNothing(disk, lines, Expected(files));
  }

  /** For a rendered tree with consistent contents, checking succeeds exactly when writing
      would change nothing. */
  lemma CheckMeansNothingToWrite(disk: Disk, files: seq<File>, parts: seq<File>)
    requires Rendered(files, parts) && Consistent(files) && Possible(disk)
    ensures Check(disk, files).None? <==> Write(disk, files) == Outcome(disk, None)
  {
    if Check(disk, files).None? {
      var stamp := File(SENTINEL, STAMP);
      assert stamp in files;
      assert Under(SENTINEL);
      RenderedManifestIsQuiet(disk, files, parts);
      hide Forget, AllValid, Rendered, Expected, Stale;
      StoreNothing(disk, files);
      assert Reconciled(disk, Expected(files)).files == disk.files;
    } else if Write(disk, files) == Outcome(disk, None) {
      CheckAfterWrite(disk, files);
    }
  }

  /******* The output directory *******/

  // The stale files that one of the three walks meets; `dir` is "" for the first.
  predicate StaleIn(dir: string, path: string, expected: set<string>) {
    var inner := Inner(path);
    && Under(path) && EndsWith(inner, ZIG)
    && (if dir == "" then '/' !in inner && '\\' !in inner && inner !in expected
        else StartsWith(inner, dir) && Slashed(inner) !in expected)
  }

  lemma StaleSomewhere(path: string, expected: set<string>)
    ensures Stale(path, expected) <==>
            StaleIn("", path, expected) || StaleIn("classes/", path, expected) || StaleIn("cycles/", path, expected)
  {
    hide Slashed, EndsWith;
    var inner := Inner(path);
    if StartsWith(inner, "classes/") {
      assert inner[7] == '/';
    }
    if StartsWith(inner, "cycles/") {
      assert inner[6] == '/';
    }
  }

  class Output {
    var files: map<string, string>
    var generated: bool

    function Contents(): Disk
      reads this
    {
      Disk(files, generated)
    }

    constructor (disk: Disk)
      ensures Contents() == disk
    {
      files, generated := disk.files, disk.generated;
    }

    method Sweep(dir: string, expected: set<string>, checking: bool) returns (clean: bool)
      modifies this`files
      ensures clean <==> !checking || forall p <- old(files) :: !StaleIn(dir, p, expected)
      ensures files == if checking then old(files)
                       else map p <- old(files) | !StaleIn(dir, p, expected) :: old(files)[p]
    {
      hide StaleIn;
      var left, stale := files.Keys, {};
      while left != {}
        invariant left <= files.Keys && files == old(files)
        invariant forall p :: p in stale <==> p in files && p !in left && StaleIn(dir, p, expected)
        invariant checking ==> stale == {}
        decreases |left|
      {
        var p :| p in left;
        left := left - {p};
        if StaleIn(dir, p, expected) {
          if checking {
            return false;
          }
          stale := stale + {p};
        }
      }
      if checking {
        forall p <- files ensures !StaleIn(dir, p, expected) {
          assert p !in stale;
        }
      }
      files := files - stale;
      return true;
    }

    /** Removes the stale Zig files, or only looks for one. */
    method ReconcileManagedFiles(expected: set<string>, checking: bool) returns (clean: bool)
      modifies this`files
      ensures checking ==> Contents() == old(Contents()) &&
                           (clean <==> generated ==> forall p <- files :: !Stale(p, expected))
      ensures !checking ==> clean && Contents() == Reconciled(old(Contents()), expected)
    {
      forall p ensures Stale(p, expected) <==>
                       StaleIn("", p, expected) || StaleIn("classes/", p, expected) || StaleIn("cycles/", p, expected) {
        StaleSomewhere(p, expected);
      }
      hide StaleIn, Stale;
      if !generated {
        return true;
      }
      clean := Sweep("", expected, checking);
      if !clean {
        return false;
      }
      clean := Sweep("classes/", expected, checking);
      if !clean {
        return false;
      }
      clean := Sweep("cycles/", expected, checking);
    }

    method RemoveUnlisted(lines: seq<string>, expected: set<string>) returns (error: Option<Error>)
      modifies this`files
      ensures Outcome(Contents(), error) == Unlist(old(Contents()), lines, expected)
    {
      hide ValidPath, TrimEnd;
      for k := 0 to |lines|
        invariant Unlist(Contents(), lines[k..], expected) == Unlist(old(Contents()), lines, expected)
      {
        assert lines[k..][1..] == lines[k + 1..];
        var line := TrimEnd(lines[k]);
        if line == "" || line in expected {
          continue;
        }
        if !ValidPath(line) {
          return Some(InvalidGeneratedPath);
        }
        files := files - {ROOT + line};
      }
      return None;
    }

    /** Writes a generated tree, or checks that the one on disk is the same. */
    method SyncTree(tree: seq<File>, checking: bool) returns (error: Option<Error>)
      modifies this
      ensures checking ==> Contents() == old(Contents()) && error == Check(old(Contents()), tree)
      ensures !checking ==> Outcome(Contents(), error) == Write(old(Contents()), tree)
    {
      hide ValidPath, Split, Stale, Unlist, Listable, Inner;
      var expected: set<string> := {};
      for k := 0 to |tree|
        invariant Contents() == old(Contents())
        invariant expected == Expected(tree[..k]) && AllValid(tree[..k])
      {
        assert tree[..k + 1] == tree[..k] + [tree[k]];
        if !ValidPath(tree[k].path) {
          assert tree[k] in tree;
          return Some(InvalidGeneratedPath);
        }
        if Listable(tree[k].path) {
          expected := expected + {Inner(tree[k].path)};
        }
      }
      assert tree[..|tree|] == tree;
      if !checking {
        if generated && !(SENTINEL in files && files[SENTINEL] == STAMP) {
          return Some(UnownedGeneratedDirectory);
        }
        if MANIFEST in files {
          error := RemoveUnlisted(Split(files[MANIFEST], '\n'), expected);
          if error.Some? {
            return;
          }
        }
      }
      var clean := ReconcileManagedFiles(expected, checking);
      if !clean {
        return Some(StaleBindings);
      }
      error := WriteOrCompare(tree, checking);
    }

    method WriteOrCompare(tree: seq<File>, checking: bool) returns (error: Option<Error>)
      modifies this
      ensures checking ==> Contents() == old(Contents())
      ensures checking ==> error == if forall f <- tree :: f.path in files && files[f.path] == f.contents
                                    then None else Some(StaleBindings)
      ensures !checking ==> error.None? && Contents() == Store(old(Contents()), tree)
    {
      hide Under;
      for k := 0 to |tree|
        invariant checking ==> Contents() == old(Contents())
        invariant checking ==> forall f <- tree[..k] :: f.path in files && files[f.path] == f.contents
        invariant !checking ==> Contents() == Store(old(Contents()), tree[..k])
      {
        assert tree[..k + 1] == tree[..k] + [tree[k]] && tree[..k + 1][..k] == tree[..k];
        var file := tree[k];
        if checking {
          if !(file.path in files && files[file.path] == file.contents) {
            assert file in tree;
            return Some(StaleBindings);
          }
        } else {
          files := files[file.path := file.contents];
          generated := generated || Under(file.path);
        }
      }
      assert tree[..|tree|] == tree;
      return None;
    }
  }
}
