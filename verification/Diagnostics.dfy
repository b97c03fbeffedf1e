/** Diagnostics, their display order, and the normal form of a batch. */
module Diagnostics {
  type Word = x: nat | x < 0x1_0000_0000

  datatype Position = Position(line: Word, column: Word)

  datatype Severity = Error | Warning | Information | Hint

  datatype Source = Zls | ZigCompiler | GzScript

  datatype Diagnostic = Diagnostic(
    path: string, start: Position, end: Position, severity: Severity,
    kind: Source, name: string, message: string, code: string)

  /******* The order *******/

  predicate PositionLess(a: Position, b: Position) {
    if a.line != b.line then a.line < b.line else a.column < b.column
  }

  function Rank(severity: Severity): nat {
    match severity case Error => 0 case Warning => 1 case Information => 2 case Hint => 3
  }

  function Ordinal(source: Source): nat {
    match source case Zls => 0 case ZigCompiler => 1 case GzScript => 2
  }

  // The order of std::string.
  predicate StringLess(a: string, b: string) {
    if b == "" then false
    else if a == "" then true
    else if a[0] != b[0] then a[0] < b[0]
    else StringLess(a[1..], b[1..])
  }

  predicate Less(a: Diagnostic, b: Diagnostic) {
    if a.start != b.start then PositionLess(a.start, b.start)
    else if a.severity != b.severity then Rank(a.severity) < Rank(b.severity)
    else if a.kind != b.kind then Ordinal(a.kind) < Ordinal(b.kind)
    else if a.message != b.message then StringLess(a.message, b.message)
    else if a.code != b.code then StringLess(a.code, b.code)
    else if a.name != b.name then StringLess(a.name, b.name)
    else StringLess(a.path, b.path)
  }

  predicate Tied(a: Diagnostic, b: Diagnostic) {
    !Less(a, b) && !Less(b, a)
  }

  lemma {:induction false} StringTrichotomy(a: string, b: string)
    ensures StringLess(a, b) || StringLess(b, a) || a == b
    ensures !(StringLess(a, b) && StringLess(b, a))
    ensures a == b ==> !StringLess(a, b)
  {
    if a != "" && b != "" {
      StringTrichotomy(a[1..], b[1..]);
      assert a == [a[0]] + a[1..] && b == [b[0]] + b[1..];
    }
  }

  lemma {:induction false} StringTransitive(a: string, b: string, c: string)
    requires StringLess(a, b) && StringLess(b, c)
    ensures StringLess(a, c)
  {
    if a != "" && a[0] == b[0] == c[0] {
      StringTransitive(a[1..], b[1..], c[1..]);
    }
  }

  /** Ties are exactly equality apart from the end of the range. */
  lemma TiesDifferOnlyInEnd(a: Diagnostic, b: Diagnostic)
    ensures Tied(a, b) <==> a.(end := b.end) == b
    ensures !(Less(a, b) && Less(b, a)) && !Less(a, a)
  {
    StringTrichotomy(a.message, b.message);
    StringTrichotomy(a.code, b.code);
    StringTrichotomy(a.name, b.name);
    StringTrichotomy(a.path, b.path);
    StringTrichotomy(a.path, a.path);
  }

  lemma StringTransitivity(a: string, b: string, c: string)
    ensures StringLess(a, b) && StringLess(b, c) ==> StringLess(a, c)
    ensures StringLess(a, b) ==> a != b
  {
    StringTrichotomy(a, b);
    if StringLess(a, b) && StringLess(b, c) {
      StringTransitive(a, b, c);
    }
  }

  lemma LessTransitive(a: Diagnostic, b: Diagnostic, c: Diagnostic)
    requires Less(a, b) && Less(b, c)
    ensures Less(a, c)
  {
    StringTransitivity(a.message, b.message, c.message);
    StringTransitivity(a.code, b.code, c.code);
    StringTransitivity(a.name, b.name, c.name);
    StringTransitivity(a.path, b.path, c.path);
    TiesDifferOnlyInEnd(a, b);
    TiesDifferOnlyInEnd(b, c);
    TiesDifferOnlyInEnd(a, c);
    StringTrichotomy(a.message, c.message);
    StringTrichotomy(a.code, c.code);
    StringTrichotomy(a.name, c.name);
  }

  /** A strict weak order: irreflexive, transitive, and being tied is transitive too. */
  lemma StrictWeakOrder(a: Diagnostic, b: Diagnostic, c: Diagnostic)
    ensures !Less(a, a)
    ensures Less(a, b) && Less(b, c) ==> Less(a, c)
    ensures Tied(a, b) && Tied(b, c) ==> Tied(a, c)
    ensures Less(a, b) && Tied(b, c) ==> Less(a, c)
    ensures Tied(a, b) && Less(b, c) ==> Less(a, c)
  {
    hide Less;
    TiesDifferOnlyInEnd(a, b);
    TiesDifferOnlyInEnd(b, c);
    TiesDifferOnlyInEnd(a, c);
    TiesDifferOnlyInEnd(a, a);
    if Less(a, b) && Less(b, c) {
      LessTransitive(a, b, c);
    }
    EndIsIgnored(a, b, c);
  }

  lemma EndIsIgnored(a: Diagnostic, b: Diagnostic, c: Diagnostic)
    ensures a.(end := b.end) == b ==> Less(a, c) == Less(b, c) && Less(c, a) == Less(c, b)
    ensures b.(end := c.end) == c ==> Less(a, b) == Less(a, c)
  {
  }

  // The texts agree up to `k`, where the first ends or has the smaller character.
  predicate DiffersAt(a: string, b: string, k: nat) {
    && k <= |a| && k < |b| && a[..k] == b[..k] && (k < |a| ==> a[k] < b[k])
  }

  /** Texts are in the order of their first difference, a beginning before its continuations. */
  lemma {:induction false} StringLessIff(a: string, b: string)
    ensures StringLess(a, b) <==> exists k: nat :: DiffersAt(a, b, k)
  {
    forall k: nat | k > 0 && DiffersAt(a, b, k) ensures a != "" && b != "" && a[0] == b[0] {
      assert a[..k][0] == b[..k][0];
    }
    if a == "" || b == "" || a[0] != b[0] {
      if b != "" && (a == "" || a[0] < b[0]) {
        assert DiffersAt(a, b, 0);
      }
    } else {
      StringLessIff(a[1..], b[1..]);
      forall k: nat ensures DiffersAt(a[1..], b[1..], k) <==> DiffersAt(a, b, k + 1) {
        if k < |a| && k + 1 < |b| {
          assert a[..k + 1] == [a[0]] + a[1..][..k] && b[..k + 1] == [b[0]] + b[1..][..k];
          assert a[..k + 1][1..] == a[1..][..k] && b[..k + 1][1..] == b[1..][..k];
        }
      }
      if k: nat :| DiffersAt(a, b, k) {
        assert k > 0;
        assert DiffersAt(a[1..], b[1..], k - 1);
      }
    }
  }

  predicate MoreSevere(a: Severity, b: Severity) {
    match a
    case Error => !b.Error?
    case Warning => b.Information? || b.Hint?
    case Information => b.Hint?
    case Hint => false
  }

  predicate EarlierSource(a: Source, b: Source) {
    (a.Zls? && !b.Zls?) || (a.ZigCompiler? && b.GzScript?)
  }

  ghost predicate TextBefore(a: string, b: string) {
    exists k: nat :: DiffersAt(a, b, k)
  }

  /** The order of what a user sees: by line and column, then the more severe, then by source,
      message, code, producer and document, each where all before it agree. */
  lemma LessIff(a: Diagnostic, b: Diagnostic)
    ensures Less(a, b) <==>
            || a.start.line < b.start.line
            || (a.start.line == b.start.line && a.start.column < b.start.column)
            || (a.start == b.start && MoreSevere(a.severity, b.severity))
            || (a.start == b.start && a.severity == b.severity && EarlierSource(a.kind, b.kind))
            || (a.start == b.start && a.severity == b.severity && a.kind == b.kind &&
                (|| TextBefore(a.message, b.message)
                 || (a.message == b.message && TextBefore(a.code, b.code))
                 || (a.message == b.message && a.code == b.code && TextBefore(a.name, b.name))
                 || (a.message == b.message && a.code == b.code && a.name == b.name && TextBefore(a.path, b.path))))
  {
    StringLessIff(a.message, b.message);
    StringLessIff(a.code, b.code);
    StringLessIff(a.name, b.name);
    StringLessIff(a.path, b.path);
    hide StringLess, DiffersAt;
    SameTextIsNotBefore(a.message, b.message);
    SameTextIsNotBefore(a.code, b.code);
    SameTextIsNotBefore(a.name, b.name);
  }

  lemma SameTextIsNotBefore(a: string, b: string)
    ensures a == b ==> !TextBefore(a, b)
  {
  }

  /******* Sorting *******/

  ghost predicate Sorted(s: seq<Diagnostic>) {
    forall i: nat, j: nat | i < j < |s| :: !Less(s[j], s[i])
  }

  // Goes before the first entry that is not smaller.
  function Insert(x: Diagnostic, s: seq<Diagnostic>): seq<Diagnostic> {
    if s == [] || !Less(s[0], x) then [x] + s else [s[0]] + Insert(x, s[1..])
  }

  function SortOf(s: seq<Diagnostic>): seq<Diagnostic> {
    if s == [] then [] else Insert(s[0], SortOf(s[1..]))
  }

  function TiesWith(x: Diagnostic, s: seq<Diagnostic>): seq<Diagnostic> {
    if s == [] then [] else (if Tied(x, s[0]) then [s[0]] else []) + TiesWith(x, s[1..])
  }

  lemma NotLessTransitive(a: Diagnostic, b: Diagnostic, c: Diagnostic)
    ensures Less(c, a) ==> Less(c, b) || Less(b, a)
  {
    hide Less;
    StrictWeakOrder(c, a, b);
  }

  lemma {:induction false} InsertSorts(x: Diagnostic, s: seq<Diagnostic>)
    requires Sorted(s)
    ensures Sorted(Insert(x, s)) && multiset(Insert(x, s)) == multiset(s) + multiset{x}
  {
    hide Less;
    if s == [] || !Less(s[0], x) {
      forall j: nat | j < |s|
        ensures !Less(s[j], x)
      {
        NotLessTransitive(x, s[0], s[j]);
        TiesDifferOnlyInEnd(s[0], s[0]);
      }
    } else {
      var rest, inserted := s[1..], Insert(x, s[1..]);
      InsertSorts(x, rest);
      assert s == [s[0]] + rest;
      forall j: nat | j < |inserted|
        ensures !Less(inserted[j], s[0])
      {
        assert inserted[j] in multiset(inserted);
        assert inserted[j] != x ==> inserted[j] in rest;
        TiesDifferOnlyInEnd(s[0], x);
      }
    }
  }

  lemma {:induction false} InsertIsStable(x: Diagnostic, s: seq<Diagnostic>, d: Diagnostic)
    ensures TiesWith(d, Insert(x, s)) == TiesWith(d, [x] + s)
  {
    hide Less;
    assert ([x] + s)[1..] == s;
    if s != [] && Less(s[0], x) {
      InsertIsStable(x, s[1..], d);
      assert ([x] + s[1..])[1..] == s[1..];
      assert Insert(x, s)[1..] == Insert(x, s[1..]);
      TiesDifferOnlyInEnd(d, x);
      TiesDifferOnlyInEnd(d, s[0]);
      TiesDifferOnlyInEnd(s[0], x);
    }
  }

  /** Sorting keeps every entry and the order among tied entries. */
  lemma {:induction false} SortIsStable(s: seq<Diagnostic>)
    ensures Sorted(SortOf(s)) && multiset(SortOf(s)) == multiset(s)
    ensures forall d :: TiesWith(d, SortOf(s)) == TiesWith(d, s)
  {
    hide Less;
    if s != [] {
      SortIsStable(s[1..]);
      InsertSorts(s[0], SortOf(s[1..]));
      assert s == [s[0]] + s[1..];
      forall d
        ensures TiesWith(d, SortOf(s)) == TiesWith(d, s)
      {
        InsertIsStable(s[0], SortOf(s[1..]), d);
        assert ([s[0]] + SortOf(s[1..]))[1..] == SortOf(s[1..]);
      }
    }
  }

  /******* The normal form of a batch *******/

  function SourceName(source: Source): string {
    match source case Zls => "zls" case ZigCompiler => "zig" case GzScript => "gzscript"
  }

  // Line and column of a position in one number.
  function Packed(p: Position): nat {
    p.line * 0x1_0000_0000 + p.column
  }

  // The key of the document, a range that does not run backwards, a name for the producer.
  function Cleaned(d: Diagnostic, key: string): Diagnostic {
    Diagnostic(key, d.start, if Packed(d.end) < Packed(d.start) then d.start else d.end, d.severity, d.kind,
               if d.name == "" then SourceName(d.kind) else d.name, d.message, d.code)
  }

  // No later than, by line and then by column.
  predicate NoLater(a: Position, b: Position) {
    a.line < b.line || (a.line == b.line && a.column <= b.column)
  }

  /** Cleaning puts an entry under the key of its document and names its producer, turns a range
      that runs backwards into its start, and leaves the rest as it was. */
  lemma CleanedEntry(d: Diagnostic, key: string)
    ensures var r := Cleaned(d, key);
            && r.path == key && NoLater(r.start, r.end)
            && (NoLater(d.start, d.end) ==> r.end == d.end) && (!NoLater(d.start, d.end) ==> r.end == d.start)
            && r.name != "" && (d.name != "" ==> r.name == d.name)
            && r == d.(path := key, end := r.end, name := r.name)
  {
    PackedOrder(d.start, d.end);
  }

  lemma PackedOrder(a: Position, b: Position)
    ensures Packed(a) <= Packed(b) <==> NoLater(a, b)
  {
    if a.line < b.line {
      assert Packed(b) >= (a.line + 1) * 0x1_0000_0000;
    } else if b.line < a.line {
      assert Packed(a) >= (b.line + 1) * 0x1_0000_0000;
    }
  }

  function CleanedAll(batch: seq<Diagnostic>, key: string): seq<Diagnostic> {
    seq(|batch|, k requires 0 <= k < |batch| => Cleaned(batch[k], key))
  }

  function Backwards(batch: seq<Diagnostic>): nat {
    if batch == [] then 0
    else Backwards(batch[..|batch| - 1]) + if Packed(batch[|batch| - 1].end) < Packed(batch[|batch| - 1].start) then 1 else 0
  }

  // The entries whose range runs backwards.
  function Turned(batch: seq<Diagnostic>): set<nat> {
    set k: nat | k < |batch| && !NoLater(batch[k].start, batch[k].end)
  }

  lemma TurnedNext(batch: seq<Diagnostic>)
    requires batch != []
    ensures var n := |batch| - 1;
            && n !in Turned(batch[..n])
            && Turned(batch) == Turned(batch[..n]) + if NoLater(batch[n].start, batch[n].end) then {} else {n}
  {
    hide NoLater;
  }

  /** The count of ranges put right is the number of entries that run backwards. */
  lemma {:induction false} BackwardsAreTurned(batch: seq<Diagnostic>)
    ensures Backwards(batch) == |Turned(batch)|
  {
    if batch != [] {
      var n := |batch| - 1;
      var before, last := batch[..n], batch[n];
      hide Packed, NoLater, Turned;
      BackwardsAreTurned(before);
      PackedOrder(last.start, last.end);
      TurnedNext(batch);
    } else {
      assert Turned(batch) == {};
    }
  }

  // Drops every entry that equals its predecessor.
  function Unique(s: seq<Diagnostic>): seq<Diagnostic> {
    if |s| <= 1 then s else (if s[0] == s[1] then [] else [s[0]]) + Unique(s[1..])
  }

  // What sorting in any order allowed among tied entries, then dropping repeats, can give.
  ghost predicate IsNormal(cleaned: seq<Diagnostic>, r: seq<Diagnostic>) {
    exists s :: Sorted(s) && multiset(s) == multiset(cleaned) && r == Unique(s)
  }

  method InsertSort(s: seq<Diagnostic>) returns (r: seq<Diagnostic>)
    ensures r == SortOf(s)
  {
    r := [];
    var k := |s|;
    while k > 0
      invariant 0 <= k <= |s| && r == SortOf(s[k..])
    {
      k := k - 1;
      assert s[k..][1..] == s[k + 1..];
      r := Insert(s[k], r);
    }
    assert s[0..] == s;
  }

  lemma UniqueFrom(s: seq<Diagnostic>, k: nat)
    requires k <= |s|
    ensures Unique(s[k..]) == if k == |s| then []
                              else (if k + 1 < |s| && s[k] == s[k + 1] then [] else [s[k]]) + Unique(s[k + 1..])
  {
    if k < |s| {
      assert s[k..][1..] == s[k + 1..];
      if k + 1 == |s| {
        assert s[k..] == [s[k]] && s[k + 1..] == [];
      }
    }
  }

  method EraseRepeats(s: seq<Diagnostic>) returns (r: seq<Diagnostic>)
    ensures r == Unique(s)
  {
    hide Unique;
    r := [];
    var k := |s|;
    UniqueFrom(s, k);
    while k > 0
      invariant 0 <= k <= |s| && r == Unique(s[k..])
    {
      k := k - 1;
      UniqueFrom(s, k);
      if k + 1 == |s| || s[k] != s[k + 1] {
        r := [s[k]] + r;
      }
    }
    assert s[0..] == s;
  }

  method CleanAll(batch: seq<Diagnostic>, key: string) returns (cleaned: seq<Diagnostic>, normalized: nat)
    ensures cleaned == CleanedAll(batch, key) && normalized == Backwards(batch)
  {
    hide Cleaned, Packed;
    cleaned, normalized := [], 0;
    for k := 0 to |batch|
      invariant |cleaned| == k && forall j: nat | j < k :: cleaned[j] == Cleaned(batch[j], key)
      invariant normalized == Backwards(batch[..k])
    {
      assert batch[..k + 1][..k] == batch[..k];
      if Packed(batch[k].end) < Packed(batch[k].start) {
        normalized := normalized + 1;
      }
      cleaned := cleaned + [Cleaned(batch[k], key)];
    }
    assert batch[..|batch|] == batch;
  }

  /** Clean, sort, drop repeats. */
  method NormalizeBatch(batch: seq<Diagnostic>, key: string) returns (r: seq<Diagnostic>, normalized: nat)
    ensures IsNormal(CleanedAll(batch, key), r) && normalized == Backwards(batch)
  {
    hide Cleaned, CleanedAll, Unique, SortOf;
    var cleaned;
    cleaned, normalized := CleanAll(batch, key);
    var sorted := InsertSort(cleaned);
    SortIsStable(cleaned);
    r := EraseRepeats(sorted);
  }

  ghost predicate NoRepeats(s: seq<Diagnostic>) {
    forall i: nat, j: nat | i < j < |s| :: s[i] != s[j]
  }

  // No two entries differ only in the end of their range.
  ghost predicate EndsMatter(s: seq<Diagnostic>) {
    forall x <- s, y <- s :: Tied(x, y) ==> x == y
  }

  lemma {:induction false} UniqueKeepsEntries(s: seq<Diagnostic>)
    requires Sorted(s)
    ensures Sorted(Unique(s)) && forall d :: d in Unique(s) <==> d in s
    ensures s != [] ==> Unique(s) != [] && Unique(s)[0] == s[0]
  {
    hide Less;
    if |s| > 1 {
      var rest := s[1..];
      UniqueKeepsEntries(rest);
      assert s == [s[0]] + rest;
      forall j: nat | j < |Unique(rest)|
        ensures !Less(Unique(rest)[j], s[0])
      {
        assert Unique(rest)[j] in rest;
      }
    }
  }

  lemma CleanedEntries(batch: seq<Diagnostic>, key: string, d: Diagnostic)
    ensures d in CleanedAll(batch, key) <==> exists k: nat :: k < |batch| && d == Cleaned(batch[k], key)
  {
    hide Cleaned;
    if k: nat :| k < |batch| && d == Cleaned(batch[k], key) {
      assert CleanedAll(batch, key)[k] == d;
    }
  }

  lemma CleanedIsClean(d: Diagnostic, key: string)
    ensures var r := Cleaned(d, key); r.path == key && r.name != "" && !PositionLess(r.end, r.start)
  {
  }

  /** A normal batch is sorted, has the same entries, and no range runs backwards. */
  lemma NormalBatch(batch: seq<Diagnostic>, key: string, r: seq<Diagnostic>)
    requires IsNormal(CleanedAll(batch, key), r)
    ensures Sorted(r)
    ensures forall d :: d in r <==> exists k: nat :: k < |batch| && d == Cleaned(batch[k], key)
    ensures forall d <- r :: d.path == key && d.name != "" && !PositionLess(d.end, d.start)
  {
    hide Less, Sorted, Unique, CleanedAll, Cleaned, PositionLess;
    var cleaned := CleanedAll(batch, key);
    var s :| Sorted(s) && multiset(s) == multiset(cleaned) && r == Unique(s);
    UniqueKeepsEntries(s);
    forall d
      ensures d in r <==> exists k: nat :: k < |batch| && d == Cleaned(batch[k], key)
    {
      assert d in r <==> d in multiset(s);
      assert d in multiset(cleaned) <==> d in cleaned;
      CleanedEntries(batch, key, d);
    }
    forall d <- r
      ensures d.path == key && d.name != "" && !PositionLess(d.end, d.start)
    {
      var k: nat :| k < |batch| && d == Cleaned(batch[k], key);
      CleanedIsClean(batch[k], key);
    }
  }

  ghost predicate SameEntries(a: seq<Diagnostic>, b: seq<Diagnostic>) {
    forall d :: d in a <==> d in b
  }

  // A repeated entry has no tied entry beside it.
  ghost predicate RepeatsStandAlone(s: seq<Diagnostic>) {
    forall x <- s, y <- s :: Tied(x, y) && multiset(s)[x] >= 2 ==> x == y
  }

  lemma HeadComesOnce(s: seq<Diagnostic>)
    requires Sorted(s) && |s| > 1 && !Tied(s[0], s[1])
    ensures s[0] !in s[1..]
  {
    hide Less;
    forall j: nat | 0 < j < |s|
      ensures s[j] != s[0]
    {
      TiesDifferOnlyInEnd(s[0], s[0]);
      assert j > 1 ==> !Less(s[j], s[1]);
    }
  }

  lemma {:induction false} UniqueHasNoRepeats(s: seq<Diagnostic>)
    requires Sorted(s) && RepeatsStandAlone(s)
    ensures NoRepeats(Unique(s))
  {
    hide Less, Tied;
    if |s| > 1 {
      var rest := s[1..];
      assert s == [s[0]] + rest;
      assert multiset(s) == multiset{s[0]} + multiset(rest);
      assert RepeatsStandAlone(rest);
      UniqueHasNoRepeats(rest);
      UniqueKeepsEntries(rest);
      if s[0] != s[1] && s[0] in rest {
        assert multiset(s)[s[0]] >= 2;
        HeadComesOnce(s);
      }
    }
  }

  function UniqueHead(s: seq<Diagnostic>): seq<Diagnostic>
    requires |s| > 1
  {
    if s[0] == s[1] then [] else [s[0]]
  }

  lemma UniqueNext(s: seq<Diagnostic>)
    requires |s| > 1
    ensures Unique(s) == UniqueHead(s) + Unique(s[1..])
  {
  }

  lemma UniqueOne(x: Diagnostic, b: seq<Diagnostic>)
    requires b != [] && x != b[0]
    ensures Unique([x] + b) == Unique([x]) + Unique(b)
  {
    assert ([x] + b)[1..] == b;
    UniqueNext([x] + b);
  }

  lemma {:induction false} UniqueSplits(a: seq<Diagnostic>, b: seq<Diagnostic>)
    requires a != [] && b != [] && a[|a| - 1] != b[0]
    ensures Unique(a + b) == Unique(a) + Unique(b)
  {
    hide Unique;
    if |a| == 1 {
      assert a == [a[0]];
      UniqueOne(a[0], b);
    } else {
      UniqueSplits(a[1..], b);
      UniqueNext(a);
      UniqueNext(a + b);
      assert (a + b)[1..] == a[1..] + b && UniqueHead(a + b) == UniqueHead(a);
      var head, more, rest := UniqueHead(a), Unique(a[1..]), Unique(b);
      assert head + (more + rest) == (head + more) + rest;
    }
  }

  lemma {:induction false} UniqueHolds(s: seq<Diagnostic>, d: Diagnostic)
    requires d in s
    ensures d in Unique(s)
  {
    if |s| > 1 && (d != s[0] || s[0] == s[1]) {
      assert d in s[1..];
      UniqueHolds(s[1..], d);
    }
  }

  function Sandwich(a: seq<Diagnostic>, x: Diagnostic, y: Diagnostic, b: seq<Diagnostic>): seq<Diagnostic> {
    a + ([x] + ([y] + ([x] + b)))
  }

  lemma TwoCopies(p: seq<Diagnostic>, q: seq<Diagnostic>, r: seq<Diagnostic>, x: Diagnostic)
    requires x in p && x in r
    ensures !NoRepeats(p + (q + r))
  {
    var i: nat :| i < |p| && p[i] == x;
    var j: nat :| j < |r| && r[j] == x;
    var all := p + (q + r);
    assert all[i] == x && all[|p| + |q| + j] == x;
  }

  // Two equal entries with another between them survive.
  lemma SandwichRepeats(a: seq<Diagnostic>, x: Diagnostic, y: Diagnostic, b: seq<Diagnostic>)
    requires x != y
    ensures !NoRepeats(Unique(Sandwich(a, x, y, b)))
  {
    hide Unique, NoRepeats;
    var front, back := a + [x], [x] + b;
    UniqueSplits([y], back);
    UniqueSplits(front, [y] + back);
    assert Sandwich(a, x, y, b) == front + ([y] + back);
    UniqueHolds(front, x);
    UniqueHolds(back, x);
    TwoCopies(Unique(front), Unique([y]), Unique(back), x);
  }

  lemma {:induction false} InsertBetween(x: Diagnostic, a: seq<Diagnostic>, b: seq<Diagnostic>)
    requires (forall d <- a :: Less(d, x)) && (b != [] ==> !Less(b[0], x))
    ensures Insert(x, a + b) == a + [x] + b
  {
    hide Less;
    if a == [] {
      assert a + b == b;
    } else {
      assert a[0] in a;
      InsertBetween(x, a[1..], b);
      assert (a + b)[1..] == a[1..] + b;
      assert a + [x] + b == [a[0]] + (a[1..] + [x] + b);
    }
  }

  function Below(x: Diagnostic, s: seq<Diagnostic>): (k: nat)
    ensures k <= |s| && (forall d <- s[..k] :: Less(d, x)) && (k < |s| ==> !Less(s[k], x))
  {
    if s == [] || !Less(s[0], x) then 0
    else
      assert s[..Below(x, s[1..]) + 1] == [s[0]] + s[1..][..Below(x, s[1..])];
      Below(x, s[1..]) + 1
  }

  function Without(s: seq<Diagnostic>, x: Diagnostic): (r: seq<Diagnostic>)
    requires x in s
    ensures multiset(r) == multiset(s) - multiset{x}
  {
    assert s == [s[0]] + s[1..];
    if s[0] == x then s[1..] else [s[0]] + Without(s[1..], x)
  }

  lemma RemoveThree(s: seq<Diagnostic>, x: Diagnostic, y: Diagnostic) returns (others: seq<Diagnostic>)
    requires x != y && multiset(s)[x] >= 2 && y in s
    ensures multiset(s) == multiset(others) + multiset{x, y, x}
  {
    assert x in multiset(s) && x in s;
    var first := Without(s, x);
    assert x in multiset(first) && x in first;
    var second := Without(first, x);
    assert y in multiset(second) && y in second;
    others := Without(second, y);
    ThreeBack(multiset(s), x, y);
  }

  lemma ThreeBack(all: multiset<Diagnostic>, x: Diagnostic, y: Diagnostic)
    requires x != y && all[x] >= 2 && all[y] >= 1
    ensures all == all - multiset{x} - multiset{x} - multiset{y} + multiset{x, y, x}
  {
  }

  // Inserting tied entries piles them up in front of their ties.
  lemma SandwichSort(a: seq<Diagnostic>, x: Diagnostic, y: Diagnostic, b: seq<Diagnostic>)
    requires Sorted(a + b) && Tied(x, y)
    requires (forall d <- a :: Less(d, x)) && (b != [] ==> !Less(b[0], x))
    ensures Sorted(Sandwich(a, x, y, b)) && multiset(Sandwich(a, x, y, b)) == multiset(a + b) + multiset{x, y, x}
  {
    hide Less, Sorted;
    forall d <- a
      ensures Less(d, y)
    {
      StrictWeakOrder(d, x, y);
    }
    var once := [x] + b;
    var twice := [y] + once;
    InsertOne(x, a, b);
    InsertOne(y, a, once);
    InsertOne(x, a, twice);
  }

  lemma InsertOne(x: Diagnostic, a: seq<Diagnostic>, b: seq<Diagnostic>)
    requires Sorted(a + b) && (forall d <- a :: Less(d, x)) && (b != [] ==> !Less(b[0], x))
    ensures Sorted(a + ([x] + b)) && multiset(a + ([x] + b)) == multiset(a + b) + multiset{x}
  {
    hide Less, Insert;
    InsertBetween(x, a, b);
    InsertSorts(x, a + b);
    assert a + [x] + b == a + ([x] + b);
  }

  // If a repeated entry has another tied to it, some sort leaves the repeat in place.
  lemma MixedTiesKeepRepeats(cleaned: seq<Diagnostic>, x: Diagnostic, y: Diagnostic)
    requires Tied(x, y) && x != y && multiset(cleaned)[x] >= 2 && y in cleaned
    ensures exists r :: IsNormal(cleaned, r) && !NoRepeats(r)
  {
    hide Less, Insert, Unique, SortOf, Sandwich;
    var others := RemoveThree(cleaned, x, y);
    SortIsStable(others);
    var t := SortOf(others);
    var a, b := t[..Below(x, t)], t[Below(x, t)..];
    assert t == a + b;
    SandwichSort(a, x, y, b);
    SandwichRepeats(a, x, y, b);
    assert IsNormal(cleaned, Unique(Sandwich(a, x, y, b)));
  }

  /** Sorting and dropping equal neighbours is sure to remove all repeats iff no
      repeated entry is tied with a different one. */
  lemma RepeatsRemovedIff(cleaned: seq<Diagnostic>)
    ensures (forall r | IsNormal(cleaned, r) :: NoRepeats(r)) <==> RepeatsStandAlone(cleaned)
  {
    hide Tied, Unique;
    if RepeatsStandAlone(cleaned) {
      forall r | IsNormal(cleaned, r)
        ensures NoRepeats(r)
      {
        var s :| Sorted(s) && multiset(s) == multiset(cleaned) && r == Unique(s);
        assert forall d :: d in s <==> d in multiset(s);
        assert forall d :: d in cleaned <==> d in multiset(cleaned);
        UniqueHasNoRepeats(s);
      }
    } else {
      var x, y :| x in cleaned && y in cleaned && Tied(x, y) && multiset(cleaned)[x] >= 2 && x != y;
      MixedTiesKeepRepeats(cleaned, x, y);
    }
  }

  lemma AlternationStays(x: Diagnostic, y: Diagnostic)
    requires Tied(x, y) && x != y
    ensures var s := [x, y, x]; IsNormal(s, s) && !NoRepeats(s) && !EndsMatter(s)
  {
    var s := [x, y, x];
    TiesDifferOnlyInEnd(x, x);
    hide Less;
    assert Sorted(s);
    UniqueNext(s);
    UniqueNext([y, x]);
    assert s[1..] == [y, x] && [y, x][1..] == [x] && Unique([x]) == [x];
    assert [x] + ([y] + [x]) == s;
    assert s[0] == s[2] && s[0] in s && s[1] in s;
  }

  lemma TieAfterCleaning(d: Diagnostic, end: Position, key: string)
    requires Packed(d.start) <= Packed(d.end) && Packed(d.start) <= Packed(end) && d.end != end
    ensures var x, y := Cleaned(d, key), Cleaned(d.(end := end), key); Tied(x, y) && x != y
  {
    hide Less, Tied, SourceName, Packed;
    TiesDifferOnlyInEnd(Cleaned(d, key), Cleaned(d.(end := end), key));
  }

  /** Batches where a repeat stays: any diagnostic before and after one that differs from it
      only in its end. Such a batch is sorted as it stands, and no neighbours are equal. */
  lemma RepeatStays(d: Diagnostic, end: Position, key: string)
    requires Packed(d.start) <= Packed(d.end) && Packed(d.start) <= Packed(end) && d.end != end
    ensures var cleaned := CleanedAll([d, d.(end := end), d], key);
            IsNormal(cleaned, cleaned) && !NoRepeats(cleaned) && !EndsMatter(cleaned)
  {
    var e := d.(end := end);
    hide CleanedAll, Cleaned, Tied, IsNormal, NoRepeats, EndsMatter;
    TieAfterCleaning(d, end, key);
    AlternationStays(Cleaned(d, key), Cleaned(e, key));
    ThreeCleaned(d, e, key);
  }

  lemma ThreeCleaned(d: Diagnostic, e: Diagnostic, key: string)
    ensures CleanedAll([d, e, d], key) == [Cleaned(d, key), Cleaned(e, key), Cleaned(d, key)]
  {
    hide Cleaned;
  }

  ghost predicate StrictlySorted(s: seq<Diagnostic>) {
    forall i: nat, j: nat | i < j < |s| :: Less(s[i], s[j])
  }

  lemma HasEntry(s: seq<Diagnostic>)
    requires s != []
    ensures exists d :: d in s
  {
    assert s[0] in s;
  }

  lemma {:induction false} StrictOrderIsUnique(a: seq<Diagnostic>, b: seq<Diagnostic>)
    requires StrictlySorted(a) && StrictlySorted(b) && SameEntries(a, b)
    ensures a == b
  {
    hide Less;
    if a == [] {
      if b != [] {
        HasEntry(b);
      }
    } else {
      assert a[0] in b && b[0] in a;
      TiesDifferOnlyInEnd(a[0], b[0]);
      assert a[0] == b[0];
      TiesDifferOnlyInEnd(a[0], a[0]);
      assert a[0] !in a[1..] && b[0] !in b[1..];
      assert a == [a[0]] + a[1..] && b == [b[0]] + b[1..];
      assert forall d :: d in a[1..] <==> d in a && d != a[0];
      assert forall d :: d in b[1..] <==> d in b && d != b[0];
      StrictOrderIsUnique(a[1..], b[1..]);
    }
  }

  lemma NormalIsStrict(cleaned: seq<Diagnostic>, r: seq<Diagnostic>)
    requires IsNormal(cleaned, r) && EndsMatter(cleaned)
    ensures StrictlySorted(r) && SameEntries(r, cleaned)
  {
    hide Less, Unique;
    var s :| Sorted(s) && multiset(s) == multiset(cleaned) && r == Unique(s);
    assert forall d :: d in s <==> d in multiset(s);
    assert forall d :: d in cleaned <==> d in multiset(cleaned);
    UniqueKeepsEntries(s);
    UniqueHasNoRepeats(s);
    forall i: nat, j: nat | i < j < |r|
      ensures Less(r[i], r[j])
    {
      assert r[i] in s && r[j] in s;
      assert !Tied(r[i], r[j]);
    }
  }

  /** When no two entries differ only in their end, the normal form has no repeats and
      depends on nothing but the set of entries. */
  lemma NormalDependsOnSet(a: seq<Diagnostic>, b: seq<Diagnostic>, r: seq<Diagnostic>, q: seq<Diagnostic>)
    requires IsNormal(a, r) && IsNormal(b, q) && SameEntries(a, b) && EndsMatter(a)
    ensures r == q && NoRepeats(r)
  {
    hide Less, IsNormal;
    NormalIsStrict(a, r);
    NormalIsStrict(b, q);
    StrictOrderIsUnique(r, q);
    forall i: nat, j: nat | i < j < |r|
      ensures r[i] != r[j]
    {
      TiesDifferOnlyInEnd(r[i], r[i]);
    }
  }
}
