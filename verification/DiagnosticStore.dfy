/** The store of diagnostics: documents with a generation and one batch per source,
    and a queue of the documents that have changed since a consumer last drained it. */
module DiagnosticStore {
  import opened Wrappers
  import opened Diagnostics
  import opened DocumentPath

  datatype Document = Document(generation: nat, closed: bool, bySource: map<Source, seq<Diagnostic>>)

  datatype State = State(documents: map<string, Document>, order: seq<string>, changed: set<string>)

  datatype UpdateResult = Applied | Stale | UnknownDocument | FutureGeneration

  const EMPTY := State(map[], [], {})

  /******* What a document shows *******/

  function Batch(d: Document, source: Source): seq<Diagnostic> {
    if source in d.bySource then d.bySource[source] else []
  }

  // All sources, in the order of the enumeration, then sorted stably.
  function Merged(s: State, key: string): seq<Diagnostic> {
    if key in s.documents then
      var d := s.documents[key];
      SortOf(Batch(d, Zls) + Batch(d, ZigCompiler) + Batch(d, GzScript))
    else []
  }

  /******* Operations *******/

  function Mark(s: State, key: string): State {
    if key in s.changed then s else s.(order := s.order + [key], changed := s.changed + {key})
  }

  function Opened(s: State, key: string): State {
    if key in s.documents then s else s.(documents := s.documents[key := Document(1, false, map[])])
  }

  function Advanced(s: State, key: string): State {
    if key !in s.documents then s
    else s.(documents := s.documents[key := s.documents[key].(generation := s.documents[key].generation + 1)])
  }

  function Closed(s: State, key: string): State {
    if key !in s.documents then s
    else s.(documents := s.documents[key := s.documents[key].(closed := true)])
  }

  function Put(s: State, key: string, source: Source, batch: seq<Diagnostic>): State
    requires key in s.documents
  {
    var d := s.documents[key];
    s.(documents := s.documents[key := d.(bySource := d.bySource[source := batch])])
  }

  function Verdict(s: State, key: string, generation: nat): UpdateResult {
    if key !in s.documents then UnknownDocument
    else if generation < s.documents[key].generation then Stale
    else if generation > s.documents[key].generation then FutureGeneration
    else Applied
  }

  function Replaced(s: State, key: string, generation: nat, source: Source, batch: seq<Diagnostic>): State {
    if Verdict(s, key, generation) != Applied then s
    else if Batch(s.documents[key], source) == batch then Put(s, key, source, batch)
    else Mark(Put(s, key, source, batch), key)
  }

  predicate Shows(s: State, key: string, source: Source) {
    key in s.documents && Batch(s.documents[key], source) != []
  }

  function SourceCleared(s: State, key: string, source: Source): State {
    if Shows(s, key, source) then Mark(Put(s, key, source, []), key) else s
  }

  function DocumentCleared(s: State, key: string): State {
    SourceCleared(SourceCleared(SourceCleared(s, key, Zls), key, ZigCompiler), key, GzScript)
  }

  // One source in every document, in the order the documents are met.
  function AllCleared(s: State, keys: seq<string>, source: Source): State {
    if keys == [] then s
    else SourceCleared(AllCleared(s, keys[..|keys| - 1], source), keys[|keys| - 1], source)
  }

  function Drop(keys: seq<string>, key: string): seq<string> {
    if keys == [] then [] else (if keys[0] == key then [] else [keys[0]]) + Drop(keys[1..], key)
  }

  function Removed(s: State, key: string): State {
    State(s.documents - {key}, Drop(s.order, key), s.changed - {key})
  }

  function Drained(s: State): State {
    s.(order := [], changed := {})
  }

  datatype Op =
    | Open(path: string)
    | Advance(path: string)
    | Close(path: string)
    | Replace(path: string, generation: nat, source: Source, batch: seq<Diagnostic>)
    | ClearSource(path: string, source: Source)
    | ClearDocument(path: string)
    | ClearAll(keys: seq<string>, source: Source)
    | Remove(path: string)
    | Take

  function Do(s: State, op: Op): State {
    match op
    case Open(path) => Opened(s, Normal(path))
    case Advance(path) => Advanced(s, Normal(path))
    case Close(path) => Closed(s, Normal(path))
    case Replace(path, generation, source, batch) => Replaced(s, Normal(path), generation, source, batch)
    case ClearSource(path, source) => SourceCleared(s, Normal(path), source)
    case ClearDocument(path) => DocumentCleared(s, Normal(path))
    case ClearAll(keys, source) => AllCleared(s, keys, source)
    case Remove(path) => Removed(s, Normal(path))
    case Take => Drained(s)
  }

  /******* The queue *******/

  // No repeats, the same documents as the companion set, all of them tracked.
  ghost predicate Valid(s: State) {
    && (forall i: nat, j: nat | i < j < |s.order| :: s.order[i] != s.order[j])
    && (forall key :: key in s.order <==> key in s.changed)
    && s.changed <= s.documents.Keys
    && (forall key <- s.documents :: s.documents[key].generation > 0)
  }

  lemma MarkKeepsValid(s: State, key: string)
    requires Valid(s) && key in s.documents
    ensures Valid(Mark(s, key))
  {
  }

  lemma {:induction false} DropRemoves(keys: seq<string>, key: string)
    requires forall i: nat, j: nat | i < j < |keys| :: keys[i] != keys[j]
    ensures forall k :: k in Drop(keys, key) <==> k in keys && k != key
    ensures forall i: nat, j: nat | i < j < |Drop(keys, key)| :: Drop(keys, key)[i] != Drop(keys, key)[j]
  {
    if keys != [] {
      DropRemoves(keys[1..], key);
      assert keys == [keys[0]] + keys[1..];
      assert keys[0] !in keys[1..];
    }
  }

  lemma SourceClearedKeepsValid(s: State, key: string, source: Source)
    requires Valid(s)
    ensures Valid(SourceCleared(s, key, source))
  {
    if Shows(s, key, source) {
      MarkKeepsValid(Put(s, key, source, []), key);
    }
  }

  lemma {:induction false} AllClearedKeepsValid(s: State, keys: seq<string>, source: Source)
    requires Valid(s)
    ensures Valid(AllCleared(s, keys, source))
  {
    if keys != [] {
      AllClearedKeepsValid(s, keys[..|keys| - 1], source);
      SourceClearedKeepsValid(AllCleared(s, keys[..|keys| - 1], source), keys[|keys| - 1], source);
    }
  }

  lemma DoKeepsValid(s: State, op: Op)
    requires Valid(s)
    ensures Valid(Do(s, op))
  {
    hide Normal, Drop;
    match op
    case Replace(path, generation, source, batch) =>
      if Verdict(s, Normal(path), generation) == Applied {
        MarkKeepsValid(Put(s, Normal(path), source, batch), Normal(path));
      }
    case ClearSource(path, source) => SourceClearedKeepsValid(s, Normal(path), source);
    case ClearDocument(path) =>
      var key := Normal(path);
      SourceClearedKeepsValid(s, key, Zls);
      SourceClearedKeepsValid(SourceCleared(s, key, Zls), key, ZigCompiler);
      SourceClearedKeepsValid(SourceCleared(SourceCleared(s, key, Zls), key, ZigCompiler), key, GzScript);
    case ClearAll(keys, source) => AllClearedKeepsValid(s, keys, source);
    case Remove(path) => DropRemoves(s.order, Normal(path));
    case _ =>
  }

  /******* A consumer that re-reads what it drains *******/

  // What the consumer last read, the documents it has drained and not read since, and the
  // documents removed since it last read them.
  datatype Consumer = Consumer(view: map<string, seq<Diagnostic>>, unread: set<string>, gone: set<string>)

  const UNAWARE := Consumer(map[], {}, {})

  // The consumer reads one document at a time, whenever it likes; anybody calls the store meanwhile.
  datatype Event = Call(op: Op) | Read(path: string)

  function Seen(c: Consumer, key: string): seq<Diagnostic> {
    if key in c.view then c.view[key] else []
  }

  function Observe(c: Consumer, s: State, e: Event): Consumer {
    match e
    case Call(Take) => c.(unread := c.unread + s.changed)
    case Call(Remove(path)) => c.(gone := c.gone + {Normal(path)})
    case Call(_) => c
    case Read(path) =>
      Consumer(c.view[Normal(path) := Merged(s, Normal(path))], c.unread - {Normal(path)}, c.gone - {Normal(path)})
  }

  function Next(s: State, e: Event): State {
    if e.Call? then Do(s, e.op) else s
  }

  ghost predicate UpToDate(c: Consumer, s: State) {
    forall key :: key in s.changed || key in c.unread || key in c.gone || Seen(c, key) == Merged(s, key)
  }

  // Every change of what a document shows is announced, except its removal.
  ghost predicate Announces(s: State, s': State, key: string) {
    key in s'.changed || (key !in s.changed && Merged(s', key) == Merged(s, key))
  }

  lemma SourceClearedAnnounces(s: State, key: string, source: Source, other: string)
    ensures Announces(s, SourceCleared(s, key, source), other)
  {
    hide SortOf;
  }

  lemma {:induction false} AllClearedAnnounces(s: State, keys: seq<string>, source: Source, other: string)
    ensures Announces(s, AllCleared(s, keys, source), other)
  {
    hide Merged, SourceCleared;
    if keys != [] {
      AllClearedAnnounces(s, keys[..|keys| - 1], source, other);
      SourceClearedAnnounces(AllCleared(s, keys[..|keys| - 1], source), keys[|keys| - 1], source, other);
    }
  }

  lemma DocumentClearedAnnounces(s: State, key: string, other: string)
    ensures Announces(s, DocumentCleared(s, key), other)
  {
    hide Merged, SourceCleared;
    var s1 := SourceCleared(s, key, Zls);
    var s2 := SourceCleared(s1, key, ZigCompiler);
    SourceClearedAnnounces(s, key, Zls, other);
    SourceClearedAnnounces(s1, key, ZigCompiler, other);
    SourceClearedAnnounces(s2, key, GzScript, other);
  }

  lemma ReplacedAnnounces(s: State, key: string, generation: nat, source: Source, batch: seq<Diagnostic>, other: string)
    ensures Announces(s, Replaced(s, key, generation, source, batch), other)
  {
    hide SortOf;
  }

  lemma OthersAnnounce(s: State, key: string, other: string)
    ensures Announces(s, Opened(s, key), other)
    ensures Announces(s, Advanced(s, key), other)
    ensures Announces(s, Closed(s, key), other)
    ensures other != key ==> Announces(s, Removed(s, key), other)
  {
    hide Drop;
    var nothing: seq<Diagnostic> := [];
    assert nothing + nothing + nothing == nothing && SortOf(nothing) == nothing;
  }

  lemma DoAnnounces(s: State, op: Op, other: string)
    requires !op.Take? && !(op.Remove? && other == Normal(op.path))
    ensures Announces(s, Do(s, op), other)
  {
    hide Normal, Merged, SourceCleared, DocumentCleared, AllCleared, Replaced, Removed;
    match op
    case Open(path) => OthersAnnounce(s, Normal(path), other);
    case Advance(path) => OthersAnnounce(s, Normal(path), other);
    case Close(path) => OthersAnnounce(s, Normal(path), other);
    case Replace(path, generation, source, batch) => ReplacedAnnounces(s, Normal(path), generation, source, batch, other);
    case ClearSource(path, source) => SourceClearedAnnounces(s, Normal(path), source, other);
    case ClearDocument(path) => DocumentClearedAnnounces(s, Normal(path), other);
    case ClearAll(keys, source) => AllClearedAnnounces(s, keys, source, other);
    case Remove(path) => OthersAnnounce(s, Normal(path), other);
  }

  lemma ObserveKeepsUpToDate(c: Consumer, s: State, e: Event)
    requires UpToDate(c, s)
    ensures UpToDate(Observe(c, s, e), Next(s, e))
  {
    hide Normal, Merged, Do;
    var c', s' := Observe(c, s, e), Next(s, e);
    forall key
      ensures key in s'.changed || key in c'.unread || key in c'.gone || Seen(c', key) == Merged(s', key)
    {
      if e == Call(Take) {
        TakeChangesNothing(s, key);
      } else if e.Call? && !(e.op.Remove? && key == Normal(e.op.path)) {
        DoAnnounces(s, e.op, key);
      }
    }
  }

  lemma TakeChangesNothing(s: State, key: string)
    ensures Merged(Do(s, Take), key) == Merged(s, key)
    ensures key in s.changed || key !in Do(s, Take).changed
  {
  }

  function StateAfter(ops: seq<Op>): State {
    if ops == [] then EMPTY else Do(StateAfter(ops[..|ops| - 1]), ops[|ops| - 1])
  }

  lemma {:induction false} RunsKeepValid(ops: seq<Op>)
    ensures Valid(StateAfter(ops))
  {
    hide Do, Valid;
    if ops != [] {
      RunsKeepValid(ops[..|ops| - 1]);
      DoKeepsValid(StateAfter(ops[..|ops| - 1]), ops[|ops| - 1]);
    } else {
      NothingShown();
    }
  }

  // What was called, without what the consumer read.
  function Calls(events: seq<Event>): seq<Op> {
    if events == [] then []
    else
      var last := events[|events| - 1];
      Calls(events[..|events| - 1]) + if last.Call? then [last.op] else []
  }

  function ConsumerAfter(events: seq<Event>): Consumer {
    if events == [] then UNAWARE
    else
      var before := events[..|events| - 1];
      Observe(ConsumerAfter(before), StateAfter(Calls(before)), events[|events| - 1])
  }

  lemma LastEvent(events: seq<Event>, e: Event)
    ensures StateAfter(Calls(events + [e])) == Next(StateAfter(Calls(events)), e)
    ensures ConsumerAfter(events + [e]) == Observe(ConsumerAfter(events), StateAfter(Calls(events)), e)
  {
    hide Do, Observe;
    assert (events + [e])[..|events|] == events;
    if e.Call? {
      NextState(Calls(events), e.op);
    } else {
      assert Calls(events + [e]) == Calls(events);
    }
  }

  /** Over any run of calls and reads, a consumer that re-reads only what it drains is right
      about every document that is not waiting in the queue, not drained and still to be
      read, and not removed since it was last read. */
  lemma {:induction false} ConsumerStaysRight(events: seq<Event>)
    ensures UpToDate(ConsumerAfter(events), StateAfter(Calls(events)))
  {
    hide Next, Observe, Merged, StateAfter, Calls, ConsumerAfter;
    if events != [] {
      var before, e := events[..|events| - 1], events[|events| - 1];
      assert events == before + [e];
      ConsumerStaysRight(before);
      ObserveKeepsUpToDate(ConsumerAfter(before), StateAfter(Calls(before)), e);
      LastEvent(before, e);
    } else {
      NothingHappened();
      NothingShown();
    }
  }

  lemma NothingHappened()
    ensures Calls([]) == [] && StateAfter([]) == EMPTY && ConsumerAfter([]) == UNAWARE
  {
  }

  lemma NothingShown()
    ensures Valid(EMPTY) && forall key :: Merged(EMPTY, key) == []
  {
  }

  // Opens a document, gives it diagnostics, drains the queue and reads the key it names.
  function ReadBack(path: string, source: Source, batch: seq<Diagnostic>): seq<Event> {
    [Call(Open(path)), Call(Op.Replace(path, 1, source, batch)), Call(Take), Read(Normal(path))]
  }

  lemma ShowsBatch(key: string, source: Source, batch: seq<Diagnostic>)
    requires batch != []
    ensures var s := Replaced(Opened(EMPTY, key), key, 1, source, batch);
            && s.changed == {key} && s.documents == map[key := Document(1, false, map[source := batch])]
            && Merged(s, key) != [] && forall other | other != key :: Merged(s, other) == []
  {
    hide SortOf;
    var s := Replaced(Opened(EMPTY, key), key, 1, source, batch);
    var d := s.documents[key];
    SortIsStable(Batch(d, Zls) + Batch(d, ZigCompiler) + Batch(d, GzScript));
    assert batch[0] in multiset(Merged(s, key));
  }

  lemma ReadBackRun(path: string, source: Source, batch: seq<Diagnostic>)
    ensures var key, events := Normal(path), ReadBack(path, source, batch);
            var s := Replaced(Opened(EMPTY, key), key, 1, source, batch);
            && StateAfter(Calls(events)) == Drained(s)
            && ConsumerAfter(events) == Observe(Consumer(map[], s.changed, {}), Drained(s), Read(key))
  {
    hide Normal, Opened, Replaced, StateAfter, ConsumerAfter, Calls;
    var key := Normal(path);
    var open, replace := Call(Open(path)), Call(Op.Replace(path, 1, source, batch));
    var none: seq<Event> := [];
    NothingHappened();
    assert none + [open] == [open] && [open] + [replace] == [open, replace]
           && [open, replace] + [Call(Take)] == [open, replace, Call(Take)]
           && [open, replace, Call(Take)] + [Read(key)] == ReadBack(path, source, batch);
    LastEvent(none, open);
    LastEvent([open], replace);
    LastEvent([open, replace], Call(Take));
    LastEvent([open, replace, Call(Take)], Read(key));
    var s := Replaced(Opened(EMPTY, key), key, 1, source, batch);
    assert {} + s.changed == s.changed;
  }

  /** Reading a document by the key that was drained for it shows its diagnostics unless its
      path has a scheme other than file that is followed by two more slashes: then the key,
      which reading normalises once more, leads to another document. */
  lemma DrainedKeyIsReadIff(path: string, source: Source, batch: seq<Diagnostic>)
    requires batch != []
    ensures var c, s := ConsumerAfter(ReadBack(path, source, batch)), StateAfter(Calls(ReadBack(path, source, batch)));
            && Merged(s, Normal(path)) != []
            && (Seen(c, Normal(path)) == Merged(s, Normal(path)) <==> !SlashesAfterScheme(path))
            && (Normal(path) in c.unread <==> SlashesAfterScheme(path))
  {
    hide Normal, Merged, StateAfter, ConsumerAfter, Calls, ReadBack, Opened, Replaced, SlashesAfterScheme;
    ReadBackRun(path, source, batch);
    ShowsBatch(Normal(path), source, batch);
    DrainingKeepsMerged(Replaced(Opened(EMPTY, Normal(path)), Normal(path), 1, source, batch), Normal(path));
    IdempotentExceptAfterScheme(path);
  }

  lemma DrainingKeepsMerged(s: State, key: string)
    ensures Merged(Drained(s), key) == Merged(s, key)
  {
  }

  /******* Snapshots and resubmission *******/

  /** A snapshot holds every entry of every source, sorted, and entries that tie stay in
      the order of their sources. */
  lemma SnapshotMerges(s: State, key: string, d: Diagnostic)
    requires key in s.documents
    ensures var doc := s.documents[key];
            && Sorted(Merged(s, key))
            && multiset(Merged(s, key))
               == multiset(Batch(doc, Zls)) + multiset(Batch(doc, ZigCompiler)) + multiset(Batch(doc, GzScript))
            && TiesWith(d, Merged(s, key))
               == TiesWith(d, Batch(doc, Zls)) + TiesWith(d, Batch(doc, ZigCompiler)) + TiesWith(d, Batch(doc, GzScript))
  {
    hide SortOf;
    var doc := s.documents[key];
    SortIsStable(Batch(doc, Zls) + Batch(doc, ZigCompiler) + Batch(doc, GzScript));
    TiesSplit(d, Batch(doc, Zls), Batch(doc, ZigCompiler));
    TiesSplit(d, Batch(doc, Zls) + Batch(doc, ZigCompiler), Batch(doc, GzScript));
  }

  lemma {:induction false} TiesSplit(d: Diagnostic, a: seq<Diagnostic>, b: seq<Diagnostic>)
    ensures TiesWith(d, a + b) == TiesWith(d, a) + TiesWith(d, b)
  {
    hide Tied;
    if a == [] {
      assert a + b == b;
    } else {
      TiesSplit(d, a[1..], b);
      assert (a + b)[1..] == a[1..] + b;
    }
  }

  /** Submitting the same entries again, in any order and any number, changes nothing,
      provided no two of them differ only in their end. */
  lemma ResubmissionIsNoOp(s: State, key: string, generation: nat, source: Source,
                           first: seq<Diagnostic>, again: seq<Diagnostic>, r: seq<Diagnostic>, q: seq<Diagnostic>)
    requires IsNormal(CleanedAll(first, key), r) && IsNormal(CleanedAll(again, key), q)
    requires SameEntries(CleanedAll(first, key), CleanedAll(again, key)) && EndsMatter(CleanedAll(first, key))
    ensures var once := Replaced(s, key, generation, source, r);
            Replaced(once, key, generation, source, q) == once
  {
    hide IsNormal, CleanedAll, SameEntries, EndsMatter;
    NormalDependsOnSet(CleanedAll(first, key), CleanedAll(again, key), r, q);
    if Verdict(s, key, generation) == Applied {
      var once := Replaced(s, key, generation, source, r);
      var d := once.documents[key];
      assert d.bySource[source := r] == d.bySource && once.documents[key := d] == once.documents;
    }
  }

  /******* Generations *******/

  // The generation of a document, 0 when it is not tracked.
  function Generation(s: State, key: string): nat {
    if key in s.documents then s.documents[key].generation else 0
  }

  // What an operation does to the generation of a document.
  function Counted(generation: nat, op: Op, key: string): nat {
    match op
    case Open(path) => if Normal(path) == key && generation == 0 then 1 else generation
    case Advance(path) => if Normal(path) == key && generation > 0 then generation + 1 else generation
    case Remove(path) => if Normal(path) == key then 0 else generation
    case _ => generation
  }

  /** Opening an untracked document starts it at 1, only advancing raises a generation, and
      removing a document forgets it. An update is applied exactly for the current
      generation of a tracked document; then its source shows the batch and every other
      source what it did, and otherwise nothing at all changes. */
  lemma GenerationContract(s: State, op: Op, key: string)
    requires Valid(s)
    ensures Generation(Do(s, op), key) == Counted(Generation(s, key), op, key)
    ensures op.Replace? && Normal(op.path) == key ==>
              var verdict, r := Verdict(s, key, op.generation), Do(s, op);
              && (verdict == Applied <==> key in s.documents && op.generation == Generation(s, key))
              && (verdict == UnknownDocument <==> key !in s.documents)
              && (verdict == Stale <==> key in s.documents && op.generation < Generation(s, key))
              && (verdict != Applied ==> r == s)
              && (verdict == Applied ==>
                    forall source :: Batch(r.documents[key], source)
                                     == if source == op.source then op.batch else Batch(s.documents[key], source))
  {
    hide Do, Counted, Verdict;
    DoCounts(s, op, key);
    if op.Replace? && Normal(op.path) == key {
      ReplaceContract(s, op, key);
    }
  }

  lemma DoCounts(s: State, op: Op, key: string)
    requires Valid(s)
    ensures Generation(Do(s, op), key) == Counted(Generation(s, key), op, key)
  {
    hide Normal, Drop, Merged;
    match op
    case ClearAll(keys, source) => AllClearedKeepsGenerations(s, keys, source, key);
    case _ =>
  }

  lemma ReplaceContract(s: State, op: Op, key: string)
    requires Valid(s) && op.Replace? && Normal(op.path) == key
    ensures var verdict, r := Verdict(s, key, op.generation), Do(s, op);
            && (verdict == Applied <==> key in s.documents && op.generation == Generation(s, key))
            && (verdict == UnknownDocument <==> key !in s.documents)
            && (verdict == Stale <==> key in s.documents && op.generation < Generation(s, key))
            && (verdict != Applied ==> r == s)
            && (verdict == Applied ==>
                  forall source :: Batch(r.documents[key], source)
                                   == if source == op.source then op.batch else Batch(s.documents[key], source))
  {
    hide Normal, Merged;
  }

  lemma {:induction false} AllClearedKeepsGenerations(s: State, keys: seq<string>, source: Source, key: string)
    ensures Generation(AllCleared(s, keys, source), key) == Generation(s, key)
  {
    if keys != [] {
      AllClearedKeepsGenerations(s, keys[..|keys| - 1], source, key);
    }
  }

  predicate IsRemoval(op: Op, key: string) {
    op.Remove? && Normal(op.path) == key
  }

  predicate IsOpening(op: Op, key: string) {
    op.Open? && Normal(op.path) == key
  }

  ghost predicate Removes(ops: seq<Op>, key: string) {
    exists op <- ops :: IsRemoval(op, key)
  }

  function Advances(ops: seq<Op>, key: string): nat {
    if ops == [] then 0
    else
      var last := ops[|ops| - 1];
      Advances(ops[..|ops| - 1], key) + if last.Advance? && Normal(last.path) == key then 1 else 0
  }

  // What happened to a document since the opening of its current lifetime, if it has one.
  function Lifetime(ops: seq<Op>, key: string): Option<seq<Op>> {
    if ops == [] then None
    else
      var before, last := Lifetime(ops[..|ops| - 1], key), ops[|ops| - 1];
      if IsRemoval(last, key) then None
      else if before.Some? then Some(before.value + [last])
      else if IsOpening(last, key) then Some([])
      else None
  }

  lemma AdvancesNext(ops: seq<Op>, op: Op, key: string)
    ensures Advances(ops + [op], key) == Advances(ops, key) + if op.Advance? && Normal(op.path) == key then 1 else 0
  {
    hide Normal;
    assert (ops + [op])[..|ops|] == ops;
  }

  /** After any run, a tracked document has been advanced once less than its generation
      says since it was opened, and an untracked one has no lifetime. */
  lemma {:induction false} GenerationsCountAdvances(ops: seq<Op>, key: string)
    ensures match Lifetime(ops, key)
            case None => Generation(StateAfter(ops), key) == 0 && key !in StateAfter(ops).documents
            case Some(since) => Generation(StateAfter(ops), key) == 1 + Advances(since, key)
  {
    if ops != [] {
      var before, last := ops[..|ops| - 1], ops[|ops| - 1];
      LifetimeNext(ops, key);
      hide Do, Normal, Valid, Lifetime, Advances, Verdict, Generation;
      GenerationsCountAdvances(before, key);
      RunsKeepValid(before);
      RunsKeepValid(ops);
      DoCounts(StateAfter(before), last, key);
      TrackedHasGeneration(StateAfter(ops), key);
      NoAdvances(key);
      if Lifetime(before, key).Some? {
        AdvancesNext(Lifetime(before, key).value, last, key);
      }
    } else {
      NothingShown();
    }
  }

  lemma NoAdvances(key: string)
    ensures Advances([], key) == 0
  {
  }

  lemma LifetimeNext(ops: seq<Op>, key: string)
    requires ops != []
    ensures var before, last := Lifetime(ops[..|ops| - 1], key), ops[|ops| - 1];
            Lifetime(ops, key) == if IsRemoval(last, key) then None
                                  else if before.Some? then Some(before.value + [last])
                                  else if IsOpening(last, key) then Some([])
                                  else None
  {
  }

  lemma TrackedHasGeneration(s: State, key: string)
    requires Valid(s)
    ensures key in s.documents <==> Generation(s, key) > 0
  {
  }

  lemma {:induction false} StateAfterMore(first: seq<Op>, more: seq<Op>)
    requires more != []
    ensures StateAfter(first + more) == Do(StateAfter(first + more[..|more| - 1]), more[|more| - 1])
  {
    hide Do;
    assert (first + more)[..|first + more| - 1] == first + more[..|more| - 1];
  }

  // Without a removal in between, a generation goes on from where it was.
  lemma {:induction false} GoesOn(first: seq<Op>, more: seq<Op>, key: string)
    requires Generation(StateAfter(first), key) > 0 && !Removes(more, key)
    ensures Generation(StateAfter(first + more), key) == Generation(StateAfter(first), key) + Advances(more, key)
    decreases |more|
  {
    hide Do, Normal, Valid, StateAfter;
    if more == [] {
      assert first + more == first;
    } else {
      var before, last := more[..|more| - 1], more[|more| - 1];
      assert last in more && !IsRemoval(last, key);
      assert forall op <- before :: op in more;
      GoesOn(first, before, key);
      StateAfterMore(first, more);
      RunsKeepValid(first + before);
      GenerationContract(StateAfter(first + before), last, key);
    }
  }

  // An update changes what a source shows.
  predicate SaysMore(s: State, key: string, source: Source, batch: seq<Diagnostic>) {
    key in s.documents ==> Batch(s.documents[key], source) != batch
  }

  // The verdict on an update of an earlier lifetime.
  function InLaterLifetime(generation: nat, lifetime: Option<seq<Op>>, key: string): UpdateResult {
    match lifetime
    case None => UnknownDocument
    case Some(since) =>
      if 1 + Advances(since, key) == generation then Applied
      else if 1 + Advances(since, key) < generation then FutureGeneration
      else Stale
  }

  /** What becomes of an update for the generation a document had after `first`, when it
      comes after `more`: while the document stays tracked, it is applied iff the generation
      has not advanced since. Once the document was removed, it is applied iff the document
      is tracked again and has been advanced to that very generation in its new lifetime;
      it is lost when the document is not tracked or has not got there, and stale beyond. */
  lemma LateUpdate(first: seq<Op>, more: seq<Op>, key: string, source: Source, batch: seq<Diagnostic>)
    requires key in StateAfter(first).documents
    ensures var generation, s := Generation(StateAfter(first), key), StateAfter(first + more);
            var verdict := Verdict(s, key, generation);
            var changes := Replaced(s, key, generation, source, batch) != s;
            && (!Removes(more, key) ==> verdict == if Advances(more, key) == 0 then Applied else Stale)
            && (Removes(more, key) ==>
                  verdict == InLaterLifetime(generation, Lifetime(first + more, key), key))
            && (SaysMore(s, key, source, batch) ==> (changes <==> verdict == Applied))
            && (verdict == Applied ==>
                  Batch(Replaced(s, key, generation, source, batch).documents[key], source) == batch)
  {
    hide Do, Normal, StateAfter, Merged;
    var generation, s := Generation(StateAfter(first), key), StateAfter(first + more);
    RunsKeepValid(first);
    RunsKeepValid(first + more);
    if !Removes(more, key) {
      GoesOn(first, more, key);
    } else {
      GenerationsCountAdvances(first + more, key);
    }
    var r := Replaced(s, key, generation, source, batch);
    if Verdict(s, key, generation) == Applied && SaysMore(s, key, source, batch) {
      assert Batch(r.documents[key], source) != Batch(s.documents[key], source);
    }
  }

  /** Over any run, an update for an earlier generation of a document can overwrite newer
      diagnostics exactly when the document was removed and has reached that generation
      again since. */
  lemma LateUpdateOverwritesIff(first: seq<Op>, more: seq<Op>, key: string, source: Source, batch: seq<Diagnostic>)
    requires key in StateAfter(first).documents && SaysMore(StateAfter(first + more), key, source, batch)
    requires Removes(more, key) || Advances(more, key) > 0
    ensures Replaced(StateAfter(first + more), key, Generation(StateAfter(first), key), source, batch)
              != StateAfter(first + more)
            <==> && Removes(more, key) && Lifetime(first + more, key).Some?
                 && 1 + Advances(Lifetime(first + more, key).value, key) == Generation(StateAfter(first), key)
  {
    hide StateAfter, Replaced, Lifetime, Advances, Removes, Generation, SaysMore;
    LateUpdate(first, more, key, source, batch);
  }

  // What a document shows from one source, nothing when it is not tracked.
  function Showing(s: State, key: string, source: Source): seq<Diagnostic> {
    if key in s.documents then Batch(s.documents[key], source) else []
  }

  /** The shortest such run: a document is opened, removed and opened again, and the update
      of its first lifetime is applied and shown in the second. */
  lemma UpdateOfRemovedDocumentIsShown(path: string, source: Source, batch: seq<Diagnostic>)
    ensures var key := Normal(path);
            var before, s := StateAfter([Open(path)]), StateAfter([Open(path), Remove(path), Open(path)]);
            && key in before.documents && Generation(before, key) == 1
            && Verdict(s, key, 1) == Applied
            && Showing(Do(s, Replace(path, 1, source, batch)), key, source) == batch
  {
    OpenedRemovedOpened(path);
    hide Normal, Merged, StateAfter, Drop;
    var key := Normal(path);
    var s := Opened(Removed(Opened(EMPTY, key), key), key);
    assert key in s.documents && s.documents[key] == Document(1, false, map[]);
  }

  lemma OpenedRemovedOpened(path: string)
    ensures StateAfter([Open(path)]) == Opened(EMPTY, Normal(path))
    ensures StateAfter([Open(path), Remove(path), Open(path)])
            == Opened(Removed(Opened(EMPTY, Normal(path)), Normal(path)), Normal(path))
  {
    hide Normal, Opened, Removed;
    NextState([], Open(path));
    NextState([Open(path)], Remove(path));
    NextState([Open(path), Remove(path)], Open(path));
    var none: seq<Op> := [];
    assert none + [Open(path)] == [Open(path)] && StateAfter(none) == EMPTY;
    hide StateAfter;
    assert [Open(path)] + [Remove(path)] == [Open(path), Remove(path)];
    assert [Open(path), Remove(path)] + [Open(path)] == [Open(path), Remove(path), Open(path)];
  }

  lemma NextState(ops: seq<Op>, op: Op)
    ensures StateAfter(ops + [op]) == Do(StateAfter(ops), op)
  {
    hide Do;
    assert (ops + [op])[..|ops|] == ops;
  }

  /******* What an operation shows and announces *******/

  // What a document shows from a source after an operation, told by the operation alone.
  function ShownAfter(s: State, op: Op, key: string, source: Source): seq<Diagnostic> {
    match op
    case Replace(path, generation, from, batch) =>
      if Normal(path) == key && source == from && key in s.documents && s.documents[key].generation == generation
      then batch else Showing(s, key, source)
    case ClearSource(path, from) => if Normal(path) == key && source == from then [] else Showing(s, key, source)
    case ClearDocument(path) => if Normal(path) == key then [] else Showing(s, key, source)
    case ClearAll(keys, from) => if key in keys && source == from then [] else Showing(s, key, source)
    case Remove(path) => if Normal(path) == key then [] else Showing(s, key, source)
    case _ => Showing(s, key, source)
  }

  lemma SourceClearedShows(s: State, key: string, source: Source, other: string, from: Source)
    ensures Showing(SourceCleared(s, key, source), other, from)
            == if other == key && from == source then [] else Showing(s, other, from)
    ensures SourceCleared(s, key, source).documents.Keys == s.documents.Keys
  {
  }

  lemma {:induction false} AllClearedShows(s: State, keys: seq<string>, source: Source, other: string, from: Source)
    ensures Showing(AllCleared(s, keys, source), other, from)
            == if other in keys && from == source then [] else Showing(s, other, from)
    ensures AllCleared(s, keys, source).documents.Keys == s.documents.Keys
  {
    hide SourceCleared, Showing;
    if keys != [] {
      var n := |keys| - 1;
      AllClearedShows(s, keys[..n], source, other, from);
      SourceClearedShows(AllCleared(s, keys[..n], source), keys[n], source, other, from);
      assert keys == keys[..n] + [keys[n]];
    }
  }

  lemma DocumentClearedShows(s: State, key: string, other: string, from: Source)
    ensures Showing(DocumentCleared(s, key), other, from) == if other == key then [] else Showing(s, other, from)
    ensures DocumentCleared(s, key).documents.Keys == s.documents.Keys
  {
    hide SourceCleared, Showing;
    var s1 := SourceCleared(s, key, Zls);
    var s2 := SourceCleared(s1, key, ZigCompiler);
    SourceClearedShows(s, key, Zls, other, from);
    SourceClearedShows(s1, key, ZigCompiler, other, from);
    SourceClearedShows(s2, key, GzScript, other, from);
  }

  predicate IsClosed(s: State, key: string) {
    key in s.documents && s.documents[key].closed
  }

  lemma {:induction false} AllClearedKeepsClosed(s: State, keys: seq<string>, source: Source, key: string)
    ensures IsClosed(AllCleared(s, keys, source), key) == IsClosed(s, key)
  {
    if keys != [] {
      AllClearedKeepsClosed(s, keys[..|keys| - 1], source, key);
      SourceClearedKeepsClosed(AllCleared(s, keys[..|keys| - 1], source), keys[|keys| - 1], source, key);
      hide SourceCleared, IsClosed;
    }
  }

  lemma SourceClearedKeepsClosed(s: State, key: string, source: Source, other: string)
    ensures IsClosed(SourceCleared(s, key, source), other) == IsClosed(s, other)
  {
  }

  lemma DocumentClearedKeepsClosed(s: State, key: string, other: string)
    ensures IsClosed(DocumentCleared(s, key), other) == IsClosed(s, other)
  {
    SourceClearedKeepsClosed(s, key, Zls, other);
    SourceClearedKeepsClosed(SourceCleared(s, key, Zls), key, ZigCompiler, other);
    SourceClearedKeepsClosed(SourceCleared(SourceCleared(s, key, Zls), key, ZigCompiler), key, GzScript, other);
    hide SourceCleared, IsClosed;
  }

  lemma DoCloses(s: State, op: Op, key: string)
    ensures IsClosed(Do(s, op), key) <==>
            (IsClosed(s, key) && !IsRemoval(op, key)) || (op.Close? && Normal(op.path) == key && key in s.documents)
  {
    hide Normal, SourceCleared, DocumentCleared, AllCleared, Drop, Merged;
    match op
    case ClearSource(path, from) => SourceClearedKeepsClosed(s, Normal(path), from, key);
    case ClearDocument(path) => DocumentClearedKeepsClosed(s, Normal(path), key);
    case ClearAll(keys, from) => AllClearedKeepsClosed(s, keys, from, key);
    case _ =>
  }

  /** What every document shows from every source after an operation, and which documents are
      tracked and which of them closed: clearing clears what it names, an update for the current
      generation shows its batch, closed or not, and nothing else changes. */
  lemma DoShows(s: State, op: Op, key: string, source: Source)
    ensures Showing(Do(s, op), key, source) == ShownAfter(s, op, key, source)
    ensures key in Do(s, op).documents <==>
            (key in s.documents && !IsRemoval(op, key)) || IsOpening(op, key)
    ensures IsClosed(Do(s, op), key) <==>
            (IsClosed(s, key) && !IsRemoval(op, key)) || (op.Close? && Normal(op.path) == key && key in s.documents)
  {
    DoCloses(s, op, key);
    hide Normal, SourceCleared, DocumentCleared, AllCleared, Drop, Merged, IsClosed;
    match op
    case ClearSource(path, from) =>
      SourceClearedShows(s, Normal(path), from, key, source);
    case ClearDocument(path) =>
      DocumentClearedShows(s, Normal(path), key, source);
    case ClearAll(keys, from) =>
      AllClearedShows(s, keys, from, key, source);
    case _ =>
  }

  ghost predicate ShowsOther(s: State, s': State, key: string) {
    exists source :: Showing(s', key, source) != Showing(s, key, source)
  }

  // The queue has grown at its end, by documents that now show something else and no others.
  ghost predicate Queues(s: State, s': State) {
    && s.order <= s'.order
    && forall key :: key in s'.changed <==> key in s.changed || ShowsOther(s, s', key)
  }

  lemma SourceClearedQueues(s: State, key: string, source: Source)
    ensures Queues(s, SourceCleared(s, key, source))
  {
    var s' := SourceCleared(s, key, source);
    forall other, from ensures Showing(s', other, from) == if other == key && from == source then [] else Showing(s, other, from) {
      SourceClearedShows(s, key, source, other, from);
    }
    if Shows(s, key, source) {
      assert Showing(s', key, source) != Showing(s, key, source);
    }
  }

  // A clearing after another: what the first took away the second does not bring back.
  lemma QueuesThen(s: State, m: State, r: State)
    requires Queues(s, m) && Queues(m, r)
    requires forall key, source :: Showing(r, key, source) == Showing(m, key, source) || Showing(r, key, source) == []
    requires forall key, source :: Showing(m, key, source) == Showing(s, key, source) || Showing(m, key, source) == []
    ensures Queues(s, r)
  {
    forall key, source
      ensures Showing(r, key, source) != Showing(s, key, source) <==>
              Showing(m, key, source) != Showing(s, key, source) || Showing(r, key, source) != Showing(m, key, source)
    {
    }
  }

  lemma {:induction false} AllClearedQueues(s: State, keys: seq<string>, source: Source)
    ensures Queues(s, AllCleared(s, keys, source))
  {
    if keys == [] {
      NothingQueues(s);
    } else {
      hide SourceCleared, Showing, Queues;
      var n := |keys| - 1;
      var m := AllCleared(s, keys[..n], source);
      AllClearedQueues(s, keys[..n], source);
      SourceClearedQueues(m, keys[n], source);
      forall key, from
        ensures Showing(m, key, from) == Showing(s, key, from) || Showing(m, key, from) == []
        ensures var r := SourceCleared(m, keys[n], source);
                Showing(r, key, from) == Showing(m, key, from) || Showing(r, key, from) == []
      {
        AllClearedShows(s, keys[..n], source, key, from);
        SourceClearedShows(m, keys[n], source, key, from);
      }
      QueuesThen(s, m, SourceCleared(m, keys[n], source));
    }
  }

  lemma NothingQueues(s: State)
    ensures Queues(s, s)
  {
  }

  lemma DocumentClearedQueues(s: State, key: string)
    ensures Queues(s, DocumentCleared(s, key))
  {
    hide Queues, SourceCleared;
    var s1 := SourceCleared(s, key, Zls);
    var s2 := SourceCleared(s1, key, ZigCompiler);
    var s3 := SourceCleared(s2, key, GzScript);
    SourceClearedQueues(s, key, Zls);
    SourceClearedQueues(s1, key, ZigCompiler);
    SourceClearedQueues(s2, key, GzScript);
    hide Showing;
    forall other, from
      ensures Showing(s1, other, from) == Showing(s, other, from) || Showing(s1, other, from) == []
      ensures Showing(s2, other, from) == Showing(s1, other, from) || Showing(s2, other, from) == []
      ensures Showing(s3, other, from) == Showing(s2, other, from) || Showing(s3, other, from) == []
    {
      SourceClearedShows(s, key, Zls, other, from);
      SourceClearedShows(s1, key, ZigCompiler, other, from);
      SourceClearedShows(s2, key, GzScript, other, from);
    }
    QueuesThen(s, s1, s2);
    forall other, from ensures Showing(s2, other, from) == Showing(s, other, from) || Showing(s2, other, from) == [] {
      assert Showing(s1, other, from) == Showing(s, other, from) || Showing(s1, other, from) == [];
    }
    QueuesThen(s, s2, s3);
  }

  lemma ReplacedQueues(s: State, key: string, generation: nat, source: Source, batch: seq<Diagnostic>)
    ensures Queues(s, Replaced(s, key, generation, source, batch))
  {
    var s' := Replaced(s, key, generation, source, batch);
    if Verdict(s, key, generation) == Applied {
      assert Showing(s', key, source) == batch && Showing(s, key, source) == Batch(s.documents[key], source);
      assert forall other, from | other != key || from != source :: Showing(s', other, from) == Showing(s, other, from);
    } else {
      NothingQueues(s);
    }
  }

  lemma OthersQueue(s: State, key: string)
    ensures Queues(s, Opened(s, key)) && Queues(s, Advanced(s, key)) && Queues(s, Closed(s, key))
  {
    assert forall other, from ::
        && Showing(Opened(s, key), other, from) == Showing(s, other, from)
        && Showing(Advanced(s, key), other, from) == Showing(s, other, from)
        && Showing(Closed(s, key), other, from) == Showing(s, other, from);
  }

  /** Exactly the documents of which some source now shows something else are queued, behind
      those that are waiting; an update that says nothing new announces nothing. */
  lemma DoQueues(s: State, op: Op)
    requires !op.Take? && !op.Remove?
    ensures Queues(s, Do(s, op))
  {
    hide Normal, Queues, SourceCleared, DocumentCleared, AllCleared, Replaced, Opened, Advanced, Closed;
    match op
    case Open(path) => OthersQueue(s, Normal(path));
    case Advance(path) => OthersQueue(s, Normal(path));
    case Close(path) => OthersQueue(s, Normal(path));
    case Replace(path, generation, source, batch) => ReplacedQueues(s, Normal(path), generation, source, batch);
    case ClearSource(path, source) => SourceClearedQueues(s, Normal(path), source);
    case ClearDocument(path) => DocumentClearedQueues(s, Normal(path));
    case ClearAll(keys, source) => AllClearedQueues(s, keys, source);
  }

  lemma {:induction false} DropWithout(a: seq<string>, key: string)
    requires key !in a
    ensures Drop(a, key) == a
  {
    if a != [] {
      DropWithout(a[1..], key);
      assert a[0] in a && a == [a[0]] + a[1..];
    }
  }

  lemma {:induction false} DropBetween(a: seq<string>, key: string, b: seq<string>)
    requires key !in a && key !in b
    ensures Drop(a + [key] + b, key) == a + b
  {
    var keys := a + [key] + b;
    if a == [] {
      assert keys[1..] == b && a + b == b;
      DropWithout(b, key);
    } else {
      DropBetween(a[1..], key, b);
      assert a[0] in a && keys[1..] == a[1..] + [key] + b;
      assert [a[0]] + (a[1..] + b) == a + b;
    }
  }

  /** Draining hands over the whole queue. Removing a document takes it out of the queue, and
      leaves the others in their order. */
  lemma DrainAndRemove(s: State, path: string)
    requires Valid(s)
    ensures Do(s, Take) == s.(order := [], changed := {})
    ensures var key, r := Normal(path), Do(s, Remove(path));
            && r.changed == s.changed - {key}
            && (key !in s.order ==> r.order == s.order)
            && forall a, b | s.order == a + [key] + b :: r.order == a + b
  {
    hide Normal, Drop;
    var key := Normal(path);
    if key !in s.order {
      DropWithout(s.order, key);
    }
    forall a, b | s.order == a + [key] + b ensures Drop(s.order, key) == a + b {
      forall i: nat | i < |a| ensures a[i] != key {
        assert s.order[i] == a[i] && s.order[|a|] == key;
      }
      forall i: nat | i < |b| ensures b[i] != key {
        assert s.order[|a| + 1 + i] == b[i] && s.order[|a|] == key;
      }
      DropBetween(a, key, b);
    }
  }

  /******* The store object *******/

  method Filter(keys: seq<string>, key: string) returns (kept: seq<string>)
    ensures kept == Drop(keys, key)
  {
    kept := [];
    for k := 0 to |keys|
      invariant Drop(keys, key) == kept + Drop(keys[k..], key)
    {
      assert keys[k..][1..] == keys[k + 1..];
      ghost var head := if keys[k] == key then [] else [keys[k]];
      assert kept + (head + Drop(keys[k + 1..], key)) == (kept + head) + Drop(keys[k + 1..], key);
      if keys[k] != key {
        kept := kept + [keys[k]];
      }
    }
  }

  class Store {
    var documents: map<string, Document>
    var changedOrder: seq<string>
    var changedSet: set<string>

    function Contents(): State
      reads this
    {
      State(documents, changedOrder, changedSet)
    }

    constructor ()
      ensures Contents() == EMPTY && Valid(Contents())
    {
      documents, changedOrder, changedSet := map[], [], {};
    }

    method MarkChanged(key: string)
      modifies this
      ensures Contents() == Mark(old(Contents()), key)
    {
      if key !in changedSet {
        changedSet := changedSet + {key};
        changedOrder := changedOrder + [key];
      }
    }

    method OpenDocument(path: string) returns (generation: nat)
      requires Valid(Contents())
      modifies this
      ensures Valid(Contents())
      ensures Contents() == Opened(old(Contents()), Normal(path))
      ensures generation == documents[Normal(path)].generation
    {
      hide Normal, Valid;
      DoKeepsValid(Contents(), Open(path));
      var key := NormalizeDocumentPath(path);
      if key !in documents {
        documents := documents[key := Document(1, false, map[])];
      }
      generation := documents[key].generation;
    }

    method AdvanceGeneration(path: string) returns (generation: nat)
      requires Valid(Contents())
      modifies this
      ensures Valid(Contents())
      ensures Contents() == Advanced(old(Contents()), Normal(path))
      ensures generation == if Normal(path) in documents then documents[Normal(path)].generation else 0
    {
      hide Normal, Valid;
      DoKeepsValid(Contents(), Advance(path));
      var key := NormalizeDocumentPath(path);
      if key !in documents {
        return 0;
      }
      documents := documents[key := documents[key].(generation := documents[key].generation + 1)];
      generation := documents[key].generation;
    }

    method CloseDocument(path: string) returns (tracked: bool)
      requires Valid(Contents())
      modifies this
      ensures Valid(Contents())
      ensures Contents() == Closed(old(Contents()), Normal(path)) && tracked == (Normal(path) in documents)
    {
      hide Normal, Valid;
      DoKeepsValid(Contents(), Close(path));
      var key := NormalizeDocumentPath(path);
      tracked := key in documents;
      if tracked {
        documents := documents[key := documents[key].(closed := true)];
      }
    }

    method Replace(path: string, generation: nat, source: Source, diagnostics: seq<Diagnostic>)
      returns (result: UpdateResult, ghost batch: seq<Diagnostic>)
      requires Valid(Contents())
      modifies this
      ensures Valid(Contents())
      ensures result == Verdict(old(Contents()), Normal(path), generation)
      ensures IsNormal(CleanedAll(diagnostics, Normal(path)), batch)
      ensures Contents() == Replaced(old(Contents()), Normal(path), generation, source, batch)
    {
      hide IsNormal, CleanedAll, Normal;
      var key := NormalizeDocumentPath(path);
      var normal, normalized := NormalizeBatch(diagnostics, key);
      batch := normal;
      DoKeepsValid(Contents(), Op.Replace(path, generation, source, batch));
      if key !in documents {
        return UnknownDocument, batch;
      }
      var state := documents[key];
      if generation < state.generation {
        return Stale, batch;
      }
      if generation > state.generation {
        return FutureGeneration, batch;
      }
      var unchanged_ := Batch(state, source) == normal;
      documents := documents[key := state.(bySource := state.bySource[source := normal])];
      if !unchanged_ {
        MarkChanged(key);
      }
      return Applied, batch;
    }

    method ClearKey(key: string, source: Source)
      modifies this
      ensures Contents() == SourceCleared(old(Contents()), key, source)
    {
      if key !in documents || source !in documents[key].bySource || documents[key].bySource[source] == [] {
        return;
      }
      var state := documents[key];
      documents := documents[key := state.(bySource := state.bySource[source := []])];
      MarkChanged(key);
    }

    method ClearSource(path: string, source: Source)
      requires Valid(Contents())
      modifies this
      ensures Valid(Contents())
      ensures Contents() == SourceCleared(old(Contents()), Normal(path), source)
    {
      hide Normal, Valid, SourceCleared;
      DoKeepsValid(Contents(), Op.ClearSource(path, source));
      var key := NormalizeDocumentPath(path);
      ClearKey(key, source);
    }

    method ClearDocument(path: string)
      requires Valid(Contents())
      modifies this
      ensures Valid(Contents())
      ensures Contents() == DocumentCleared(old(Contents()), Normal(path))
    {
      hide Normal, Valid, SourceCleared;
      DoKeepsValid(Contents(), Op.ClearDocument(path));
      var key := NormalizeDocumentPath(path);
      ClearKey(key, Zls);
      ClearKey(key, ZigCompiler);
      ClearKey(key, GzScript);
    }

    /** The documents are met in an order of the container's choosing. */
    method ClearAllFromSource(source: Source) returns (ghost keys: seq<string>)
      requires Valid(Contents())
      modifies this
      ensures Valid(Contents())
      ensures Contents() == AllCleared(old(Contents()), keys, source)
      ensures forall key :: key in keys <==> key in old(documents)
    {
      var left := documents.Keys;
      keys := [];
      while left != {}
        invariant Contents() == AllCleared(old(Contents()), keys, source)
        invariant forall key :: key in keys <==> key in old(documents) && key !in left
        invariant left <= old(documents).Keys
        decreases left
      {
        var key :| key in left;
        left := left - {key};
        ClearKey(key, source);
        ghost var before := keys;
        keys := keys + [key];
        assert keys[..|keys| - 1] == before;
      }
      AllClearedKeepsValid(old(Contents()), keys, source);
    }

    method RemoveDocument(path: string)
      requires Valid(Contents())
      modifies this
      ensures Valid(Contents())
      ensures Contents() == Removed(old(Contents()), Normal(path))
    {
      hide Normal, Valid;
      DoKeepsValid(Contents(), Remove(path));
      var key := NormalizeDocumentPath(path);
      documents := documents - {key};
      changedSet := changedSet - {key};
      changedOrder := Filter(changedOrder, key);
    }

    method Snapshot(path: string) returns (diagnostics: seq<Diagnostic>)
      ensures diagnostics == Merged(Contents(), Normal(path))
    {
      hide Normal;
      var key := NormalizeDocumentPath(path);
      if key !in documents {
        return [];
      }
      var d := documents[key];
      diagnostics := InsertSort(Batch(d, Zls) + Batch(d, ZigCompiler) + Batch(d, GzScript));
    }

    method TakeChangedDocuments() returns (drained: seq<string>)
      requires Valid(Contents())
      modifies this
      ensures Valid(Contents())
      ensures Contents() == Drained(old(Contents())) && drained == old(changedOrder)
    {
      DoKeepsValid(Contents(), Take);
      drained := changedOrder;
      changedOrder := [];
      changedSet := {};
    }
  }
}
