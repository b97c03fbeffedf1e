/** When an instance can move to a new module, with which state, and where a whole pass leads:
    told by the names and types of properties and by what the native code answers. */
module MigrationOutcome {
  import opened Wrappers
  import opened Migration

  /******* Properties that two modules share *******/

  predicate Shared(current: Module, next: Module, i: nat, j: nat) {
    && i < |current.properties| && j < |next.properties|
    && current.properties[i].name == next.properties[j].name
    && current.properties[i].type_ == next.properties[j].type_
  }

  lemma TargetIff(current: Module, next: Module, i: nat, j: nat)
    requires Loaded(next) && i < |current.properties|
    ensures Target(current, next, i) == Some(j) <==> Shared(current, next, i, j)
  {
    var name := current.properties[i].name;
    if Shared(current, next, i, j) {
      assert next.properties[j].name in next.indices && next.indices[next.properties[j].name] == j;
    }
    if name in next.indices {
      assert next.properties[next.indices[name]].name == name;
    }
  }

  // Every property from `i` on that both modules have can be read, and written there.
  ghost predicate CanCopy(current: Module, next: Module, from: nat, to: nat, a: Answers, i: nat) {
    forall k: nat, j: nat | i <= k && Shared(current, next, k, j) :: k in a.read && k < from && j in a.write && j < to
  }

  lemma {:induction false} CopiesIff(current: Module, next: Module, from: seq<Value>, to: seq<Value>, a: Answers, i: nat)
    requires Loaded(next)
    ensures CopyFrom(current, next, from, to, a, i).Some? <==> CanCopy(current, next, |from|, |to|, a, i)
    decreases |current.properties| - i
  {
    if i < |current.properties| {
      forall j: nat ensures Target(current, next, i) == Some(j) <==> Shared(current, next, i, j) {
        TargetIff(current, next, i, j);
      }
      hide Loaded, Target;
      var t := Target(current, next, i);
      if t.None? {
        CopiesIff(current, next, from, to, a, i + 1);
        assert forall k: nat, j: nat :: i <= k && Shared(current, next, k, j) ==> k != i;
      } else if i in a.read && i < |from| && t.value in a.write && t.value < |to| {
        CopiesIff(current, next, from, to[t.value := from[i]], a, i + 1);
        assert forall j: nat :: Shared(current, next, i, j) ==> j == t.value;
      } else {
        assert Shared(current, next, i, t.value);
      }
    }
  }

  /** An instance can move iff the new module makes a fresh state for it and every property
      whose name and type both modules have can be read from the old state and written to
      the new one. Properties that only one of them has do not matter. */
  lemma MigratesIff(current: Module, next: Module, values: seq<Value>, a: Answers)
    requires Loaded(next)
    ensures Migrated(current, next, values, a).Some? <==>
            && a.created.Some?
            && forall i: nat, j: nat | Shared(current, next, i, j) ::
                 i in a.read && i < |values| && j in a.write && j < |a.created.value|
  {
    hide Loaded, SyncFrom, CopyFrom;
    if a.created.Some? {
      CopiesIff(current, next, values, a.created.value, a, 0);
    }
  }

  /******* The state an instance gets *******/

  // A live object that is not of the class the property asks for.
  predicate WrongClass(p: Property, v: Value, live: map<nat, set<string>>) {
    v.Reference? && v.id != 0 && v.id in live && p.className != "" && p.className !in live[v.id]
  }

  // What synchronising leaves of one value, and what it keeps alive for it.
  ghost predicate Settles(p: Property, was: Value, a: Answers, j: nat, is_: Value, retained: Value) {
    if p.type_ == ObjectType && j in a.reread then
      if WrongClass(p, was, a.live) then
        is_ == (if j in a.rewrite then Reference(0) else was) && retained == Reference(0)
      else
        is_ == was && retained == (if was.Reference? && was.id !in a.live then Reference(0) else was)
    else is_ == was && retained == Reference(0)
  }

  /** A new state is kept as it is, but for live objects of a wrong class, which are taken
      away; what is kept alive for it is exactly the live object each property holds. */
  lemma SyncSettles(m: Module, values: seq<Value>, a: Answers, j: nat)
    requires j < |m.properties| && j < |values|
    ensures var r := SyncFrom(m, Held(values, Nothing(|m.properties|)), a, 0);
            Settles(m.properties[j], values[j], a, j, r.values[j], r.retained[j])
  {
    SyncReaches(m, Held(values, Nothing(|m.properties|)), a, 0, j);
  }

  lemma CopiedValues(current: Module, next: Module, from: seq<Value>, to: seq<Value>, a: Answers)
    requires Loaded(current) && Loaded(next) && CopyFrom(current, next, from, to, a, 0).Some?
    ensures var r := CopyFrom(current, next, from, to, a, 0).value;
            && |r| == |to|
            && (forall i: nat, j: nat | Shared(current, next, i, j) :: i < |from| && j < |r| && r[j] == from[i])
            && (forall j: nat | j < |r| && (forall i: nat :: !Shared(current, next, i, j)) :: r[j] == to[j])
  {
    forall i: nat, j: nat | i < |current.properties|
      ensures Target(current, next, i) == Some(j) <==> Shared(current, next, i, j)
    {
      TargetIff(current, next, i, j);
    }
    hide CopyFrom, Target, Loaded;
    CopyKeepsLength(current, next, from, to, a, 0);
    var r := CopyFrom(current, next, from, to, a, 0).value;
    forall i: nat, j: nat | Shared(current, next, i, j)
      ensures i < |from| && j < |r| && r[j] == from[i]
    {
      CopiesEach(current, next, from, to, a, 0, i);
    }
    forall j: nat | j < |r| && forall i: nat :: !Shared(current, next, i, j)
      ensures r[j] == to[j]
    {
      CopiesNothingElse(current, next, from, to, a, 0, j);
    }
  }

  /** The whole state of an instance that moved: a property that both modules have starts from
      its old value and any other from the fresh one, and each is then settled by its class. */
  lemma MigratedState(current: Module, next: Module, values: seq<Value>, a: Answers)
    requires Loaded(current) && Loaded(next) && Migrated(current, next, values, a).Some?
    ensures var r, start := Migrated(current, next, values, a).value, a.created.value;
            && |r.values| == |start| && |r.retained| == |next.properties|
            && (forall i: nat, j: nat | Shared(current, next, i, j) ::
                  i < |values| && j < |start| && Settles(next.properties[j], values[i], a, j, r.values[j], r.retained[j]))
            && (forall j: nat | j < |next.properties| && j < |start| && (forall i: nat :: !Shared(current, next, i, j)) ::
                  Settles(next.properties[j], start[j], a, j, r.values[j], r.retained[j]))
  {
    hide CopyFrom, SyncFrom, Loaded, Settles;
    CopiedValues(current, next, values, a.created.value, a);
    var copied := CopyFrom(current, next, values, a.created.value, a, 0).value;
    forall j: nat | j < |next.properties| && j < |copied|
      ensures var r := SyncFrom(next, Held(copied, Nothing(|next.properties|)), a, 0);
              Settles(next.properties[j], copied[j], a, j, r.values[j], r.retained[j])
    {
      SyncSettles(next, copied, a, j);
    }
  }

  /******* What one step does *******/

  /** Publishing makes a module the current one at once, and touches no instance; publishing
      nothing does nothing. In the editor the pass that starts lists exactly the instances on
      other modules, and forgets what an earlier one reported. */
  lemma PublishStartsPass(s: State, next: Option<Module>, order: seq<Address>)
    requires Inv(s) && Enabled(s, PublishModule(next, order))
    ensures var r := Do(s, PublishModule(next, order));
            && r.instances == s.instances && r.zig == s.zig
            && (next.None? ==> r == s)
            && (next.Some? ==> r.current == next)
            && (next.Some? && s.editor ==>
                  && r.index == 0 && r.failed == {}
                  && (forall addr :: addr in r.list <==> addr in s.instances && s.instances[addr].module_ != next.value)
                  && (r.refreshing <==> r.list != []))
  {
    hide Inv, Loaded;
    if next.Some? {
      BehindIsExact(order, s.instances, next.value);
    }
    hide Behind;
  }

  /** A new instance is on the current module, with the fresh state settled, if there is a
      module and it makes one; otherwise nothing happens. */
  lemma CreateGives(s: State, addr: Address, a: Answers)
    requires Inv(s) && addr !in s.instances
    ensures var r := Do(s, CreateInstance(addr, a));
            if s.current.None? || a.created.None? then r == s
            else
              var m := s.current.value;
              && r.instances.Keys == s.instances.Keys + {addr} && r.instances[addr].module_ == m
              && r == s.(instances := r.instances, zig := r.zig, nextZig := r.nextZig)
              && |Values(r, r.instances[addr].zig)| == |a.created.value|
              && forall j: nat | j < |m.properties| && j < |a.created.value| ::
                   Settles(m.properties[j], a.created.value[j], a, j, Values(r, r.instances[addr].zig)[j],
                           r.instances[addr].retained[j])
  {
    hide Inv, Settles, SyncFrom;
    if s.current.Some? && a.created.Some? {
      var m := s.current.value;
      forall j: nat | j < |m.properties| && j < |a.created.value|
        ensures var r := SyncFrom(m, Held(a.created.value, Nothing(|m.properties|)), a, 0);
                Settles(m.properties[j], a.created.value[j], a, j, r.values[j], r.retained[j])
      {
        SyncSettles(m, a.created.value, a, j);
      }
    }
  }

  /** Freeing takes away one instance with its Zig instance, and nothing else. */
  lemma FreeTakes(s: State, addr: Address)
    requires Inv(s) && addr in s.instances
    ensures var r := Do(s, FreeInstance(addr));
            && r.instances == s.instances - {addr} && r.failed == s.failed - {addr}
            && r.zig.Keys == s.zig.Keys - {s.instances[addr].zig}
            && r == s.(instances := r.instances, zig := r.zig, failed := r.failed)
  {
    hide Inv;
  }

  /******* A pass in which nothing fails *******/

  // Modules have at most `n` properties, and every instance a value for each of its own.
  ghost predicate Sized(s: State, n: nat) {
    && (s.current.Some? ==> |s.current.value.properties| <= n)
    && forall addr <- s.instances ::
         |Values(s, s.instances[addr].zig)| == |s.instances[addr].module_.properties| <= n
  }

  // The module makes a full state, and all of the first `n` properties can be read and written.
  ghost predicate Healthy(a: Answers, m: Module, n: nat) {
    && a.created.Some? && |a.created.value| == |m.properties|
    && forall i: nat | i < n :: i in a.read && i in a.write
  }

  lemma HealthyMoves(s: State, addr: Address, next: Module, a: Answers, n: nat)
    requires Owned(s) && Formed(s) && Sized(s, n) && addr in s.instances
    requires s.current == Some(next) && Healthy(a, next, n)
    ensures var r := Attempt(s, addr, next, a);
            Sized(r, n) && r.failed == s.failed && r.current == s.current
  {
    var data := s.instances[addr];
    MigratesIff(data.module_, next, Values(s, data.zig), a);
    assert Migrated(data.module_, next, Values(s, data.zig), a).Some?;
    var held := Migrated(data.module_, next, Values(s, data.zig), a).value;
    MigratedLength(data.module_, next, Values(s, data.zig), a);
    hide Migrated, Loaded;
    AdoptKeepsSized(s, addr, next, held, n);
  }

  lemma MigratedLength(current: Module, next: Module, values: seq<Value>, a: Answers)
    requires Migrated(current, next, values, a).Some?
    ensures |Migrated(current, next, values, a).value.values| == |a.created.value|
  {
    hide SyncFrom;
    CopyKeepsLength(current, next, values, a.created.value, a, 0);
  }

  lemma AdoptKeepsSized(s: State, addr: Address, m: Module, held: Held, n: nat)
    requires Owned(s) && Sized(s, n) && |held.values| == |m.properties| <= n
    ensures Sized(Adopt(s, addr, m, held), n)
  {
    var r := Adopt(s, addr, m, held);
    forall other <- r.instances
      ensures |Values(r, r.instances[other].zig)| == |r.instances[other].module_.properties| <= n
    {
      if other != addr {
        AdoptOnlyOne(s, addr, m, held, other);
      }
    }
  }

  lemma {:induction false} WorkMovesAll(s: State, next: Module, answers: Address -> Answers, spent: nat, processed: nat, n: nat)
    requires Working(s, next) && s.index <= |s.list| && Sized(s, n)
    requires forall addr :: Healthy(answers(addr), next, n)
    ensures var r := Work(s, next, answers, spent, processed);
            Sized(r, n) && r.failed == s.failed && r.current == s.current
    decreases |s.list| - s.index
  {
    hide Attempt, Owned, Formed, Tracked, Work, Healthy, Sized, Closing;
    if s.index == |s.list| {
      WorkCloses(s, next, answers, spent, processed);
      ClosingKeepsSized(s, n);
    } else {
      WorkUnfolds(s, next, answers, spent, processed);
      WorkingParts(s, s.index + 1);
      var k := s.list[s.index];
      var s1 := s.(index := s.index + 1);
      SameIsSized(s, s1, n);
      if Skipped(s1, k, next) {
        SkipKeepsWorking(s, next);
        WorkMovesAll(s1, next, answers, spent, processed, n);
      } else {
        AttemptKeepsWorking(s, next, answers(k));
        AttemptKeepsParts(s1, k, next, answers(k));
        HealthyMoves(s1, k, next, answers(k), n);
        var s2 := Attempt(s1, k, next, answers(k));
        if processed + 1 < MIN_BATCH || processed + 1 < spent {
          WorkMovesAll(s2, next, answers, spent, processed + 1, n);
        } else {
          ClosingKeepsSized(s2, n);
        }
      }
    }
  }

  // A step in which nothing fails and nothing is published.
  ghost predicate Succeeds(s: State, op: Op, n: nat) {
    match op
    case PublishModule(_, _) => false
    case Callback(answers, _) => s.current.Some? ==> forall addr :: Healthy(answers(addr), s.current.value, n)
    case CreateInstance(_, a) =>
      s.current.Some? && a.created.Some? ==> |a.created.value| == |s.current.value.properties|
    case FreeInstance(_) => true
  }

  ghost predicate AllSucceed(s: State, ops: seq<Op>, n: nat)
    requires CanRun(s, ops)
    decreases |ops|
  {
    ops != [] ==> Succeeds(s, ops[0], n) && AllSucceed(Do(s, ops[0]), ops[1..], n)
  }

  lemma StepMovesAll(s: State, op: Op, n: nat)
    requires Inv(s) && Enabled(s, op) && Sized(s, n) && Succeeds(s, op, n)
    ensures var r := Do(s, op);
            Sized(r, n) && r.failed <= s.failed && r.current == s.current && r.editor == s.editor
  {
    hide Work, Loaded, Tracked, Formed, Healthy;
    match op
    case Callback(answers, spent) =>
      EditorStays(s, op);
      if s.refreshing {
        RefreshStarts(s);
        WorkMovesAll(s.(calls := 0, scheduled := false), s.pending.value, answers, spent, 0, n);
      }
    case CreateInstance(addr, a) =>
      if s.current.Some? && a.created.Some? {
        var m := s.current.value;
        AdoptKeepsSized(s, addr, m, SyncFrom(m, Held(a.created.value, Nothing(|m.properties|)), a, 0), n);
      }
    case FreeInstance(_) =>
  }

  lemma {:induction false} WorkKeepsEditor(s: State, next: Module, answers: Address -> Answers, spent: nat, processed: nat)
    ensures Work(s, next, answers, spent, processed).editor == s.editor
    decreases |s.list| - s.index
  {
    hide Attempt;
    if s.index < |s.list| {
      var addr := s.list[s.index];
      var s1 := s.(index := s.index + 1);
      if Skipped(s1, addr, next) {
        WorkKeepsEditor(s1, next, answers, spent, processed);
      } else {
        AttemptSameFlags(s1, addr, next, answers(addr));
        WorkKeepsEditor(Attempt(s1, addr, next, answers(addr)), next, answers, spent, processed + 1);
      }
    }
  }

  lemma EditorStays(s: State, op: Op)
    requires Inv(s) && Enabled(s, op) && op.Callback?
    ensures Do(s, op).editor == s.editor
  {
    hide Inv, Work;
    if s.refreshing && s.pending.Some? {
      WorkKeepsEditor(s.(calls := s.calls - 1, scheduled := false), s.pending.value, op.answers, op.spent, 0);
    }
  }

  lemma {:induction false} RunMovesAll(s: State, ops: seq<Op>, n: nat)
    requires Inv(s) && CanRun(s, ops) && Sized(s, n) && AllSucceed(s, ops, n)
    ensures var r := Run(s, ops);
            Sized(r, n) && r.failed <= s.failed && r.current == s.current && r.editor == s.editor
    decreases |ops|
  {
    hide Inv, Do, Sized;
    if ops != [] {
      StepMovesAll(s, ops[0], n);
      StepKeepsInv(s, ops[0]);
      RunMovesAll(Do(s, ops[0]), ops[1..], n);
    }
  }

  lemma {:induction false} NothingPublished(s: State, ops: seq<Op>, n: nat)
    requires CanRun(s, ops) && AllSucceed(s, ops, n)
    ensures forall op <- ops :: !op.PublishModule?
    decreases |ops|
  {
    hide Do;
    if ops != [] {
      NothingPublished(Do(s, ops[0]), ops[1..], n);
      assert forall op <- ops :: op == ops[0] || op in ops[1..];
    }
  }

  /** After a module is published in the editor and nothing fails, enough callbacks move every
      instance that is still alive to that module and report none, however instances come and
      go in between, and whatever properties the modules have. */
  lemma PassMovesAll(s: State, next: Module, order: seq<Address>, ops: seq<Op>, n: nat)
    requires Inv(s) && s.editor && Sized(s, n) && |next.properties| <= n
    requires Enabled(s, PublishModule(Some(next), order))
    requires var published := Do(s, PublishModule(Some(next), order));
             && CanRun(published, ops) && AllSucceed(published, ops, n)
             && 8 * Callbacks(ops) >= |published.list|
    ensures var r := Run(Do(s, PublishModule(Some(next), order)), ops);
            r.failed == {} && !r.refreshing && forall addr <- r.instances :: r.instances[addr].module_ == next
  {
    var published := Do(s, PublishModule(Some(next), order));
    PublishStartsPass(s, Some(next), order);
    StepKeepsInv(s, PublishModule(Some(next), order));
    PublishKeepsEditor(s, next, order);
    hide Inv, Do, Enabled;
    assert Sized(published, n);
    RunMovesAll(published, ops, n);
    NothingPublished(published, ops, n);
    PassEnds(published, ops);
    RunKeepsInv(published, ops);
    NobodyIsBehind(Run(published, ops));
  }

  lemma PublishKeepsEditor(s: State, next: Module, order: seq<Address>)
    ensures Publish(s, Some(next), order).editor == s.editor
  {
    hide Behind;
  }

  lemma NobodyIsBehind(s: State)
    requires Inv(s) && s.editor && !s.refreshing && s.failed == {}
    ensures forall addr <- s.instances :: Current(s, addr)
  {
    assert s.list[s.index..] == [];
  }

  /******* Runs are sized *******/

  // The module makes full states, whether or not an instance then moves.
  ghost predicate Fits(s: State, op: Op, n: nat) {
    match op
    case PublishModule(next, _) => next.Some? ==> |next.value.properties| <= n
    case Callback(answers, _) =>
      s.current.Some? ==> forall addr :: FullState(answers(addr), s.current.value)
    case CreateInstance(_, a) => s.current.Some? ==> FullState(a, s.current.value)
    case FreeInstance(_) => true
  }

  predicate FullState(a: Answers, m: Module) {
    a.created.Some? ==> |a.created.value| == |m.properties|
  }

  ghost predicate AllFit(s: State, ops: seq<Op>, n: nat)
    requires CanRun(s, ops)
    decreases |ops|
  {
    ops != [] ==> Fits(s, ops[0], n) && AllFit(Do(s, ops[0]), ops[1..], n)
  }

  lemma AttemptKeepsSized(s: State, addr: Address, next: Module, a: Answers, n: nat)
    requires Owned(s) && Sized(s, n) && addr in s.instances && FullState(a, next) && |next.properties| <= n
    ensures Sized(Attempt(s, addr, next, a), n)
  {
    var data := s.instances[addr];
    var held := Migrated(data.module_, next, Values(s, data.zig), a);
    if held.Some? {
      MigratedLength(data.module_, next, Values(s, data.zig), a);
      AdoptKeepsSized(s, addr, next, held.value, n);
    }
    hide Migrated, Adopt;
  }

  lemma SameIsSized(s: State, r: State, n: nat)
    requires Sized(s, n) && r.instances == s.instances && r.zig == s.zig && r.current == s.current
    ensures Sized(r, n)
  {
  }

  lemma NextIsSized(s: State, next: Module, n: nat)
    requires Sized(s, n) && s.current == Some(next)
    ensures |next.properties| <= n
  {
  }

  lemma ClosingKeepsSized(s: State, n: nat)
    requires Sized(s, n)
    ensures Sized(Closing(s), n) && Closing(s).failed == s.failed && Closing(s).current == s.current
  {
    SameIsSized(s, Closing(s), n);
  }

  lemma {:induction false} WorkKeepsSized(s: State, next: Module, answers: Address -> Answers, spent: nat, processed: nat, n: nat)
    requires Working(s, next) && s.index <= |s.list| && Sized(s, n) && forall addr :: FullState(answers(addr), next)
    ensures Sized(Work(s, next, answers, spent, processed), n)
    decreases |s.list| - s.index
  {
    hide Attempt, Owned, Formed, Tracked, Work, FullState, Sized, Closing;
    if s.index == |s.list| {
      WorkCloses(s, next, answers, spent, processed);
      ClosingKeepsSized(s, n);
    } else {
      WorkUnfolds(s, next, answers, spent, processed);
      WorkingParts(s, s.index + 1);
      var k := s.list[s.index];
      var s1 := s.(index := s.index + 1);
      SameIsSized(s, s1, n);
      if Skipped(s1, k, next) {
        SkipKeepsWorking(s, next);
        WorkKeepsSized(s1, next, answers, spent, processed, n);
      } else {
        AttemptKeepsWorking(s, next, answers(k));
        AttemptKeepsParts(s1, k, next, answers(k));
        NextIsSized(s, next, n);
        AttemptKeepsSized(s1, k, next, answers(k), n);
        var s2 := Attempt(s1, k, next, answers(k));
        if processed + 1 < MIN_BATCH || processed + 1 < spent {
          WorkKeepsSized(s2, next, answers, spent, processed + 1, n);
        } else {
          ClosingKeepsSized(s2, n);
        }
      }
    }
  }

  lemma StepKeepsSized(s: State, op: Op, n: nat)
    requires Inv(s) && Enabled(s, op) && Sized(s, n) && Fits(s, op, n)
    ensures Sized(Do(s, op), n)
  {
    hide Work, Loaded, Tracked, Formed;
    match op
    case PublishModule(next, order) =>
      PublishStartsPass(s, next, order);
    case Callback(answers, spent) =>
      if s.refreshing {
        RefreshStarts(s);
        WorkKeepsSized(s.(calls := 0, scheduled := false), s.pending.value, answers, spent, 0, n);
      }
    case CreateInstance(addr, a) =>
      if s.current.Some? && a.created.Some? {
        var m := s.current.value;
        AdoptKeepsSized(s, addr, m, SyncFrom(m, Held(a.created.value, Nothing(|m.properties|)), a, 0), n);
      }
    case FreeInstance(_) =>
  }

  /** In every run in which modules make full states, every instance has a value for each
      property of its module. */
  lemma {:induction false} RunsAreSized(s: State, ops: seq<Op>, n: nat)
    requires Inv(s) && Sized(s, n) && CanRun(s, ops) && AllFit(s, ops, n)
    ensures Inv(Run(s, ops)) && Sized(Run(s, ops), n)
    decreases |ops|
  {
    hide Inv, Do, Sized, Fits;
    if ops != [] {
      StepKeepsSized(s, ops[0], n);
      StepKeepsInv(s, ops[0]);
      RunsAreSized(Do(s, ops[0]), ops[1..], n);
    }
  }

  /******* How much one callback does *******/

  // The instances that a step has moved or reported.
  ghost function Touched(s: State, r: State): set<Address> {
    set addr <- s.instances |
      !(addr in r.instances && r.instances[addr] == s.instances[addr] && (addr in r.failed ==> addr in s.failed))
  }

  lemma AttemptTouchesOne(s: State, addr: Address, next: Module, a: Answers)
    requires addr in s.instances
    ensures Touched(s, Attempt(s, addr, next, a)) <= {addr}
  {
    hide Migrated;
  }

  lemma TouchedAdds(s: State, m: State, r: State)
    requires m.instances.Keys == s.instances.Keys
    ensures Touched(s, r) <= Touched(s, m) + Touched(m, r)
  {
  }

  lemma Subset(a: set<Address>, b: set<Address>, n: nat)
    requires a <= b && |b| <= n
    ensures |a| <= n
  {
    if a != b {
      assert a + (b - a) == b;
    }
  }

  function Max(a: nat, b: nat): nat {
    if a < b then b else a
  }

  lemma {:induction false} WorkIsBounded(s: State, next: Module, answers: Address -> Answers, spent: nat, processed: nat)
    requires Working(s, next) && s.index <= |s.list| && (processed < MIN_BATCH || processed < spent)
    ensures processed + |Touched(s, Work(s, next, answers, spent, processed))| <= Max(MIN_BATCH, spent)
    decreases |s.list| - s.index
  {
    hide Attempt, Owned, Formed, Tracked, Work, Touched;
    var r := Work(s, next, answers, spent, processed);
    if s.index == |s.list| {
      WorkCloses(s, next, answers, spent, processed);
      NothingTouched(s, r);
    } else {
      WorkUnfolds(s, next, answers, spent, processed);
      WorkingParts(s, s.index + 1);
      var k := s.list[s.index];
      var s1 := s.(index := s.index + 1);
      if Skipped(s1, k, next) {
        SkipKeepsWorking(s, next);
        WorkIsBounded(s1, next, answers, spent, processed);
        SameTouched(s, s1, r);
      } else {
        AttemptKeepsWorking(s, next, answers(k));
        AttemptKeepsParts(s1, k, next, answers(k));
        var s2 := Attempt(s1, k, next, answers(k));
        AttemptTouchesOne(s1, k, next, answers(k));
        TouchedAdds(s1, s2, r);
        SameTouched(s, s1, r);
        if processed + 1 < MIN_BATCH || processed + 1 < spent {
          WorkIsBounded(s2, next, answers, spent, processed + 1);
        } else {
          NothingTouched(s2, r);
        }
        Subset(Touched(s1, s2), {k}, 1);
        Subset(Touched(s1, r), Touched(s1, s2) + Touched(s2, r), 1 + |Touched(s2, r)|);
      }
    }
  }

  lemma NothingTouched(s: State, r: State)
    requires r.instances == s.instances && r.failed == s.failed
    ensures Touched(s, r) == {}
  {
  }

  lemma SameTouched(s: State, s1: State, r: State)
    requires s1.instances == s.instances && s1.failed == s.failed
    ensures Touched(s1, r) == Touched(s, r)
  {
  }

  /** One callback moves or reports at most eight instances, or as many as fit into its time. */
  lemma CallbackIsBounded(s: State, answers: Address -> Answers, spent: nat)
    requires Inv(s) && Enabled(s, Callback(answers, spent))
    ensures |Touched(s, Do(s, Callback(answers, spent)))| <= Max(8, spent)
  {
    hide Work, Loaded, Tracked, Formed, Owned, Touched;
    var s1 := s.(calls := s.calls - 1, scheduled := false);
    if s.refreshing {
      RefreshStarts(s);
      WorkIsBounded(s1, s.pending.value, answers, spent, 0);
      SameTouched(s, s1, Do(s, Callback(answers, spent)));
    } else {
      NothingTouched(s, Do(s, Callback(answers, spent)));
    }
  }
}
