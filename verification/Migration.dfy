/** Live migration of editor instances: a script publishes a newly compiled module at once
    and moves its instances over later, a few in each deferred callback, while instances
    come and go and still newer modules are published. */
module Migration {
  import opened Wrappers

  /******* Compiled modules *******/

  datatype ValueType = Plain(tag: nat) | ObjectType

  datatype Value = Datum(tag: nat, data: int) | Reference(id: nat)

  datatype Property = Property(name: string, type_: ValueType, className: string)

  // `kind` 0 is a property; the rest are headings.
  datatype Entry = Entry(kind: nat, index: nat)

  const PROPERTY_ENTRY := 0
  const LAST_ENTRY_KIND := 3

  // `id` stands for the identity of the loaded library.
  datatype Module = Module(id: nat, properties: seq<Property>, indices: map<string, nat>)

  ghost predicate LayoutOk(entries: seq<Entry>, count: nat) {
    && (forall e <- entries :: e.kind <= LAST_ENTRY_KIND)
    && (forall e <- entries :: e.kind == PROPERTY_ENTRY ==> e.index < count)
    && (forall j: nat, k: nat | j < k < |entries| && entries[j].kind == entries[k].kind == PROPERTY_ENTRY ::
          entries[j].index != entries[k].index)
    && (forall i: nat | i < count :: Listed(entries, i))
  }

  ghost predicate Listed(entries: seq<Entry>, i: nat) {
    exists e <- entries :: e == Entry(PROPERTY_ENTRY, i)
  }

  ghost predicate UniqueNames(properties: seq<Property>) {
    forall j: nat, k: nat | j < k < |properties| :: properties[j].name != properties[k].name
  }

  // The index of a loaded module leads from every name to the one property of that name.
  ghost predicate Loaded(m: Module) {
    && UniqueNames(m.properties)
    && (forall i: nat | i < |m.properties| ::
          m.properties[i].name in m.indices && m.indices[m.properties[i].name] == i)
    && (forall name <- m.indices ::
          m.indices[name] < |m.properties| && m.properties[m.indices[name]].name == name)
  }

  /** Checks the Inspector layout: every property is listed, and listed once. */
  method CheckLayout(entries: seq<Entry>, count: nat) returns (ok: bool)
    ensures ok <==> LayoutOk(entries, count)
  {
    var listed := new bool[count](_ => false);
    for k := 0 to |entries|
      invariant forall e <- entries[..k] :: e.kind <= LAST_ENTRY_KIND
      invariant forall e <- entries[..k] :: e.kind == PROPERTY_ENTRY ==> e.index < count && listed[e.index]
      invariant forall i: nat, j: nat | i < j < k && entries[i].kind == entries[j].kind == PROPERTY_ENTRY ::
                  entries[i].index != entries[j].index
      invariant forall i: nat | i < count && listed[i] :: Entry(PROPERTY_ENTRY, i) in entries[..k]
    {
      var entry := entries[k];
      assert entries[..k + 1] == entries[..k] + [entry];
      if entry.kind > LAST_ENTRY_KIND {
        assert entry in entries;
        return false;
      }
      if entry.kind == PROPERTY_ENTRY {
        if entry.index >= count {
          assert entry in entries;
          return false;
        }
        if listed[entry.index] {
          assert Entry(PROPERTY_ENTRY, entry.index) in entries[..k];
          return false;
        }
        listed[entry.index] := true;
      }
    }
    for i := 0 to count
      invariant forall j: nat | j < i :: listed[j]
    {
      if !listed[i] {
        assert !Listed(entries, i);
        return false;
      }
    }
    assert entries[..|entries|] == entries;
    forall i: nat | i < count ensures Listed(entries, i) {
      assert listed[i];
    }
    return true;
  }

  /** Loads exactly the libraries whose layout is complete and whose names are unique. */
  method Load(id: nat, properties: seq<Property>, entries: seq<Entry>) returns (m: Option<Module>)
    ensures m.Some? <==> LayoutOk(entries, |properties|) && UniqueNames(properties)
    ensures m.Some? ==> m.value.id == id && m.value.properties == properties && Loaded(m.value)
  {
    var ok := CheckLayout(entries, |properties|);
    if !ok {
      return None;
    }
    var indices: map<string, nat> := map[];
    for i := 0 to |properties|
      invariant forall j: nat | j < i :: properties[j].name in indices && indices[properties[j].name] == j
      invariant forall name <- indices :: indices[name] < i && properties[indices[name]].name == name
    {
      if properties[i].name in indices {
        assert properties[indices[properties[i].name]].name == properties[i].name;
        return None;
      }
      indices := indices[properties[i].name := i];
    }
    return Some(Module(id, properties, indices));
  }

  function FindProperty(m: Module, name: string): Option<nat> {
    if name in m.indices then Some(m.indices[name]) else None
  }

  /******* Moving one instance *******/

  // What the native code and the object database answer while one instance is handled:
  // the fresh Zig state, the properties that can be read from the old one and written to
  // the new one, the same for the synchronisation that follows, and the live objects with
  // the classes each belongs to.
  datatype Answers = Answers(created: Option<seq<Value>>, read: set<nat>, write: set<nat>,
                             reread: set<nat>, rewrite: set<nat>, live: map<nat, set<string>>)

  // A Zig state and the objects its owner keeps alive for it.
  datatype Held = Held(values: seq<Value>, retained: seq<Value>)

  // The property of `next` that takes the value of property `i` of `current`.
  function Target(current: Module, next: Module, i: nat): Option<nat>
    requires i < |current.properties|
  {
    var p := current.properties[i];
    match FindProperty(next, p.name)
    case None => None
    case Some(j) => if j < |next.properties| && next.properties[j].type_ == p.type_ then Some(j) else None
  }

  function CopyFrom(current: Module, next: Module, from: seq<Value>, to: seq<Value>, a: Answers, i: nat): Option<seq<Value>>
    decreases |current.properties| - i
  {
    if i >= |current.properties| then Some(to)
    else
      match Target(current, next, i)
      case None => CopyFrom(current, next, from, to, a, i + 1)
      case Some(j) =>
        if i !in a.read || i >= |from| || j !in a.write || j >= |to| then None
        else CopyFrom(current, next, from, to[j := from[i]], a, i + 1)
  }

  // The object a value refers to; 0 when there is none, or it is gone.
  function Seen(v: Value, a: Answers): nat {
    if v.Reference? && v.id in a.live then v.id else 0
  }

  predicate Incompatible(p: Property, v: Value, a: Answers) {
    var seen := Seen(v, a);
    seen != 0 && p.className != "" && p.className !in a.live[seen]
  }

  function ToVariant(v: Value, a: Answers): Value {
    if v.Reference? then Reference(Seen(v, a)) else v
  }

  function SyncOne(m: Module, h: Held, a: Answers, i: nat): Held
    requires i < |m.properties| == |h.retained|
  {
    var p := m.properties[i];
    if p.type_ != ObjectType || i !in a.reread || i >= |h.values| then h
    else if Incompatible(p, h.values[i], a) then
      if i in a.rewrite then h.(values := h.values[i := Reference(Seen(h.retained[i], a))]) else h
    else h.(retained := h.retained[i := ToVariant(h.values[i], a)])
  }

  function SyncFrom(m: Module, h: Held, a: Answers, i: nat): (r: Held)
    requires |m.properties| == |h.retained|
    ensures |r.values| == |h.values| && |r.retained| == |h.retained|
    decreases |m.properties| - i
  {
    if i >= |m.properties| then h else SyncFrom(m, SyncOne(m, h, a, i), a, i + 1)
  }

  function Nothing(n: nat): seq<Value> {
    seq(n, _ => Reference(0))
  }

  // The state an instance of `current` gets when it moves to `next`, unless it cannot move.
  function Migrated(current: Module, next: Module, values: seq<Value>, a: Answers): Option<Held> {
    match a.created
    case None => None
    case Some(start) =>
      match CopyFrom(current, next, values, start, a, 0)
      case None => None
      case Some(copied) => Some(SyncFrom(next, Held(copied, Nothing(|next.properties|)), a, 0))
  }

  lemma TargetsDiffer(current: Module, next: Module, i: nat, k: nat)
    requires Loaded(current) && Loaded(next)
    requires i < |current.properties| && k < |current.properties| && i != k
    ensures Target(current, next, i).Some? ==> Target(current, next, i) != Target(current, next, k)
  {
    assert current.properties[i].name != current.properties[k].name;
  }

  // The copying loop has an answer for each property it is still to look at.
  lemma CopyNext(current: Module, next: Module, from: seq<Value>, to: seq<Value>, a: Answers, i: nat)
    requires i < |current.properties| && CopyFrom(current, next, from, to, a, i).Some?
    ensures match Target(current, next, i)
            case None => CopyFrom(current, next, from, to, a, i) == CopyFrom(current, next, from, to, a, i + 1)
            case Some(j) =>
              && i < |from| && j < |to|
              && CopyFrom(current, next, from, to, a, i) == CopyFrom(current, next, from, to[j := from[i]], a, i + 1)
  {
    hide Target;
  }

  /** The copying loop leaves alone what no property it looks at is copied to. */
  lemma {:induction false} CopiesNothingElse(current: Module, next: Module, from: seq<Value>, to: seq<Value>,
                                             a: Answers, i: nat, j: nat)
    requires CopyFrom(current, next, from, to, a, i).Some? && j < |to|
    requires forall k: nat | i <= k < |current.properties| :: Target(current, next, k) != Some(j)
    ensures var r := CopyFrom(current, next, from, to, a, i).value; |r| == |to| && r[j] == to[j]
    decreases |current.properties| - i
  {
    hide Target;
    if i < |current.properties| {
      CopyNext(current, next, from, to, a, i);
      var t := Target(current, next, i);
      CopiesNothingElse(current, next, from, if t.Some? then to[t.value := from[i]] else to, a, i + 1, j);
    }
  }

  /** The copying loop copies every property that the other module also has. */
  lemma {:induction false} CopiesEach(current: Module, next: Module, from: seq<Value>, to: seq<Value>, a: Answers,
                                      i: nat, k: nat)
    requires Loaded(current) && Loaded(next) && i <= k < |current.properties|
    requires CopyFrom(current, next, from, to, a, i).Some? && Target(current, next, k).Some?
    ensures var r, j := CopyFrom(current, next, from, to, a, i).value, Target(current, next, k).value;
            k < |from| && j < |r| && r[j] == from[k]
    decreases k - i
  {
    CopyNext(current, next, from, to, a, i);
    var t := Target(current, next, i);
    var copied := if t.Some? then to[t.value := from[i]] else to;
    if i < k {
      hide Target, Loaded;
      CopiesEach(current, next, from, copied, a, i + 1, k);
    } else {
      forall other: nat | i < other < |current.properties| ensures Target(current, next, other) != t {
        TargetsDiffer(current, next, i, other);
      }
      hide Target, Loaded;
      CopiesNothingElse(current, next, from, copied, a, i + 1, t.value);
    }
  }

  lemma {:induction false} CopyKeepsLength(current: Module, next: Module, from: seq<Value>, to: seq<Value>, a: Answers, i: nat)
    requires CopyFrom(current, next, from, to, a, i).Some?
    ensures |CopyFrom(current, next, from, to, a, i).value| == |to|
    decreases |current.properties| - i
  {
    hide Target;
    if i < |current.properties| {
      CopyNext(current, next, from, to, a, i);
      var t := Target(current, next, i);
      CopyKeepsLength(current, next, from, if t.Some? then to[t.value := from[i]] else to, a, i + 1);
    }
  }

  // Synchronising touches an object property only to take an incompatible object away.
  lemma {:induction false} SyncKeeps(m: Module, h: Held, a: Answers, i: nat, j: nat)
    requires |m.properties| == |h.retained| && j < |h.values|
    requires j < |m.properties| ==> m.properties[j].type_ != ObjectType || !Incompatible(m.properties[j], h.values[j], a)
    ensures SyncFrom(m, h, a, i).values[j] == h.values[j]
    decreases |m.properties| - i
  {
    if i < |m.properties| {
      SyncKeeps(m, SyncOne(m, h, a, i), a, i + 1, j);
    }
  }

  lemma {:induction false} SyncLeaves(m: Module, h: Held, a: Answers, i: nat, j: nat)
    requires |m.properties| == |h.retained| && j < i && j < |m.properties|
    ensures var r := SyncFrom(m, h, a, i);
            r.retained[j] == h.retained[j] && (j < |h.values| ==> r.values[j] == h.values[j])
    decreases |m.properties| - i
  {
    if i < |m.properties| {
      SyncLeaves(m, SyncOne(m, h, a, i), a, i + 1, j);
    }
  }

  lemma {:induction false} SyncReaches(m: Module, h: Held, a: Answers, i: nat, j: nat)
    requires |m.properties| == |h.retained| && i <= j < |m.properties|
    ensures var r := SyncFrom(m, h, a, i);
            var one := SyncOne(m, h, a, j);
            r.retained[j] == one.retained[j] && (j < |h.values| ==> r.values[j] == one.values[j])
    decreases j - i
  {
    var one := SyncOne(m, h, a, i);
    if i == j {
      SyncLeaves(m, one, a, i + 1, j);
    } else {
      SyncReaches(m, one, a, i + 1, j);
    }
  }

  /** Synchronising leaves an object property that can be read and written holding an
      object of its class or none, and retained is exactly the object it holds, when the
      one retained before was itself of the class. */
  lemma RetainsWhatIsHeld(m: Module, h: Held, a: Answers, j: nat)
    requires |m.properties| == |h.retained| && j < |m.properties| && j < |h.values|
    requires m.properties[j].type_ == ObjectType && j in a.reread && j in a.rewrite
    requires !Incompatible(m.properties[j], h.retained[j], a)
    ensures var r := SyncFrom(m, h, a, 0);
            && Seen(r.retained[j], a) == Seen(r.values[j], a)
            && !Incompatible(m.properties[j], r.values[j], a)
  {
    SyncReaches(m, h, a, 0, j);
  }

  /** A migrated instance has the value of every property whose name and type the two
      modules share, unless it is an object that is not of the class the new module asks
      for; every other property starts as the new module creates it, with the same
      exception. */
  lemma CarriesOver(current: Module, next: Module, values: seq<Value>, a: Answers)
    requires Loaded(current) && Loaded(next) && Migrated(current, next, values, a).Some?
    ensures var r := Migrated(current, next, values, a).value.values;
            && |r| == |a.created.value|
            && (forall k: nat | k < |current.properties| && Target(current, next, k).Some? ::
                  var j := Target(current, next, k).value;
                  && k < |values| && j < |r|
                  && (next.properties[j].type_ != ObjectType || !Incompatible(next.properties[j], values[k], a)
                      ==> r[j] == values[k]))
            && (forall j: nat | j < |r| && j < |next.properties| &&
                  (forall k: nat | k < |current.properties| :: Target(current, next, k) != Some(j)) ::
                  next.properties[j].type_ != ObjectType || !Incompatible(next.properties[j], a.created.value[j], a)
                  ==> r[j] == a.created.value[j])
  {
    hide CopyFrom, SyncFrom, Loaded, Target, Incompatible;
    var start := a.created.value;
    var copied := CopyFrom(current, next, values, start, a, 0).value;
    CopyKeepsLength(current, next, values, start, a, 0);
    var h := Held(copied, Nothing(|next.properties|));
    forall k: nat | k < |current.properties| && Target(current, next, k).Some?
      ensures k < |values| && Target(current, next, k).value < |copied| && copied[Target(current, next, k).value] == values[k]
    {
      CopiesEach(current, next, values, start, a, 0, k);
    }
    forall j: nat | j < |copied| && forall k: nat | k < |current.properties| :: Target(current, next, k) != Some(j)
      ensures copied[j] == start[j]
    {
      CopiesNothingElse(current, next, values, start, a, 0, j);
    }
    forall j: nat | j < |copied| && j < |next.properties| &&
                    (next.properties[j].type_ != ObjectType || !Incompatible(next.properties[j], copied[j], a))
      ensures SyncFrom(next, h, a, 0).values[j] == copied[j]
    {
      SyncKeeps(next, h, a, 0, j);
    }
    TargetsFit(current, next);
  }

  lemma TargetsFit(current: Module, next: Module)
    ensures forall k: nat | k < |current.properties| && Target(current, next, k).Some? ::
              Target(current, next, k).value < |next.properties|
  {
  }

  /******* The script and its instances *******/

  type Address = nat

  datatype Instance = Instance(module_: Module, zig: nat, retained: seq<Value>)

  // `calls` counts the deferred calls the engine still has to make, `zig` holds the Zig
  // instances that were created and not destroyed, and `failed` the instances reported as
  // not having moved to the current module.
  datatype State = State(editor: bool, current: Option<Module>, pending: Option<Module>, refreshing: bool,
                         scheduled: bool, calls: nat, list: seq<Address>, index: nat,
                         instances: map<Address, Instance>, zig: map<nat, seq<Value>>, nextZig: nat,
                         failed: set<Address>)

  const MIN_BATCH := 8

  function Fresh(editor: bool): State {
    State(editor, None, None, false, false, 0, [], 0, map[], map[], 0, {})
  }

  function Values(s: State, zig: nat): seq<Value> {
    if zig in s.zig then s.zig[zig] else []
  }

  function Schedule(s: State): State {
    if s.scheduled || !s.refreshing || s.pending.None? then s
    else s.(scheduled := true, calls := s.calls + 1)
  }

  // The addresses of `order` whose instances are not on `next`.
  function Behind(order: seq<Address>, instances: map<Address, Instance>, next: Module): seq<Address> {
    if order == [] then []
    else
      var rest := Behind(order[..|order| - 1], instances, next);
      var last := order[|order| - 1];
      if last in instances && instances[last].module_ != next then rest + [last] else rest
  }

  function Publish(s: State, next: Option<Module>, order: seq<Address>): State {
    if next.None? then s
    else if !s.editor then s.(current := next)
    else
      var list := Behind(order, s.instances, next.value);
      var s1 := s.(current := next, list := list, index := 0, failed := {});
      if list == [] then s1.(pending := None, refreshing := false)
      else Schedule(s1.(pending := next, refreshing := true))
  }

  // The instance at `addr` gets a new Zig instance, in the place of the one it had.
  function Adopt(s: State, addr: Address, m: Module, held: Held): State {
    var had := if addr in s.instances then {s.instances[addr].zig} else {};
    s.(instances := s.instances[addr := Instance(m, s.nextZig, held.retained)],
       zig := s.zig[s.nextZig := held.values] - had, nextZig := s.nextZig + 1)
  }

  // One instance: moved, or reported and left as it was.
  function Attempt(s: State, addr: Address, next: Module, a: Answers): State
    requires addr in s.instances
  {
    var data := s.instances[addr];
    match Migrated(data.module_, next, Values(s, data.zig), a)
    case None =>
      s.(failed := s.failed + {addr}, nextZig := if a.created.Some? then s.nextZig + 1 else s.nextZig)
    case Some(held) => Adopt(s, addr, next, held)
  }

  function Ended(s: State): State {
    s.(refreshing := false, pending := None, list := [], index := 0)
  }

  // What a callback leaves behind: another callback, or the end of the pass.
  function Closing(s: State): State {
    if s.index < |s.list| then Schedule(s) else Ended(s)
  }

  predicate Skipped(s: State, addr: Address, next: Module) {
    addr !in s.instances || s.instances[addr].module_ == next
  }

  // The loop of one callback; `spent` instances use up the time budget.
  function Work(s: State, next: Module, answers: Address -> Answers, spent: nat, processed: nat): State
    decreases |s.list| - s.index
  {
    if s.index >= |s.list| then Ended(s)
    else
      var addr := s.list[s.index];
      var s1 := s.(index := s.index + 1);
      if Skipped(s1, addr, next) then Work(s1, next, answers, spent, processed)
      else
        var s2 := Attempt(s1, addr, next, answers(addr));
        if processed + 1 >= MIN_BATCH && processed + 1 >= spent then
          Closing(s2)
        else Work(s2, next, answers, spent, processed + 1)
  }

  function Apply(s: State, answers: Address -> Answers, spent: nat): State {
    var s1 := s.(scheduled := false);
    if !s.refreshing || s.pending.None? then s1 else Work(s1, s.pending.value, answers, spent, 0)
  }

  function Create(s: State, addr: Address, a: Answers): State {
    if s.current.None? || a.created.None? then s
    else
      var m := s.current.value;
      var held := SyncFrom(m, Held(a.created.value, Nothing(|m.properties|)), a, 0);
      Adopt(s, addr, m, held)
  }

  function Free(s: State, addr: Address): State
    requires addr in s.instances
  {
    s.(instances := s.instances - {addr}, zig := s.zig - {s.instances[addr].zig}, failed := s.failed - {addr})
  }

  /******* Runs *******/

  // `order` is the order in which a publication meets the live instances.
  datatype Op =
    | PublishModule(next: Option<Module>, order: seq<Address>)
    | Callback(answers: Address -> Answers, spent: nat)
    | CreateInstance(addr: Address, created: Answers)
    | FreeInstance(addr: Address)

  ghost predicate Distinct(order: seq<Address>) {
    forall i: nat, j: nat | i < j < |order| :: order[i] != order[j]
  }

  // A callback runs only when one was deferred, and an address is given out when free.
  ghost predicate Enabled(s: State, op: Op) {
    match op
    case PublishModule(next, order) =>
      && (next.Some? ==> Loaded(next.value))
      && Distinct(order) && (forall addr :: addr in order <==> addr in s.instances)
    case Callback(_, _) => s.calls > 0
    case CreateInstance(addr, _) => addr !in s.instances
    case FreeInstance(addr) => addr in s.instances
  }

  function Do(s: State, op: Op): State
    requires op.FreeInstance? ==> op.addr in s.instances
    requires op.Callback? ==> s.calls > 0
  {
    match op
    case PublishModule(next, order) => Publish(s, next, order)
    case Callback(answers, spent) => Apply(s.(calls := s.calls - 1), answers, spent)
    case CreateInstance(addr, created) => Create(s, addr, created)
    case FreeInstance(addr) => Free(s, addr)
  }

  ghost predicate CanRun(s: State, ops: seq<Op>)
    decreases |ops|
  {
    ops != [] ==> Enabled(s, ops[0]) && CanRun(Do(s, ops[0]), ops[1..])
  }

  ghost function Run(s: State, ops: seq<Op>): State
    requires CanRun(s, ops)
    decreases |ops|
  {
    if ops == [] then s else Run(Do(s, ops[0]), ops[1..])
  }

  /******* What every run keeps *******/

  // Zig instances are exactly those of the live instances, one each.
  ghost predicate Owned(s: State) {
    && (forall addr <- s.instances :: s.instances[addr].zig in s.zig)
    && (forall z <- s.zig :: z < s.nextZig && exists addr <- s.instances :: s.instances[addr].zig == z)
    && (forall a1 <- s.instances, a2 <- s.instances | a1 != a2 :: s.instances[a1].zig != s.instances[a2].zig)
  }

  ghost predicate Formed(s: State) {
    && (s.current.Some? ==> Loaded(s.current.value))
    && (s.current.None? ==> s.instances == map[])
    && (forall addr <- s.instances ::
          && Loaded(s.instances[addr].module_)
          && |s.instances[addr].retained| == |s.instances[addr].module_.properties|)
  }

  ghost predicate Current(s: State, addr: Address)
    requires addr in s.instances
  {
    s.current == Some(s.instances[addr].module_)
  }

  // Every instance that is not on the current module is still to come or was reported.
  ghost predicate Tracked(s: State) {
    && Distinct(s.list) && s.index <= |s.list|
    && s.failed <= s.instances.Keys
    && (forall addr <- s.failed :: !Current(s, addr) && addr !in s.list[s.index..])
    && (forall addr <- s.instances :: !Current(s, addr) ==> addr in s.failed || addr in s.list[s.index..])
  }

  // Between operations: a pending refresh has work left and one callback on its way.
  ghost predicate Inv(s: State) {
    && Owned(s) && Formed(s)
    && (s.editor ==> Tracked(s))
    && s.calls == (if s.scheduled then 1 else 0)
    && (s.refreshing ==> s.editor && s.scheduled && s.pending.Some? && s.pending == s.current && s.index < |s.list|)
    && (!s.refreshing ==> s.pending.None? && s.index == |s.list|)
  }

  /******* One step keeps the invariant *******/

  lemma {:induction false} BehindIsExact(order: seq<Address>, instances: map<Address, Instance>, next: Module)
    ensures var r := Behind(order, instances, next);
            && (forall addr :: addr in r <==> addr in order && addr in instances && instances[addr].module_ != next)
            && (Distinct(order) ==> Distinct(r))
  {
    if order != [] {
      var front, last := order[..|order| - 1], order[|order| - 1];
      assert order == front + [last];
      BehindIsExact(front, instances, next);
      if Distinct(order) {
        assert last !in front;
      }
    }
  }

  lemma SnapshotTracks(s: State, next: Module, order: seq<Address>)
    requires s.failed == {} && s.index == 0 && s.current == Some(next) && s.list == Behind(order, s.instances, next)
    requires Distinct(order) && forall addr :: addr in order <==> addr in s.instances
    ensures Tracked(s)
  {
    BehindIsExact(order, s.instances, next);
    assert s.list[0..] == s.list;
  }

  lemma SameInstances(s: State, r: State)
    requires Owned(s) && Formed(s) && r.current.Some? && Loaded(r.current.value)
    requires r.instances == s.instances && r.zig == s.zig && r.nextZig == s.nextZig
    ensures Owned(r) && Formed(r)
  {
    hide Loaded;
  }

  lemma PublishInEditor(s: State, next: Option<Module>, order: seq<Address>)
    requires Inv(s) && Enabled(s, PublishModule(next, order)) && next.Some? && s.editor
    ensures Inv(Publish(s, next, order))
  {
    hide Loaded, Behind;
    var r := Publish(s, next, order);
    SnapshotTracks(r, next.value, order);
    SameInstances(s, r);
    hide Tracked, Owned, Formed;
  }

  lemma PublishKeepsInv(s: State, next: Option<Module>, order: seq<Address>)
    requires Inv(s) && Enabled(s, PublishModule(next, order))
    ensures Inv(Publish(s, next, order))
  {
    if next.Some? {
      if s.editor {
        PublishInEditor(s, next, order);
        hide Inv;
      } else {
        SameInstances(s, Publish(s, next, order));
        hide Owned, Formed, Loaded;
      }
    }
  }

  // Within a callback: everything but the flags that the callback is about to settle.
  ghost predicate Working(s: State, next: Module) {
    && Owned(s) && Formed(s) && Tracked(s)
    && s.editor && s.refreshing && s.pending == s.current == Some(next)
    && !s.scheduled && s.calls == 0
  }

  lemma SkipKeepsWorking(s: State, next: Module)
    requires Working(s, next) && s.index < |s.list| && Skipped(s, s.list[s.index], next)
    ensures Working(s.(index := s.index + 1), next)
  {
    assert s.list[s.index..] == [s.list[s.index]] + s.list[s.index + 1..];
  }

  lemma AdoptOwns(s: State, addr: Address, m: Module, held: Held)
    requires Owned(s)
    ensures Owned(Adopt(s, addr, m, held))
  {
    var r := Adopt(s, addr, m, held);
    forall z <- r.zig ensures z < r.nextZig && exists b <- r.instances :: r.instances[b].zig == z {
      if z == s.nextZig {
        assert r.instances[addr].zig == z;
      } else {
        var b :| b in s.instances && s.instances[b].zig == z;
        assert r.instances[b].zig == z;
      }
    }
  }

  lemma AdoptForms(s: State, addr: Address, held: Held)
    requires Formed(s) && s.current.Some? && |held.retained| == |s.current.value.properties|
    ensures Formed(Adopt(s, addr, s.current.value, held))
  {
    hide Loaded;
  }

  lemma AdoptTracks(s: State, addr: Address, held: Held)
    requires Tracked(s) && s.current.Some? && addr !in s.failed
    ensures Tracked(Adopt(s, addr, s.current.value, held))
  {
  }

  lemma MigratedFits(current: Module, next: Module, values: seq<Value>, a: Answers)
    requires Migrated(current, next, values, a).Some?
    ensures |Migrated(current, next, values, a).value.retained| == |next.properties|
  {
    hide CopyFrom;
  }

  lemma FailureKeepsParts(s: State, failed: set<Address>, nextZig: nat)
    requires Owned(s) && Formed(s) && s.nextZig <= nextZig
    ensures Owned(s.(failed := failed, nextZig := nextZig)) && Formed(s.(failed := failed, nextZig := nextZig))
  {
    hide Loaded;
  }

  lemma AttemptOwnsAndForms(s: State, addr: Address, next: Module, a: Answers)
    requires Owned(s) && Formed(s) && addr in s.instances && s.current == Some(next)
    ensures Owned(Attempt(s, addr, next, a)) && Formed(Attempt(s, addr, next, a))
  {
    var data := s.instances[addr];
    match Migrated(data.module_, next, Values(s, data.zig), a)
    case None =>
      hide Migrated, Owned, Formed;
      FailureKeepsParts(s, s.failed + {addr}, Attempt(s, addr, next, a).nextZig);
    case Some(held) =>
      MigratedFits(data.module_, next, Values(s, data.zig), a);
      hide Migrated, Owned, Formed, Adopt;
      AdoptOwns(s, addr, next, held);
      AdoptForms(s, addr, held);
  }

  lemma AttemptSameFlags(s: State, addr: Address, next: Module, a: Answers)
    requires addr in s.instances
    ensures var r := Attempt(s, addr, next, a);
            && r == s.(instances := r.instances, zig := r.zig, nextZig := r.nextZig, failed := r.failed)
            && r.instances.Keys == s.instances.Keys
  {
    hide Migrated;
  }

  lemma AttemptKeepsParts(s: State, addr: Address, next: Module, a: Answers)
    requires Owned(s) && Formed(s) && addr in s.instances && s.current == Some(next)
    ensures var r := Attempt(s, addr, next, a);
            && Owned(r) && Formed(r) && r.instances.Keys == s.instances.Keys
            && r == s.(instances := r.instances, zig := r.zig, nextZig := r.nextZig, failed := r.failed)
  {
    AttemptOwnsAndForms(s, addr, next, a);
    AttemptSameFlags(s, addr, next, a);
    hide Attempt, Owned, Formed;
  }

  // Tracked, but for the instance being handled.
  ghost predicate TrackedBut(s: State, addr: Address) {
    && Distinct(s.list) && s.index <= |s.list| && s.failed <= s.instances.Keys
    && (forall b <- s.failed :: !Current(s, b) && b !in s.list[s.index..])
    && (forall b <- s.instances :: b != addr && !Current(s, b) ==> b in s.failed || b in s.list[s.index..])
    && addr !in s.failed && addr !in s.list[s.index..]
  }

  lemma TakeNext(s: State)
    requires Tracked(s) && s.index < |s.list|
    ensures TrackedBut(s.(index := s.index + 1), s.list[s.index])
  {
    var addr := s.list[s.index];
    assert s.list[s.index..] == [addr] + s.list[s.index + 1..];
    assert addr in s.list[s.index..];
  }

  lemma MovedIsTracked(s: State, addr: Address, held: Held)
    requires TrackedBut(s, addr) && s.current.Some?
    ensures Tracked(Adopt(s, addr, s.current.value, held))
  {
    hide Distinct;
  }

  lemma FailedIsTracked(s: State, addr: Address, nextZig: nat)
    requires TrackedBut(s, addr) && addr in s.instances && !Current(s, addr)
    ensures Tracked(s.(failed := s.failed + {addr}, nextZig := nextZig))
  {
    hide Distinct;
  }

  lemma AttemptTracks(s: State, addr: Address, next: Module, a: Answers)
    requires TrackedBut(s, addr) && s.current == Some(next) && !Skipped(s, addr, next)
    ensures Tracked(Attempt(s, addr, next, a))
  {
    hide Tracked, TrackedBut, Migrated;
    var data := s.instances[addr];
    match Migrated(data.module_, next, Values(s, data.zig), a)
    case None => FailedIsTracked(s, addr, Attempt(s, addr, next, a).nextZig);
    case Some(held) => MovedIsTracked(s, addr, held);
  }

  lemma AttemptKeepsWorking(s: State, next: Module, a: Answers)
    requires Working(s, next) && s.index < |s.list| && !Skipped(s, s.list[s.index], next)
    ensures Working(Attempt(s.(index := s.index + 1), s.list[s.index], next, a), next)
  {
    TakeNext(s);
    WorkingParts(s, s.index + 1);
    hide Attempt, Tracked, TrackedBut, Owned, Formed;
    AttemptTracks(s.(index := s.index + 1), s.list[s.index], next, a);
    AttemptKeepsParts(s.(index := s.index + 1), s.list[s.index], next, a);
  }

  lemma WorkingThenEnded(s: State, next: Module)
    requires Working(s, next) && s.index == |s.list|
    ensures Inv(Ended(s))
  {
    hide Loaded;
    assert s.list[s.index..] == [];
  }

  lemma WorkingThenScheduled(s: State, next: Module)
    requires Working(s, next) && s.index < |s.list|
    ensures Inv(Schedule(s))
  {
    hide Loaded, Distinct;
  }

  lemma WorkUnfolds(s: State, next: Module, answers: Address -> Answers, spent: nat, processed: nat)
    requires s.index < |s.list|
    ensures var addr := s.list[s.index];
            var s1 := s.(index := s.index + 1);
            Work(s, next, answers, spent, processed) ==
            if Skipped(s1, addr, next) then Work(s1, next, answers, spent, processed)
            else
              var s2 := Attempt(s1, addr, next, answers(addr));
              if processed + 1 >= MIN_BATCH && processed + 1 >= spent then Closing(s2)
              else Work(s2, next, answers, spent, processed + 1)
  {
    hide Attempt;
  }

  lemma WorkCloses(s: State, next: Module, answers: Address -> Answers, spent: nat, processed: nat)
    requires s.index == |s.list|
    ensures Work(s, next, answers, spent, processed) == Closing(s)
  {
  }

  lemma {:induction false} WorkKeepsInv(s: State, next: Module, answers: Address -> Answers, spent: nat, processed: nat)
    requires Working(s, next) && s.index <= |s.list|
    ensures Inv(Work(s, next, answers, spent, processed))
    decreases |s.list| - s.index
  {
    hide Attempt, Inv, Owned, Formed, Tracked;
    if s.index == |s.list| {
      WorkingThenEnded(s, next);
    } else {
      var addr := s.list[s.index];
      var s1 := s.(index := s.index + 1);
      if Skipped(s1, addr, next) {
        SkipKeepsWorking(s, next);
        WorkKeepsInv(s1, next, answers, spent, processed);
      } else {
        AttemptKeepsWorking(s, next, answers(addr));
        WorkingParts(s, s.index + 1);
        AttemptKeepsParts(s1, addr, next, answers(addr));
        var s2 := Attempt(s1, addr, next, answers(addr));
        if processed + 1 < MIN_BATCH || processed + 1 < spent {
          WorkKeepsInv(s2, next, answers, spent, processed + 1);
        } else if s2.index < |s2.list| {
          WorkingThenScheduled(s2, next);
        } else {
          WorkingThenEnded(s2, next);
        }
      }
    }
  }

  lemma WorkingParts(s: State, index: nat)
    requires Owned(s) && Formed(s)
    ensures Owned(s.(index := index)) && Formed(s.(index := index))
  {
    hide Loaded;
  }

  lemma RefreshStarts(s: State)
    requires Inv(s) && s.refreshing
    ensures Working(s.(calls := 0, scheduled := false), s.pending.value)
  {
  }

  lemma CallbackKeepsInv(s: State, answers: Address -> Answers, spent: nat)
    requires Inv(s) && s.calls > 0
    ensures Inv(Apply(s.(calls := s.calls - 1), answers, spent))
  {
    hide Work, Loaded, Distinct;
    if s.refreshing {
      var s1 := s.(calls := 0, scheduled := false);
      RefreshStarts(s);
      WorkKeepsInv(s1, s.pending.value, answers, spent, 0);
    }
  }

  lemma CreateKeepsInv(s: State, addr: Address, a: Answers)
    requires Inv(s) && addr !in s.instances
    ensures Inv(Create(s, addr, a))
  {
    hide SyncFrom, Loaded, Owned, Formed;
    if s.current.Some? && a.created.Some? {
      var m := s.current.value;
      var held := SyncFrom(m, Held(a.created.value, Nothing(|m.properties|)), a, 0);
      AdoptOwns(s, addr, m, held);
      AdoptForms(s, addr, held);
      if s.editor {
        AdoptTracks(s, addr, held);
      }
      hide Tracked;
    }
  }

  lemma FreeOwns(s: State, addr: Address)
    requires Owned(s) && addr in s.instances
    ensures Owned(Free(s, addr))
  {
    var r := Free(s, addr);
    forall z <- r.zig ensures exists b <- r.instances :: r.instances[b].zig == z {
      var b :| b in s.instances && s.instances[b].zig == z;
      assert r.instances[b].zig == z;
    }
  }

  lemma FreeKeepsInv(s: State, addr: Address)
    requires Inv(s) && addr in s.instances
    ensures Inv(Free(s, addr))
  {
    FreeOwns(s, addr);
    FreeForms(s, addr);
    if s.editor {
      FreeTracks(s, addr);
    }
    hide Owned, Formed, Tracked;
  }

  lemma FreeForms(s: State, addr: Address)
    requires Formed(s) && addr in s.instances
    ensures Formed(Free(s, addr))
  {
    hide Loaded;
  }

  lemma FreeTracks(s: State, addr: Address)
    requires Tracked(s) && addr in s.instances
    ensures Tracked(Free(s, addr))
  {
    hide Distinct;
    var r := Free(s, addr);
    forall b <- r.instances ensures Current(r, b) <==> Current(s, b) {
    }
  }

  lemma StepKeepsInv(s: State, op: Op)
    requires Inv(s) && Enabled(s, op)
    ensures Inv(Do(s, op))
  {
    hide Inv, Publish, Apply, Create, Free;
    match op
    case PublishModule(next, order) => PublishKeepsInv(s, next, order);
    case Callback(answers, spent) =>
      assert Inv(s) && s.calls > 0;
      CallbackKeepsInv(s, answers, spent);
    case CreateInstance(addr, created) => CreateKeepsInv(s, addr, created);
    case FreeInstance(addr) => FreeKeepsInv(s, addr);
  }

  lemma {:induction false} RunKeepsInv(s: State, ops: seq<Op>)
    requires Inv(s) && CanRun(s, ops)
    ensures Inv(Run(s, ops))
    decreases |ops|
  {
    hide Inv, Do;
    if ops != [] {
      StepKeepsInv(s, ops[0]);
      RunKeepsInv(Do(s, ops[0]), ops[1..]);
    }
  }

  /** After any run, Zig instances are exactly those of the live instances; in the editor
      an instance that is not on the current module is still in the pending list or was
      reported as failing to move to that module, and while any are pending a callback is
      on its way; once none are, every instance is on the current module or reported. */
  lemma EveryRun(editor: bool, ops: seq<Op>)
    requires CanRun(Fresh(editor), ops)
    ensures var s := Run(Fresh(editor), ops);
            && Owned(s)
            && (s.refreshing ==> s.calls == 1 && s.index < |s.list|)
            && (s.editor ==>
                  forall addr <- s.instances :: !Current(s, addr) ==>
                    addr in s.failed || (s.refreshing && addr in s.list[s.index..]))
            && (forall addr <- s.failed :: s.editor ==> addr in s.instances && !Current(s, addr))
  {
    RunKeepsInv(Fresh(editor), ops);
    var s := Run(Fresh(editor), ops);
    if !s.refreshing {
      assert s.list[s.index..] == [];
    }
  }

  /******* A pass ends *******/

  function Remaining(s: State): nat {
    if s.refreshing && s.index <= |s.list| then |s.list| - s.index else 0
  }

  lemma {:induction false} WorkMovesOn(s: State, next: Module, answers: Address -> Answers, spent: nat, processed: nat)
    requires s.index <= |s.list|
    ensures var r := Work(s, next, answers, spent, processed);
            Remaining(r) == 0 || Remaining(r) + MIN_BATCH <= |s.list| - s.index + processed
    decreases |s.list| - s.index
  {
    hide Attempt;
    if s.index < |s.list| {
      var addr := s.list[s.index];
      var s1 := s.(index := s.index + 1);
      if Skipped(s1, addr, next) {
        WorkMovesOn(s1, next, answers, spent, processed);
      } else {
        AttemptSameFlags(s1, addr, next, answers(addr));
        var s2 := Attempt(s1, addr, next, answers(addr));
        if processed + 1 < MIN_BATCH || processed + 1 < spent {
          WorkMovesOn(s2, next, answers, spent, processed + 1);
        }
      }
    }
  }

  lemma StepMovesOn(s: State, op: Op)
    requires Inv(s) && Enabled(s, op) && !op.PublishModule?
    ensures var r := Do(s, op);
            if op.Callback? then Remaining(r) == 0 || Remaining(r) + MIN_BATCH <= Remaining(s)
            else Remaining(r) == Remaining(s)
  {
    hide Work, Owned, Formed, Tracked;
    if op.Callback? {
      var s1 := s.(calls := s.calls - 1, scheduled := false);
      if s.refreshing {
        WorkMovesOn(s1, s.pending.value, op.answers, op.spent, 0);
      }
    }
  }

  function Callbacks(ops: seq<Op>): nat {
    if ops == [] then 0 else (if ops[0].Callback? then 1 else 0) + Callbacks(ops[1..])
  }

  /** However instances come and go, a pass over n entries is over after n / 8 callbacks,
      rounded up, unless something newer is published. */
  lemma {:induction false} PassEnds(s: State, ops: seq<Op>)
    requires Inv(s) && CanRun(s, ops) && forall op <- ops :: !op.PublishModule?
    ensures var r := Run(s, ops);
            && (Remaining(r) == 0 || Remaining(r) + 8 * Callbacks(ops) <= Remaining(s))
            && (8 * Callbacks(ops) >= Remaining(s) ==> !r.refreshing)
    decreases |ops|
  {
    RunKeepsInv(s, ops);
    if ops != [] {
      StepKeepsInv(s, ops[0]);
      StepMovesOn(s, ops[0]);
      hide Inv, Do, Enabled;
      PassEnds(Do(s, ops[0]), ops[1..]);
    }
    RemainingMeansRefreshing(Run(s, ops));
  }

  lemma RemainingMeansRefreshing(s: State)
    requires Inv(s)
    ensures s.refreshing <==> Remaining(s) > 0
  {
    hide Owned, Formed, Tracked;
  }

  /******* An instance moves whole or stays as it was *******/

  ghost predicate Unmoved(s: State, r: State, addr: Address)
    requires addr in s.instances
  {
    addr in r.instances && r.instances[addr] == s.instances[addr] &&
    Values(r, r.instances[addr].zig) == Values(s, s.instances[addr].zig)
  }

  ghost predicate Moved(s: State, r: State, addr: Address, next: Module, a: Answers)
    requires addr in s.instances
  {
    var was := s.instances[addr];
    var held := Migrated(was.module_, next, Values(s, was.zig), a);
    && held.Some? && addr in r.instances
    && r.instances[addr].module_ == next && r.instances[addr].retained == held.value.retained
    && Values(r, r.instances[addr].zig) == held.value.values
  }

  lemma AdoptOnlyOne(s: State, addr: Address, m: Module, held: Held, other: Address)
    requires Owned(s) && other in s.instances && other != addr
    ensures Unmoved(s, Adopt(s, addr, m, held), other) && Adopt(s, addr, m, held).failed == s.failed
  {
  }

  lemma AttemptOneWay(s: State, addr: Address, next: Module, a: Answers, other: Address)
    requires Owned(s) && addr in s.instances && other in s.instances
    ensures var r := Attempt(s, addr, next, a);
            if addr == other then Unmoved(s, r, other) || Moved(s, r, other, next, a) else Unmoved(s, r, other)
  {
    hide Migrated;
    var data := s.instances[addr];
    var held := Migrated(data.module_, next, Values(s, data.zig), a);
    if held.Some? && addr != other {
      AdoptOnlyOne(s, addr, next, held.value, other);
    }
  }

  ghost predicate Refused(s: State, addr: Address, next: Module, a: Answers)
    requires addr in s.instances
  {
    Migrated(s.instances[addr].module_, next, Values(s, s.instances[addr].zig), a).None?
  }

  // Left as it was, and reported only if it cannot move; or moved from another module.
  ghost predicate OneWay(s: State, r: State, addr: Address, next: Module, a: Answers)
    requires addr in s.instances
  {
    || (Unmoved(s, r, addr) &&
        (addr in r.failed ==> addr in s.failed || (s.instances[addr].module_ != next && Refused(s, addr, next, a))))
    || (s.instances[addr].module_ != next && Moved(s, r, addr, next, a) && (addr in r.failed ==> addr in s.failed))
  }

  lemma OneWayThen(s: State, m: State, r: State, addr: Address, next: Module, a: Answers)
    requires addr in s.instances && addr in m.instances
    requires OneWay(s, m, addr, next, a) && OneWay(m, r, addr, next, a)
    ensures OneWay(s, r, addr, next, a)
  {
    hide Migrated;
  }

  lemma SameIsOneWay(s: State, r: State, addr: Address, next: Module, a: Answers)
    requires addr in s.instances && r.instances == s.instances && r.zig == s.zig && r.failed == s.failed
    ensures OneWay(s, r, addr, next, a)
  {
    hide Migrated;
  }

  lemma ClosingMovesNothing(s: State)
    ensures Closing(s).instances == s.instances && Closing(s).zig == s.zig && Closing(s).failed == s.failed
  {
  }

  lemma AttemptIsOneWay(s: State, addr: Address, next: Module, a: Answers, other: Address, b: Answers)
    requires Owned(s) && addr in s.instances && other in s.instances && s.instances[addr].module_ != next
    requires addr == other ==> a == b
    ensures OneWay(s, Attempt(s, addr, next, a), other, next, b)
  {
    AttemptReports(s, addr, next, a);
    hide Attempt, Moved, Migrated;
    AttemptOneWay(s, addr, next, a, other);
  }

  lemma AttemptReports(s: State, addr: Address, next: Module, a: Answers)
    requires addr in s.instances
    ensures Attempt(s, addr, next, a).failed == if Refused(s, addr, next, a) then s.failed + {addr} else s.failed
    ensures Refused(s, addr, next, a) ==> Attempt(s, addr, next, a).instances == s.instances
  {
    hide Migrated;
  }

  lemma {:induction false} WorkOneWay(s: State, next: Module, answers: Address -> Answers, spent: nat, processed: nat,
                                      addr: Address)
    requires Working(s, next) && s.index <= |s.list| && addr in s.instances
    ensures OneWay(s, Work(s, next, answers, spent, processed), addr, next, answers(addr))
    decreases |s.list| - s.index
  {
    hide Attempt, Owned, Formed, Tracked, OneWay, Work, Closing;
    var r := Work(s, next, answers, spent, processed);
    if s.index == |s.list| {
      WorkCloses(s, next, answers, spent, processed);
      ClosingMovesNothing(s);
      SameIsOneWay(s, r, addr, next, answers(addr));
    } else {
      WorkUnfolds(s, next, answers, spent, processed);
      WorkingParts(s, s.index + 1);
      var k := s.list[s.index];
      var s1 := s.(index := s.index + 1);
      SameIsOneWay(s, s1, addr, next, answers(addr));
      if Skipped(s1, k, next) {
        SkipKeepsWorking(s, next);
        WorkOneWay(s1, next, answers, spent, processed, addr);
      } else {
        var s2 := Attempt(s1, k, next, answers(k));
        AttemptKeepsWorking(s, next, answers(k));
        AttemptKeepsParts(s1, k, next, answers(k));
        AttemptIsOneWay(s1, k, next, answers(k), addr, answers(addr));
        if processed + 1 < MIN_BATCH || processed + 1 < spent {
          WorkOneWay(s2, next, answers, spent, processed + 1, addr);
        } else {
          ClosingMovesNothing(s2);
          SameIsOneWay(s2, r, addr, next, answers(addr));
        }
        OneWayThen(s1, s2, r, addr, next, answers(addr));
      }
      OneWayThen(s, s1, r, addr, next, answers(addr));
    }
  }

  lemma CallbackMovesOrLeaves(s: State, answers: Address -> Answers, spent: nat, addr: Address)
    requires Inv(s) && s.calls > 0 && addr in s.instances
    ensures var r := Apply(s.(calls := s.calls - 1), answers, spent);
            && (|| Unmoved(s, r, addr)
                || (s.current.Some? && !Current(s, addr) && Moved(s, r, addr, s.current.value, answers(addr))))
            && (addr in r.failed && addr !in s.failed ==>
                  s.current.Some? && Unmoved(s, r, addr) && Refused(s, addr, s.current.value, answers(addr)))
  {
    hide Work, Migrated, Loaded, Owned, Formed, Tracked;
    if s.refreshing {
      var s1 := s.(calls := 0, scheduled := false);
      RefreshStarts(s);
      WorkOneWay(s1, s.pending.value, answers, spent, 0, addr);
      SameIsOneWay(s, s1, addr, s.pending.value, answers(addr));
      OneWayThen(s, s1, Work(s1, s.pending.value, answers, spent, 0), addr, s.pending.value, answers(addr));
    }
  }

  lemma CreateLeaves(s: State, addr: Address, a: Answers, other: Address)
    requires Owned(s) && other in s.instances && other != addr
    ensures Unmoved(s, Create(s, addr, a), other) && Create(s, addr, a).failed == s.failed
  {
    hide SyncFrom, Adopt, Unmoved;
    if s.current.Some? && a.created.Some? {
      var m := s.current.value;
      AdoptOnlyOne(s, addr, m, SyncFrom(m, Held(a.created.value, Nothing(|m.properties|)), a, 0), other);
    } else {
      Unchanged(s, other);
    }
  }

  lemma Unchanged(s: State, addr: Address)
    requires addr in s.instances
    ensures Unmoved(s, s, addr)
  {
  }

  /** No step changes an instance that stays alive, its Zig state included, except that a
      callback may move it: to the current module, with exactly the state migration gives.
      An instance is reported only by a callback, when migration has no state for it. */
  lemma StepMovesOrLeaves(s: State, op: Op, addr: Address)
    requires Inv(s) && Enabled(s, op) && addr in s.instances && (op.FreeInstance? ==> op.addr != addr)
    ensures var r := Do(s, op);
            && (|| Unmoved(s, r, addr)
                || (op.Callback? && s.current.Some? && !Current(s, addr) &&
                    Moved(s, r, addr, s.current.value, op.answers(addr))))
            && (addr in r.failed && addr !in s.failed ==>
                  op.Callback? && s.current.Some? && Refused(s, addr, s.current.value, op.answers(addr)))
  {
    hide Apply, Create, Moved, Formed, Tracked, Loaded;
    match op
    case PublishModule(_, _) =>
    case Callback(answers, spent) => CallbackMovesOrLeaves(s, answers, spent, addr);
    case CreateInstance(other, created) => CreateLeaves(s, other, created, addr);
    case FreeInstance(other) =>
  }

  lemma OwnsLive(s: State, addr: Address)
    requires Owned(s) && addr in s.instances
    ensures s.instances[addr].zig in s.zig && s.nextZig !in s.zig
  {
  }

  lemma NextZigIsNew(s: State)
    requires Inv(s)
    ensures s.nextZig !in s.zig
  {
  }

  lemma PublishElsewhere(s: State, next: Option<Module>, order: seq<Address>)
    ensures next.None? ==> Publish(s, next, order) == s
    ensures next.Some? && !s.editor ==> Publish(s, next, order) == s.(current := next)
  {
  }

  lemma OrderIsLive(s: State, next: Option<Module>, order: seq<Address>)
    requires Enabled(s, PublishModule(next, order))
    ensures forall addr <- order :: addr in s.instances
  {
  }

  /******* The script object *******/

  class Script {
    var editor: bool
    var current: Option<Module>
    var pendingModule: Option<Module>
    var pendingRefresh: bool
    var refreshCallScheduled: bool
    var calls: nat
    var pendingRefreshInstances: seq<Address>
    var refreshIndex: nat
    var instances: map<Address, Instance>
    var zig: map<nat, seq<Value>>
    var nextZig: nat
    var failed: set<Address>

    function Contents(): State
      reads this
    {
      State(editor, current, pendingModule, pendingRefresh, refreshCallScheduled, calls,
            pendingRefreshInstances, refreshIndex, instances, zig, nextZig, failed)
    }

    constructor (isEditor: bool)
      ensures Contents() == Fresh(isEditor) && Inv(Contents())
    {
      editor, current, pendingModule := isEditor, None, None;
      pendingRefresh, refreshCallScheduled, calls := false, false, 0;
      pendingRefreshInstances, refreshIndex := [], 0;
      instances, zig, nextZig, failed := map[], map[], 0, {};
    }

    method SchedulePendingRefresh()
      modifies this`refreshCallScheduled, this`calls
      ensures Contents() == Schedule(old(Contents()))
    {
      if refreshCallScheduled || !pendingRefresh || pendingModule.None? {
        return;
      }
      refreshCallScheduled := true;
      calls := calls + 1;
    }

    // The instances that are not on `next`, in the order they are met.
    method Snapshot(next: Module, order: seq<Address>)
      requires forall addr <- order :: addr in instances
      modifies this`pendingRefreshInstances
      ensures pendingRefreshInstances == Behind(order, instances, next)
    {
      pendingRefreshInstances := [];
      for k := 0 to |order|
        invariant pendingRefreshInstances == Behind(order[..k], instances, next)
      {
        assert order[..k + 1][..k] == order[..k];
        if instances[order[k]].module_ != next {
          pendingRefreshInstances := pendingRefreshInstances + [order[k]];
        }
      }
      assert order[..|order|] == order;
    }

    method PublishEverywhere(next: Option<Module>, order: seq<Address>)
      requires next.Some? && editor && forall addr <- order :: addr in instances
      modifies this
      ensures Contents() == Publish(old(Contents()), next, order)
    {
      hide Behind, Schedule;
      pendingModule := next;
      current := next;
      failed := {};
      Snapshot(next.value, order);
      refreshIndex := 0;
      pendingRefresh := pendingRefreshInstances != [];
      if !pendingRefresh {
        pendingModule := None;
        return;
      }
      SchedulePendingRefresh();
    }

    method PublishModule(next: Option<Module>, order: seq<Address>)
      requires Inv(Contents()) && Enabled(Contents(), Op.PublishModule(next, order))
      modifies this
      ensures Contents() == Publish(old(Contents()), next, order)
      ensures Inv(Contents())
    {
      OrderIsLive(Contents(), next, order);
      PublishElsewhere(Contents(), next, order);
      hide Inv, Enabled, Publish;
      PublishKeepsInv(Contents(), next, order);
      if next.None? {
        return;
      }
      if !editor {
        current := next;
        return;
      }
      PublishEverywhere(next, order);
    }

    /** Reads the objects an instance holds, puts back an incompatible one, and keeps the rest alive. */
    method SyncRetainedObjects(m: Module, values: seq<Value>, kept: seq<Value>, a: Answers)
      returns (newValues: seq<Value>, retained: seq<Value>)
      requires |kept| == |m.properties|
      ensures Held(newValues, retained) == SyncFrom(m, Held(values, kept), a, 0)
    {
      newValues, retained := values, kept;
      for i := 0 to |m.properties|
        invariant |retained| == |m.properties|
        invariant SyncFrom(m, Held(newValues, retained), a, i) == SyncFrom(m, Held(values, kept), a, 0)
      {
        ghost var before := Held(newValues, retained);
        if m.properties[i].type_ == ObjectType && i in a.reread && i < |newValues| {
          var value := newValues[i];
          if Incompatible(m.properties[i], value, a) {
            if i in a.rewrite {
              newValues := newValues[i := Reference(Seen(retained[i], a))];
            }
          } else {
            retained := retained[i := ToVariant(value, a)];
          }
        }
        assert Held(newValues, retained) == SyncOne(m, before, a, i);
      }
    }

    /** Copies what the two modules share, and destroys the new Zig instance when a read or
        a write fails. */
    method CopyProperties(from: Module, next: Module, zigInstance: nat, nextInstance: nat, a: Answers) returns (ok: bool)
      requires zigInstance in zig && nextInstance in zig && zigInstance != nextInstance
      modifies this`zig
      ensures var copied := CopyFrom(from, next, old(zig)[zigInstance], old(zig)[nextInstance], a, 0);
              && ok == copied.Some?
              && zig == if ok then old(zig)[nextInstance := copied.value] else old(zig) - {nextInstance}
    {
      for i := 0 to |from.properties|
        invariant nextInstance in zig && zig == old(zig)[nextInstance := zig[nextInstance]]
        invariant CopyFrom(from, next, old(zig)[zigInstance], zig[nextInstance], a, i)
               == CopyFrom(from, next, old(zig)[zigInstance], old(zig)[nextInstance], a, 0)
      {
        var target := Target(from, next, i);
        if target.Some? {
          var j := target.value;
          if i !in a.read || i >= |zig[zigInstance]| || j !in a.write || j >= |zig[nextInstance]| {
            zig := zig - {nextInstance};
            return false;
          }
          zig := zig[nextInstance := zig[nextInstance][j := zig[zigInstance][i]]];
        }
      }
      return true;
    }

    // The new Zig instance replaces the one the instance had, its objects retained anew.
    method TakeOver(addr: Address, next: Module, nextInstance: nat, a: Answers)
      requires addr in instances && nextInstance in zig
      modifies this`instances, this`zig
      ensures var held := SyncFrom(next, Held(old(zig)[nextInstance], Nothing(|next.properties|)), a, 0);
              && instances == old(instances)[addr := Instance(next, nextInstance, held.retained)]
              && zig == old(zig)[nextInstance := held.values] - {old(instances)[addr].zig}
    {
      hide SyncFrom;
      var previous := instances[addr].zig;
      var values, retained := SyncRetainedObjects(next, zig[nextInstance], Nothing(|next.properties|), a);
      instances := instances[addr := Instance(next, nextInstance, retained)];
      zig := zig[nextInstance := values];
      zig := zig - {previous};
    }

    method MigrateEditorInstance(addr: Address, next: Module, a: Answers) returns (ok: bool)
      requires addr in instances && instances[addr].zig in zig && nextZig !in zig
      modifies this`instances, this`zig, this`nextZig
      ensures var was := old(Contents());
              var data := was.instances[addr];
              var held := Migrated(data.module_, next, Values(was, data.zig), a);
              && ok == held.Some?
              && Contents() == if ok then Adopt(was, addr, next, held.value)
                               else was.(nextZig := if a.created.Some? then was.nextZig + 1 else was.nextZig)
    {
      hide CopyFrom, SyncFrom;
      var data := instances[addr];
      if a.created.None? {
        return false;
      }
      var nextInstance := nextZig;
      nextZig := nextZig + 1;
      zig := zig[nextInstance := a.created.value];
      ok := CopyProperties(data.module_, next, data.zig, nextInstance, a);
      if !ok {
        assert zig == old(zig);
        return false;
      }
      TakeOver(addr, next, nextInstance, a);
      return true;
    }

    method RefreshOne(addr: Address, next: Module, a: Answers)
      requires addr in instances && instances[addr].zig in zig && nextZig !in zig
      modifies this`instances, this`zig, this`nextZig, this`failed
      ensures Contents() == Attempt(old(Contents()), addr, next, a)
    {
      hide Migrated, Adopt;
      var ok := MigrateEditorInstance(addr, next, a);
      if !ok {
        failed := failed + {addr};
      }
    }

    method RefreshBatch(next: Module, answers: Address -> Answers, spent: nat)
      requires Working(Contents(), next) && refreshIndex <= |pendingRefreshInstances|
      modifies this`instances, this`zig, this`nextZig, this`failed, this`refreshIndex
      ensures Closing(Contents()) == Work(old(Contents()), next, answers, spent, 0)
    {
      hide Attempt, Owned, Formed, Tracked, Work, Closing;
      var processed := 0;
      while refreshIndex < |pendingRefreshInstances|
        invariant Working(Contents(), next) && refreshIndex <= |pendingRefreshInstances|
        invariant Work(Contents(), next, answers, spent, processed) == Work(old(Contents()), next, answers, spent, 0)
        decreases |pendingRefreshInstances| - refreshIndex
      {
        ghost var before := Contents();
        WorkUnfolds(before, next, answers, spent, processed);
        var addr := pendingRefreshInstances[refreshIndex];
        refreshIndex := refreshIndex + 1;
        if addr !in instances || instances[addr].module_ == next {
          SkipKeepsWorking(before, next);
          continue;
        }
        AttemptKeepsWorking(before, next, answers(addr));
        AttemptSameFlags(Contents(), addr, next, answers(addr));
        OwnsLive(before, addr);
        RefreshOne(addr, next, answers(addr));
        processed := processed + 1;
        if processed >= MIN_BATCH && processed >= spent {
          return;
        }
      }
      WorkCloses(Contents(), next, answers, spent, processed);
    }

    /** One deferred callback: at least eight instances, then until the time is up. */
    method ApplyPendingRefresh(answers: Address -> Answers, spent: nat)
      requires Inv(Contents()) && calls > 0
      modifies this
      ensures Contents() == Apply(old(Contents()).(calls := old(calls) - 1), answers, spent)
      ensures Inv(Contents())
    {
      CallbackKeepsInv(Contents(), answers, spent);
      calls := calls - 1;
      refreshCallScheduled := false;
      if !pendingRefresh || pendingModule.None? {
        return;
      }
      RefreshStarts(old(Contents()));
      hide Work, Inv, Owned, Formed, Tracked, Working, Closing;
      RefreshBatch(pendingModule.value, answers, spent);
      FinishCallback();
    }

    method FinishCallback()
      modifies this`pendingRefresh, this`pendingModule, this`pendingRefreshInstances, this`refreshIndex
      modifies this`refreshCallScheduled, this`calls
      ensures Contents() == Closing(old(Contents()))
    {
      if refreshIndex < |pendingRefreshInstances| {
        SchedulePendingRefresh();
        return;
      }
      pendingRefresh := false;
      pendingModule := None;
      pendingRefreshInstances := [];
      refreshIndex := 0;
    }

    method InstanceCreate(addr: Address, a: Answers) returns (ok: bool)
      requires Inv(Contents()) && addr !in instances
      modifies this`instances, this`zig, this`nextZig
      ensures Contents() == Create(old(Contents()), addr, a)
      ensures ok <==> addr in instances
      ensures Inv(Contents())
    {
      hide Inv, SyncFrom;
      CreateKeepsInv(Contents(), addr, a);
      NextZigIsNew(Contents());
      if current.None? || a.created.None? {
        return false;
      }
      var m := current.value;
      var values, retained := SyncRetainedObjects(m, a.created.value, Nothing(|m.properties|), a);
      zig := zig[nextZig := values];
      instances := instances[addr := Instance(m, nextZig, retained)];
      nextZig := nextZig + 1;
      return true;
    }

    method InstanceFree(addr: Address)
      requires Inv(Contents()) && addr in instances
      modifies this`instances, this`zig, this`failed
      ensures Contents() == Free(old(Contents()), addr)
      ensures Inv(Contents())
    {
      hide Inv;
      FreeKeepsInv(Contents(), addr);
      var data := instances[addr];
      instances := instances - {addr};
      failed := failed - {addr};
      zig := zig - {data.zig};
    }
  }
}
