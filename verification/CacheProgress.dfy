/** What the module cache does for its users: locks are let go, jobs end, and a process
    that is not in anybody's way always gets a loaded module for the inputs on disk. */
module CacheProgress {
  import opened CacheProtocol

  /******* Who holds the locks *******/

  // The process is somewhere between taking the lock of the key and letting it go.
  predicate Inside(s: State, p: Pid, k: Key) {
    p in s.procs && !s.procs[p].Idle? && !s.procs[p].Prepared? && s.procs[p].plan.key == k
  }

  predicate Holds(s: State, p: Pid, k: Key) {
    k in s.locks && s.locks[k] == p
  }

  ghost predicate LocksFit(s: State) {
    forall p, k :: Holds(s, p, k) <==> Inside(s, p, k)
  }

  lemma ActorsLocksFit(s: State, p: Pid, move: Move, k: Key)
    requires LocksFit(s) && Enabled(s, Act(p, move))
    ensures Holds(Apply(s, Act(p, move)), p, k) <==> Inside(Apply(s, Act(p, move)), p, k)
  {
    assert Holds(s, p, k) <==> Inside(s, p, k);
  }

  lemma OthersLocksFit(s: State, p: Pid, move: Move, q: Pid, k: Key)
    requires LocksFit(s) && Enabled(s, Act(p, move)) && q != p
    ensures Holds(Apply(s, Act(p, move)), q, k) <==> Inside(Apply(s, Act(p, move)), q, k)
  {
    assert Holds(s, q, k) <==> Inside(s, q, k);
    assert Holds(s, p, k) <==> Inside(s, p, k);
  }

  /** Every step keeps: a lock is held exactly by the process inside its section. */
  lemma StepKeepsLocksFit(s: State, a: Action)
    requires LocksFit(s) && Enabled(s, a)
    ensures LocksFit(Apply(s, a))
  {
    forall q, k
      ensures Holds(Apply(s, a), q, k) <==> Inside(Apply(s, a), q, k)
    {
      assert Holds(s, q, k) <==> Inside(s, q, k);
      if a.Act? && a.p == q {
        ActorsLocksFit(s, q, a.move, k);
      } else if a.Act? {
        OthersLocksFit(s, a.p, a.move, q, k);
      }
    }
  }

  lemma {:induction false} RunsFitLocks(run: seq<State>, actions: seq<Action>, i: nat)
    requires IsRun(run, actions) && i < |run|
    ensures LocksFit(run[i])
  {
    hide Apply, Enabled;
    if i > 0 {
      RunsFitLocks(run, actions, i - 1);
      StepKeepsLocksFit(run[i - 1], actions[i - 1]);
    }
  }

  /** In any run a key is locked exactly while a process is inside its section, and by that
      process; so a process can take the lock of its plan iff nobody is inside. */
  lemma LockedIffInside(run: seq<State>, actions: seq<Action>, i: nat)
    requires IsRun(run, actions) && i < |run|
    ensures forall k :: k in run[i].locks <==> exists q :: Inside(run[i], q, k)
    ensures forall k <- run[i].locks :: Inside(run[i], run[i].locks[k], k)
    ensures forall p <- run[i].procs | run[i].procs[p].Prepared? ::
              Enabled(run[i], Act(p, Acquire)) <==> forall q :: !Inside(run[i], q, run[i].procs[p].plan.key)
  {
    RunsFitLocks(run, actions, i);
    var s := run[i];
    forall k
      ensures k in s.locks <==> exists q :: Inside(s, q, k)
      ensures k in s.locks ==> Inside(s, s.locks[k], k)
    {
      if k in s.locks {
        assert Holds(s, s.locks[k], k);
      }
      if q :| Inside(s, q, k) {
        assert Holds(s, q, k);
      }
    }
  }

  // The moves after which a process has nothing more to do.
  predicate EndsJob(move: Move) {
    || move.GiveUp? || move.KeepLoaded? || move.CompilerFails? || move.RecheckFails? || move.PublishFails?
    || move.LoadFails? || move.StampFails? || move.PublishStamp? || move.Crash?
  }

  /** However a job ends, in a crash as well, whoever waits for its key can go in. A module
      that did not load is gone, so that nobody is served it again; no end but that one
      touches a module, and none but the last step a stamp. */
  lemma EndLetsOthersIn(run: seq<State>, actions: seq<Action>, i: nat, q: Pid, move: Move, p: Pid)
    requires IsRun(run, actions) && i < |run| && EndsJob(move) && Enabled(run[i], Act(q, move))
    ensures var s, s' := run[i], Apply(run[i], Act(q, move));
            && s'.procs == s.procs[q := Idle]
            && (p in s'.procs && s'.procs[p].Prepared? && Inside(s, q, s'.procs[p].plan.key) ==> Enabled(s', Act(p, Acquire)))
            && s'.output == (if move.LoadFails? then s.output - {s.procs[q].plan.key} else s.output)
            && (move.LoadFails? ==> !StampMatches(s', s.procs[q].plan.key))
            && (!move.PublishStamp? ==> s'.stamps == s.stamps)
            && s'.inputs == s.inputs && s'.published == s.published && s'.runs == s.runs
  {
    RunsFitLocks(run, actions, i);
    var s, s' := run[i], Apply(run[i], Act(q, move));
    assert IsRun(run[..i + 1], actions[..i]);
    StepKeepsLocksFit(s, Act(q, move));
    if p in s'.procs && s'.procs[p].Prepared? && Inside(s, q, s'.procs[p].plan.key) {
      var k := s'.procs[p].plan.key;
      assert Holds(s, q, k);
      forall h
        ensures !Holds(s', h, k)
      {
        assert Holds(s', h, k) ==> Inside(s', h, k);
        assert Inside(s, h, k) ==> Holds(s, h, k);
      }
      assert k in s'.locks ==> Holds(s', s'.locks[k], k);
    }
  }

  /** Any process may crash at any time, and a job may fail at each of its steps: the compiler,
      the recheck, the move, the load and both halves of the stamp. */
  lemma AnythingMayFail(s: State, p: Pid)
    requires p in s.procs
    ensures Enabled(s, Act(p, Crash)) && Apply(s, Act(p, Crash)).procs[p] == Idle
    ensures s.procs[p].Prepared? ==> Enabled(s, Act(p, GiveUp))
    ensures s.procs[p].Compiling? ==> Enabled(s, Act(p, CompilerFails))
    ensures s.procs[p].Compiled? ==> Enabled(s, Act(p, RecheckFails))
    ensures s.procs[p].Confirmed? ==> Enabled(s, Act(p, PublishFails))
    ensures s.procs[p].Loading? ==> Enabled(s, Act(p, LoadFails))
    ensures s.procs[p].Loaded? || s.procs[p].Stamping? ==> Enabled(s, Act(p, StampFails))
  {
  }

  /** Nobody but the holder of its lock overwrites or deletes a module; one that was meddled
      with while nobody held it is not served any more. */
  lemma MeddlingIsNoticed(s: State, k: Key, bytes: Bytes)
    ensures Enabled(s, Tamper(k, bytes)) <==> k !in s.locks
    ensures Enabled(s, Delete(k)) <==> k !in s.locks
    ensures k !in s.locks ==> Apply(s, Tamper(k, bytes)).output == s.output[k := bytes]
    ensures k !in s.locks ==> Apply(s, Delete(k)).output == s.output - {k}
    ensures k !in s.locks && StampMatches(s, k) && bytes != s.output[k] ==>
              !StampMatches(Apply(s, Tamper(k, bytes)), k) && !StampMatches(Apply(s, Delete(k)), k)
  {
  }

  /******* Private outputs *******/

  predicate HasCompiled(s: State, p: Pid) {
    p in s.procs && (s.procs[p].Compiled? || s.procs[p].Confirmed?)
  }

  lemma StepKeepsScratch(s: State, a: Action, p: Pid)
    requires Enabled(s, a) && (a != Act(p, Crash) || !HasCompiled(s, p))
    requires p in s.scratch <==> HasCompiled(s, p)
    ensures p in Apply(s, a).scratch <==> HasCompiled(Apply(s, a), p)
  {
  }

  /** A process that never crashes has a private output exactly between the exit of its
      compiler and the end or the publication of its job. */
  lemma {:induction false} ScratchIsTransient(run: seq<State>, actions: seq<Action>, i: nat, p: Pid)
    requires IsRun(run, actions) && i < |run| && p !in run[0].scratch && Act(p, Crash) !in actions
    ensures p in run[i].scratch <==> HasCompiled(run[i], p)
  {
    hide Apply, Enabled;
    if i > 0 {
      ScratchIsTransient(run, actions, i - 1, p);
      assert actions[i - 1] in actions;
      StepKeepsScratch(run[i - 1], actions[i - 1], p);
    }
  }

  /******* A process alone *******/

  // The process makes these moves, one after the other, while nothing else happens.
  ghost predicate Path(s: State, p: Pid, moves: seq<Move>, s': State)
    decreases |moves|
  {
    if moves == [] then s == s'
    else Enabled(s, Act(p, moves[0])) && Path(Apply(s, Act(p, moves[0])), p, moves[1..], s')
  }

  lemma {:induction false} PathThen(s: State, p: Pid, a: seq<Move>, s': State, b: seq<Move>, s'': State)
    requires Path(s, p, a, s') && Path(s', p, b, s'')
    ensures Path(s, p, a + b, s'')
    decreases |a|
  {
    hide Apply, Enabled;
    if a == [] {
      assert a + b == b;
    } else {
      assert (a + b)[1..] == a[1..] + b;
      PathThen(Apply(s, Act(p, a[0])), p, a[1..], s', b, s'');
    }
  }

  lemma OneMove(s: State, p: Pid, move: Move)
    requires Enabled(s, Act(p, move))
    ensures Path(s, p, [move], Apply(s, Act(p, move)))
  {
    hide Apply, Enabled;
    assert [move][1..] == [];
  }

  // Some moves lead on from wherever these did.
  lemma PathOn(s: State, p: Pid, moves: seq<Move>, s': State, move: Move, s'': State)
    requires Path(s, p, moves, s') && Leads(s', p, move, s'')
    ensures Path(s, p, moves + [move], s'')
  {
    hide Apply, Enabled, Path;
    OneMove(s', p, move);
    PathThen(s, p, moves, s', [move], s'');
  }

  // Any path is what a run may go on with.
  lemma {:induction false} PathContinuesRun(run: seq<State>, actions: seq<Action>, p: Pid, moves: seq<Move>, s': State)
    returns (run': seq<State>, actions': seq<Action>)
    requires IsRun(run, actions) && Path(run[|run| - 1], p, moves, s')
    ensures IsRun(run', actions') && run <= run' && actions <= actions' && run'[|run'| - 1] == s'
    decreases |moves|
  {
    run', actions' := run, actions;
    if moves != [] {
      hide Apply, Enabled;
      var a := Act(p, moves[0]);
      run', actions' := PathContinuesRun(run + [Apply(run[|run| - 1], a)], actions + [a], p, moves[1..], s');
    }
  }

  const COMPILES: seq<Move> := [StartCompiler, CompilerReads]
  const LOADS: seq<Move> := [LoadSucceeds, WriteStamp, PublishStamp]

  // What a process does under the lock, from finding out whether the module is there.
  function Work(hit: bool, bytes: Bytes): seq<Move> {
    (if hit then [HitCache] else COMPILES + [CompilerExits(bytes), Recheck, Publish]) + LOADS
  }

  // What is left when the job is done: the module of the key, old or new, loaded and stamped.
  function Served(s: State, p: Pid, r: Resource, key: Key, bytes: Bytes): State {
    var hit := StampMatches(s, key);
    var module_ := if hit then s.output[key] else bytes;
    State(
      s.procs[p := Idle],
      s.locks,
      s.output[key := module_],
      s.stamps[key := Stamp(key, Sha256(module_))],
      s.scratch - {p},
      s.inputs,
      if hit then s.runs else s.runs[key := Runs(s, key) + 1],
      if hit then s.published else s.published + {Build(r, key, bytes, {key.text})},
      s.loaded + {(key, module_)})
  }

  ghost predicate Leads(s: State, p: Pid, move: Move, s': State) {
    Enabled(s, Act(p, move)) && Apply(s, Act(p, move)) == s'
  }

  lemma LoadLeads(s: State, p: Pid, plan: Plan)
    requires p in s.procs && s.procs[p] == Loading(plan) && plan.key in s.output
    ensures Leads(s, p, LoadSucceeds,
                  s.(procs := s.procs[p := Loaded(plan)], scratch := s.scratch - {p},
                     loaded := s.loaded + {(plan.key, s.output[plan.key])}))
  {
  }

  lemma StampLeads(s: State, p: Pid, plan: Plan)
    requires p in s.procs && s.procs[p] == Loaded(plan) && plan.key in s.output && p !in s.scratch
    ensures Leads(s, p, WriteStamp,
                  s.(procs := s.procs[p := Stamping(plan, Stamp(plan.key, Sha256(s.output[plan.key])))]))
  {
  }

  // The process holds the lock of this key and no other.
  ghost predicate HoldsOnly(s: State, p: Pid, key: Key) {
    forall k :: Holds(s, p, k) <==> k == key
  }

  lemma LastMoveLeads(s: State, p: Pid, plan: Plan, stamp: Stamp)
    requires p in s.procs && s.procs[p] == Stamping(plan, stamp) && p !in s.scratch && HoldsOnly(s, p, plan.key)
    ensures Leads(s, p, PublishStamp,
                  s.(procs := s.procs[p := Idle], locks := s.locks - {plan.key}, stamps := s.stamps[plan.key := stamp]))
  {
    assert forall k <- s.locks :: Holds(s, p, k) <==> s.locks[k] == p;
    assert Holds(s, p, plan.key);
  }

  // The state of a job that has found or made the module and goes on to load it.
  lemma LoadingLeads(s: State, p: Pid, plan: Plan)
    requires p in s.procs && s.procs[p] == Loading(plan) && plan.key in s.output && HoldsOnly(s, p, plan.key)
    ensures Path(s, p, LOADS,
                 s.(procs := s.procs[p := Idle], locks := s.locks - {plan.key},
                    stamps := s.stamps[plan.key := Stamp(plan.key, Sha256(s.output[plan.key]))],
                    scratch := s.scratch - {p}, loaded := s.loaded + {(plan.key, s.output[plan.key])}))
  {
    hide Leads, Path;
    var bytes := s.output[plan.key];
    var stamp := Stamp(plan.key, Sha256(bytes));
    var loaded := s.(procs := s.procs[p := Loaded(plan)], scratch := s.scratch - {p}, loaded := s.loaded + {(plan.key, bytes)});
    var stamping := loaded.(procs := loaded.procs[p := Stamping(plan, stamp)]);
    LoadLeads(s, p, plan);
    StampLeads(loaded, p, plan);
    forall k ensures Holds(stamping, p, k) <==> k == plan.key {
      assert Holds(s, p, k) <==> k == plan.key;
    }
    LastMoveLeads(stamping, p, plan, stamp);
    var done := stamping.(procs := stamping.procs[p := Idle], locks := stamping.locks - {plan.key},
                          stamps := stamping.stamps[plan.key := stamp]);
    ThreeMoves(s, p, LoadSucceeds, loaded, WriteStamp, stamping, PublishStamp, done);
    assert done.procs == s.procs[p := Idle];
  }

  lemma ThreeMoves(s: State, p: Pid, a: Move, s1: State, b: Move, s2: State, c: Move, s3: State)
    requires Leads(s, p, a, s1) && Leads(s1, p, b, s2) && Leads(s2, p, c, s3)
    ensures Path(s, p, [a, b, c], s3)
  {
    hide Apply, Enabled;
    OneMove(s, p, a);
    hide Path;
    PathOn(s, p, [a], s1, b, s2);
    PathOn(s, p, [a, b], s2, c, s3);
    assert [a] + [b] == [a, b] && [a, b] + [c] == [a, b, c];
  }

  // The process has just taken the lock, for the inputs as they are.
  ghost predicate Entered(s: State, p: Pid, r: Resource, key: Key) {
    && p in s.procs && s.procs[p] == Locked(Plan(r, key)) && HoldsOnly(s, p, key)
    && r in s.inputs && s.inputs[r] == key.text
  }

  lemma HitLeads(s: State, p: Pid, r: Resource, key: Key)
    requires Entered(s, p, r, key) && StampMatches(s, key)
    ensures Leads(s, p, HitCache, s.(procs := s.procs[p := Loading(Plan(r, key))], scratch := s.scratch - {p}))
  {
  }

  lemma StartLeads(s: State, p: Pid, r: Resource, key: Key)
    requires Entered(s, p, r, key) && !StampMatches(s, key)
    ensures Leads(s, p, StartCompiler,
                  s.(procs := s.procs[p := Compiling(Plan(r, key), {})], scratch := s.scratch - {p},
                     runs := s.runs[key := Runs(s, key) + 1]))
  {
  }

  lemma ReadLeads(s: State, p: Pid, plan: Plan)
    requires p in s.procs && s.procs[p] == Compiling(plan, {}) && p !in s.scratch && plan.resource in s.inputs
    ensures Leads(s, p, CompilerReads, s.(procs := s.procs[p := Compiling(plan, {s.inputs[plan.resource]})]))
  {
    assert {} + {s.inputs[plan.resource]} == {s.inputs[plan.resource]};
  }

  lemma ExitLeads(s: State, p: Pid, plan: Plan, seen: set<Inputs>, bytes: Bytes)
    requires p in s.procs && s.procs[p] == Compiling(plan, seen)
    ensures Leads(s, p, CompilerExits(bytes),
                  s.(procs := s.procs[p := Compiled(plan, seen)], scratch := s.scratch[p := bytes]))
  {
  }

  lemma RecheckLeads(s: State, p: Pid, plan: Plan, seen: set<Inputs>)
    requires p in s.procs && s.procs[p] == Compiled(plan, seen)
    requires plan.resource in s.inputs && Sha256(s.inputs[plan.resource]) == plan.key
    ensures Leads(s, p, Recheck, s.(procs := s.procs[p := Confirmed(plan, seen)]))
  {
  }

  lemma PublishLeads(s: State, p: Pid, plan: Plan, seen: set<Inputs>)
    requires p in s.procs && s.procs[p] == Confirmed(plan, seen) && p in s.scratch && !StampMatches(s, plan.key)
    ensures Leads(s, p, Publish,
                  s.(procs := s.procs[p := Loading(plan)], output := s.output[plan.key := s.scratch[p]],
                     scratch := s.scratch - {p},
                     published := s.published + {Build(plan.resource, plan.key, s.scratch[p], seen)}))
  {
  }

  // Compiling changes nothing but what the process owns and records.
  lemma CompilingLeads(s: State, p: Pid, r: Resource, key: Key)
    requires Entered(s, p, r, key) && !StampMatches(s, key)
    ensures Path(s, p, COMPILES,
                 s.(procs := s.procs[p := Compiling(Plan(r, key), {key.text})], scratch := s.scratch - {p},
                    runs := s.runs[key := Runs(s, key) + 1]))
  {
    hide Leads, Path;
    var started := s.(procs := s.procs[p := Compiling(Plan(r, key), {})], scratch := s.scratch - {p},
                      runs := s.runs[key := Runs(s, key) + 1]);
    var read := started.(procs := started.procs[p := Compiling(Plan(r, key), {key.text})]);
    StartLeads(s, p, r, key);
    ReadLeads(started, p, Plan(r, key));
    TwoMoves(s, p, StartCompiler, started, CompilerReads, read);
    assert read.procs == s.procs[p := Compiling(Plan(r, key), {key.text})];
  }

  lemma TwoMoves(s: State, p: Pid, a: Move, s1: State, b: Move, s2: State)
    requires Leads(s, p, a, s1) && Leads(s1, p, b, s2)
    ensures Path(s, p, [a, b], s2)
  {
    hide Apply, Enabled;
    OneMove(s, p, a);
    hide Path;
    PathOn(s, p, [a], s1, b, s2);
    assert [a] + [b] == [a, b];
  }

  lemma PublishingLeads(s: State, p: Pid, plan: Plan, bytes: Bytes)
    requires p in s.procs && s.procs[p] == Compiling(plan, {plan.key.text}) && !StampMatches(s, plan.key)
    requires plan.resource in s.inputs && s.inputs[plan.resource] == plan.key.text
    ensures Path(s, p, [CompilerExits(bytes), Recheck, Publish],
                 s.(procs := s.procs[p := Loading(plan)], output := s.output[plan.key := bytes], scratch := s.scratch - {p},
                    published := s.published + {Build(plan.resource, plan.key, bytes, {plan.key.text})}))
  {
    hide Leads, Path;
    var seen := {plan.key.text};
    var exited := s.(procs := s.procs[p := Compiled(plan, seen)], scratch := s.scratch[p := bytes]);
    var confirmed := exited.(procs := exited.procs[p := Confirmed(plan, seen)]);
    var moved := confirmed.(procs := confirmed.procs[p := Loading(plan)], output := s.output[plan.key := bytes],
                            scratch := confirmed.scratch - {p},
                            published := s.published + {Build(plan.resource, plan.key, bytes, seen)});
    ExitLeads(s, p, plan, seen, bytes);
    RecheckLeads(exited, p, plan, seen);
    PublishLeads(confirmed, p, plan, seen);
    ThreeMoves(s, p, CompilerExits(bytes), exited, Recheck, confirmed, Publish, moved);
    assert moved.procs == s.procs[p := Loading(plan)] && moved.scratch == s.scratch - {p};
  }

  lemma MissedWork(s: State, p: Pid, r: Resource, key: Key, bytes: Bytes)
    requires Entered(s, p, r, key) && !StampMatches(s, key)
    ensures Path(s, p, Work(false, bytes), Served(s.(locks := s.locks - {key}), p, r, key, bytes))
  {
    hide Leads, Path;
    var plan := Plan(r, key);
    var compiling := s.(procs := s.procs[p := Compiling(plan, {key.text})], scratch := s.scratch - {p},
                        runs := s.runs[key := Runs(s, key) + 1]);
    var loading := compiling.(procs := compiling.procs[p := Loading(plan)], output := s.output[key := bytes],
                              scratch := compiling.scratch - {p},
                              published := s.published + {Build(r, key, bytes, {key.text})});
    CompilingLeads(s, p, r, key);
    PublishingLeads(compiling, p, plan, bytes);
    PathThen(s, p, COMPILES, compiling, [CompilerExits(bytes), Recheck, Publish], loading);
    SameLocks(s, loading, p, key);
    LoadingLeads(loading, p, plan);
    var done := loading.(procs := loading.procs[p := Idle], locks := loading.locks - {key},
                         stamps := loading.stamps[key := Stamp(key, Sha256(bytes))],
                         scratch := loading.scratch - {p}, loaded := loading.loaded + {(key, bytes)});
    PathThen(s, p, COMPILES + [CompilerExits(bytes), Recheck, Publish], loading, LOADS, done);
    assert done.procs == s.procs[p := Idle] && done.scratch == s.scratch - {p};
  }

  lemma SameLocks(s: State, s': State, p: Pid, key: Key)
    requires HoldsOnly(s, p, key) && s'.locks == s.locks
    ensures HoldsOnly(s', p, key)
  {
    forall k ensures Holds(s', p, k) <==> k == key {
      assert Holds(s, p, k) <==> k == key;
    }
  }

  lemma HitWork(s: State, p: Pid, r: Resource, key: Key, bytes: Bytes)
    requires Entered(s, p, r, key) && StampMatches(s, key)
    ensures Path(s, p, Work(true, bytes), Served(s.(locks := s.locks - {key}), p, r, key, bytes))
  {
    hide Leads, Path;
    var plan := Plan(r, key);
    var loading := s.(procs := s.procs[p := Loading(plan)], scratch := s.scratch - {p});
    HitLeads(s, p, r, key);
    LeadsIsPath(s, p, HitCache, loading);
    SameLocks(s, loading, p, key);
    LoadingLeads(loading, p, plan);
    var done := loading.(procs := loading.procs[p := Idle], locks := loading.locks - {key},
                         stamps := loading.stamps[key := Stamp(key, Sha256(s.output[key]))],
                         scratch := loading.scratch - {p}, loaded := loading.loaded + {(key, s.output[key])});
    PathThen(s, p, [HitCache], loading, LOADS, done);
    assert done.procs == s.procs[p := Idle] && done.scratch == s.scratch - {p} && s.output == s.output[key := s.output[key]];
  }

  lemma LeadsIsPath(s: State, p: Pid, move: Move, s': State)
    requires Leads(s, p, move, s')
    ensures Path(s, p, [move], s')
  {
    OneMove(s, p, move);
  }

  lemma PrepareLeads(s: State, p: Pid, r: Resource)
    requires p in s.procs && s.procs[p].Idle? && r in s.inputs && forall k :: !Holds(s, p, k)
    ensures Leads(s, p, Prepare(r), s.(procs := s.procs[p := Prepared(Plan(r, Sha256(s.inputs[r])))]))
  {
    assert forall k <- s.locks :: s.locks[k] == p ==> Holds(s, p, k);
  }

  lemma AcquireLeads(s: State, p: Pid, plan: Plan)
    requires p in s.procs && s.procs[p] == Prepared(plan) && plan.key !in s.locks && forall k :: !Holds(s, p, k)
    ensures var next := s.(procs := s.procs[p := Locked(plan)], locks := s.locks[plan.key := p]);
            && Leads(s, p, Acquire, next) && HoldsOnly(next, p, plan.key) && next.locks - {plan.key} == s.locks
  {
    var next := s.(procs := s.procs[p := Locked(plan)], locks := s.locks[plan.key := p]);
    forall k ensures Holds(next, p, k) <==> k == plan.key {
      assert !Holds(s, p, k);
    }
  }

  // Making the plan anew keeps the lock if the inputs are the same, and lets it go if not.
  lemma ReplanLeads(s: State, p: Pid, plan: Plan)
    requires p in s.procs && s.procs[p] == Locked(plan) && plan.resource in s.inputs && HoldsOnly(s, p, plan.key)
    ensures var current := Plan(plan.resource, Sha256(s.inputs[plan.resource]));
            var next := s.(scratch := s.scratch - {p});
            Leads(s, p, Replan, if current == plan then next
                                else next.(procs := s.procs[p := Prepared(current)], locks := s.locks - {plan.key}))
  {
    assert Holds(s, p, plan.key);
    assert forall k <- s.locks :: Holds(s, p, k) <==> s.locks[k] == p;
    assert s.procs[p := Locked(plan)] == s.procs && s.locks[plan.key := p] == s.locks;
  }

  lemma HoldsNothing(s: State, p: Pid)
    requires LocksFit(s) && p in s.procs && (s.procs[p].Idle? || s.procs[p].Prepared?)
    ensures forall k :: !Holds(s, p, k)
  {
    forall k ensures !Holds(s, p, k) {
      assert Holds(s, p, k) <==> Inside(s, p, k);
    }
  }

  // With a current plan and the key free, the process goes in and does its work.
  lemma PreparedIsServed(s: State, p: Pid, r: Resource, bytes: Bytes)
    requires p in s.procs && r in s.inputs && s.procs[p] == Prepared(Plan(r, Sha256(s.inputs[r])))
    requires Sha256(s.inputs[r]) !in s.locks && forall k :: !Holds(s, p, k)
    ensures var key := Sha256(s.inputs[r]);
            Path(s, p, [Acquire] + Work(StampMatches(s, key), bytes), Served(s, p, r, key, bytes))
  {
    hide Leads, Path, Work, HoldsOnly, Served, Enabled, Apply;
    var key := Sha256(s.inputs[r]);
    var locked := s.(procs := s.procs[p := Locked(Plan(r, key))], locks := s.locks[key := p]);
    AcquireLeads(s, p, Plan(r, key));
    LeadsIsPath(s, p, Acquire, locked);
    var hit := StampMatches(s, key);
    WorkServes(locked, p, r, key, bytes, hit);
    var done := Served(locked.(locks := s.locks), p, r, key, bytes);
    PathThen(s, p, [Acquire], locked, Work(hit, bytes), done);
    ServedIsIdle(s, locked.(locks := s.locks), p, r, key, bytes);
  }

  lemma WorkServes(s: State, p: Pid, r: Resource, key: Key, bytes: Bytes, hit: bool)
    requires Entered(s, p, r, key) && hit == StampMatches(s, key)
    ensures Path(s, p, Work(hit, bytes), Served(s.(locks := s.locks - {key}), p, r, key, bytes))
  {
    hide Path, Work, Served;
    if hit {
      HitWork(s, p, r, key, bytes);
    } else {
      MissedWork(s, p, r, key, bytes);
    }
  }

  lemma ServedMatches(s: State, p: Pid, r: Resource, key: Key, bytes: Bytes)
    ensures StampMatches(Served(s, p, r, key, bytes), key)
  {
  }

  /** From every reachable state with the key of a script's inputs free, an idle process alone
      is served: it compiles once iff no stamp matches, and is left with the module of that
      key loaded, its stamp matching, the lock free, and nothing else changed. */
  lemma IdleIsServed(run: seq<State>, actions: seq<Action>, p: Pid, r: Resource, bytes: Bytes)
    requires IsRun(run, actions) && p in run[|run| - 1].procs && run[|run| - 1].procs[p].Idle?
    requires r in run[|run| - 1].inputs && Sha256(run[|run| - 1].inputs[r]) !in run[|run| - 1].locks
    ensures var s, key := run[|run| - 1], Sha256(run[|run| - 1].inputs[r]);
            && Path(s, p, [Prepare(r), Acquire] + Work(StampMatches(s, key), bytes), Served(s, p, r, key, bytes))
            && StampMatches(Served(s, p, r, key, bytes), key)
  {
    RunsFitLocks(run, actions, |run| - 1);
    hide Leads, Path, Work, IsRun, Served, Enabled, Apply;
    var s, key := run[|run| - 1], Sha256(run[|run| - 1].inputs[r]);
    HoldsNothing(s, p);
    PrepareLeads(s, p, r);
    var prepared := s.(procs := s.procs[p := Prepared(Plan(r, key))]);
    LeadsIsPath(s, p, Prepare(r), prepared);
    assert forall k :: Holds(prepared, p, k) == Holds(s, p, k);
    PreparedIsServed(prepared, p, r, bytes);
    ServedIsIdle(s, prepared, p, r, key, bytes);
    ServedMatches(s, p, r, key, bytes);
    var work := Work(StampMatches(s, key), bytes);
    PathThen(s, p, [Prepare(r)], prepared, [Acquire] + work, Served(s, p, r, key, bytes));
    assert [Prepare(r)] + ([Acquire] + work) == [Prepare(r), Acquire] + work;
  }

  // What a process that waited does first: it goes in, makes its plan anew, and if the
  // inputs have changed it waits for the new key.
  function Again(same: bool): seq<Move> {
    if same then [Acquire, Replan] else [Acquire, Replan, Acquire]
  }

  // A process that waits for a key nobody holds, nor that of the inputs of now.
  ghost predicate Waits(s: State, p: Pid, plan: Plan) {
    && p in s.procs && s.procs[p] == Prepared(plan) && plan.resource in s.inputs
    && plan.key !in s.locks && Sha256(s.inputs[plan.resource]) !in s.locks && forall k :: !Holds(s, p, k)
  }

  lemma SameKeyIsServed(s: State, p: Pid, plan: Plan, bytes: Bytes)
    requires Waits(s, p, plan) && Sha256(s.inputs[plan.resource]) == plan.key
    ensures Path(s, p, [Acquire, Replan] + Work(StampMatches(s, plan.key), bytes),
                 Served(s, p, plan.resource, plan.key, bytes))
  {
    hide Leads, Path, Work, Served, Enabled, Apply, HoldsOnly, Entered;
    var r, key := plan.resource, plan.key;
    AcquireLeads(s, p, plan);
    var locked := s.(procs := s.procs[p := Locked(plan)], locks := s.locks[key := p]);
    ReplanLeads(locked, p, plan);
    var clean, again := s.(scratch := s.scratch - {p}), locked.(scratch := s.scratch - {p});
    TwoMoves(s, p, Acquire, locked, Replan, again);
    EnteredAgain(locked, p, plan);
    SameWork(clean, again, p, r, key, bytes);
    ScratchDoesNotMatter(s, p, r, key, bytes);
    PathThen(s, p, [Acquire, Replan], again, Work(StampMatches(s, key), bytes), Served(s, p, r, key, bytes));
  }

  lemma OtherKeyIsServed(s: State, p: Pid, plan: Plan, bytes: Bytes)
    requires Waits(s, p, plan) && Sha256(s.inputs[plan.resource]) != plan.key
    ensures var key := Sha256(s.inputs[plan.resource]);
            Path(s, p, [Acquire, Replan, Acquire] + Work(StampMatches(s, key), bytes),
                 Served(s, p, plan.resource, key, bytes))
  {
    hide Leads, Path, Work, Served, Enabled, Apply, HoldsOnly;
    var r := plan.resource;
    var key := Sha256(s.inputs[r]);
    AcquireLeads(s, p, plan);
    var locked := s.(procs := s.procs[p := Locked(plan)], locks := s.locks[plan.key := p]);
    ReplanLeads(locked, p, plan);
    var clean := s.(scratch := s.scratch - {p});
    var waiting := clean.(procs := s.procs[p := Prepared(Plan(r, key))]);
    assert locked.procs[p := Prepared(Plan(r, key))] == waiting.procs && locked.locks - {plan.key} == s.locks;
    TwoMoves(s, p, Acquire, locked, Replan, waiting);
    assert forall k :: Holds(waiting, p, k) == Holds(s, p, k);
    PreparedIsServed(waiting, p, r, bytes);
    ServedIsIdle(clean, waiting, p, r, key, bytes);
    ScratchDoesNotMatter(s, p, r, key, bytes);
    var work := Work(StampMatches(s, key), bytes);
    PathThen(s, p, [Acquire, Replan], waiting, [Acquire] + work, Served(s, p, r, key, bytes));
    assert [Acquire, Replan] + ([Acquire] + work) == [Acquire, Replan, Acquire] + work;
  }

  /** A process that waited is served just so, whatever the inputs were when it made its
      plan: for the inputs of now, under their key. */
  lemma WaiterIsServed(run: seq<State>, actions: seq<Action>, p: Pid, plan: Plan, bytes: Bytes)
    requires IsRun(run, actions) && p in run[|run| - 1].procs && run[|run| - 1].procs[p] == Prepared(plan)
    requires plan.resource in run[|run| - 1].inputs && plan.key !in run[|run| - 1].locks
    requires Sha256(run[|run| - 1].inputs[plan.resource]) !in run[|run| - 1].locks
    ensures var s, key := run[|run| - 1], Sha256(run[|run| - 1].inputs[plan.resource]);
            Path(s, p, Again(key == plan.key) + Work(StampMatches(s, key), bytes), Served(s, p, plan.resource, key, bytes))
  {
    RunsFitLocks(run, actions, |run| - 1);
    hide Path, Work, IsRun, Served, Enabled, Apply;
    var s := run[|run| - 1];
    HoldsNothing(s, p);
    if Sha256(s.inputs[plan.resource]) == plan.key {
      SameKeyIsServed(s, p, plan, bytes);
    } else {
      OtherKeyIsServed(s, p, plan, bytes);
    }
  }

  lemma ScratchDoesNotMatter(s: State, p: Pid, r: Resource, key: Key, bytes: Bytes)
    ensures Served(s.(scratch := s.scratch - {p}), p, r, key, bytes) == Served(s, p, r, key, bytes)
  {
    assert s.scratch - {p} - {p} == s.scratch - {p};
  }

  lemma ServedIsIdle(s: State, t: State, p: Pid, r: Resource, key: Key, bytes: Bytes)
    requires p in s.procs && p in t.procs && t == s.(procs := s.procs[p := t.procs[p]])
    ensures Served(t, p, r, key, bytes) == Served(s, p, r, key, bytes)
  {
    assert t.procs[p := Idle] == s.procs[p := Idle];
  }

  lemma EnteredAgain(s: State, p: Pid, plan: Plan)
    requires p in s.procs && s.procs[p] == Locked(plan) && HoldsOnly(s, p, plan.key)
    requires plan.resource in s.inputs && Sha256(s.inputs[plan.resource]) == plan.key
    ensures Entered(s.(scratch := s.scratch - {p}), p, plan.resource, plan.key)
  {
    SameLocks(s, s.(scratch := s.scratch - {p}), p, plan.key);
  }

  lemma SameWork(s: State, t: State, p: Pid, r: Resource, key: Key, bytes: Bytes)
    requires Entered(t, p, r, key) && p in s.procs && t.locks - {key} == s.locks
    requires t == s.(procs := s.procs[p := t.procs[p]], locks := t.locks)
    ensures Path(t, p, Work(StampMatches(s, key), bytes), Served(s, p, r, key, bytes))
  {
    hide Path, Work, Served, Entered;
    WorkServes(t, p, r, key, bytes, StampMatches(s, key));
    ServedIsIdle(s, t.(locks := s.locks), p, r, key, bytes);
  }
}
