/** The module cache shared by any number of editor processes.  Processes agree
    through one lock file per key, private compiler outputs, atomic renames and a
    two-line stamp beside each module; any of them can crash between two steps. */
module CacheProtocol {

  /******* Files and plans *******/

  type Pid = nat
  type Bytes = string
  type Resource = string

  // What a build depends on, as the identity text the key is the digest of.
  type Inputs = string

  // Digests are taken to be collision-free.
  datatype Digest = Sha256(text: string)
  type Key = Digest

  datatype Plan = Plan(resource: Resource, key: Key)

  // The two lines of a stamp file.
  datatype Stamp = Stamp(key: Key, output: Digest)

  // A module that was moved into the cache: `seen` holds every content of the
  // inputs that the compiler read while it ran.
  datatype Build = Build(resource: Resource, key: Key, bytes: Bytes, seen: set<Inputs>)

  datatype Phase =
    | Idle
    | Prepared(plan: Plan)
    | Locked(plan: Plan)
    | Compiling(plan: Plan, seen: set<Inputs>)
    | Compiled(plan: Plan, seen: set<Inputs>)
    | Confirmed(plan: Plan, seen: set<Inputs>)
    | Loading(plan: Plan)
    | Loaded(plan: Plan)
    | Stamping(plan: Plan, stamp: Stamp)

  // `runs`, `published` and `loaded` only record what has happened.
  datatype State = State(
    procs: map<Pid, Phase>,
    locks: map<Key, Pid>,
    output: map<Key, Bytes>,
    stamps: map<Key, Stamp>,
    scratch: map<Pid, Bytes>,
    inputs: map<Resource, Inputs>,
    runs: map<Key, nat>,
    published: set<Build>,
    loaded: set<(Key, Bytes)>)

  predicate HoldsLock(phase: Phase) {
    !phase.Idle? && !phase.Prepared?
  }

  // The module and its stamp exist, and the stamp names the key and the module's bytes.
  predicate StampMatches(s: State, k: Key) {
    k in s.output && k in s.stamps && s.stamps[k] == Stamp(k, Sha256(s.output[k]))
  }

  function Runs(s: State, k: Key): nat {
    if k in s.runs then s.runs[k] else 0
  }

  /******* Steps *******/

  datatype Move =
    | Prepare(resource: Resource)     // compute the key from the inputs on disk
    | GiveUp                          // lock file unusable, or the wait timed out
    | Acquire                         // exclusive, non-blocking file lock
    | Replan                          // a request that had to wait recomputes its key under the lock
    | HitCache                        // the stamp matches: no compilation
    | KeepLoaded                      // the stamp matches and the script has that module loaded
    | StartCompiler
    | CompilerReads
    | CompilerExits(bytes: Bytes)     // exit code 0, private output written
    | CompilerFails
    | Recheck                         // recompute the key after the compiler ran
    | RecheckFails
    | Publish                         // rename onto the shared output, unless a peer did
    | PublishFails
    | LoadSucceeds
    | LoadFails                       // the shared output is removed
    | WriteStamp                      // to a private file
    | StampFails
    | PublishStamp                    // rename onto the shared stamp
    | Crash                           // the system drops the process's locks

  datatype Action =
    | Act(p: Pid, move: Move)
    | EditInputs(resource: Resource, content: Inputs)
    | Tamper(key: Key, bytes: Bytes)  // somebody else overwrites an output
    | Delete(key: Key)

  predicate CanMove(s: State, p: Pid, at: Phase, move: Move) {
    match move
    case Prepare(r) => at.Idle? && r in s.inputs
    case GiveUp => at.Prepared?
    case Acquire => at.Prepared? && at.plan.key !in s.locks
    case Replan => at.Locked? && at.plan.resource in s.inputs
    case HitCache => at.Locked? && StampMatches(s, at.plan.key)
    case KeepLoaded => at.Locked? && StampMatches(s, at.plan.key)
    case StartCompiler => at.Locked? && !StampMatches(s, at.plan.key)
    case CompilerReads => at.Compiling? && at.plan.resource in s.inputs
    case CompilerExits(_) => at.Compiling?
    case CompilerFails => at.Compiling?
    case Recheck => at.Compiled? && at.plan.resource in s.inputs
    case RecheckFails => at.Compiled?
    case Publish => at.Confirmed? && p in s.scratch
    case PublishFails => at.Confirmed?
    case LoadSucceeds => at.Loading? && at.plan.key in s.output
    case LoadFails => at.Loading?
    case WriteStamp => at.Loaded? && at.plan.key in s.output
    case StampFails => at.Loaded? || at.Stamping?
    case PublishStamp => at.Stamping?
    case Crash => true
  }

  predicate Enabled(s: State, a: Action) {
    match a
    case Act(p, move) => p in s.procs && CanMove(s, p, s.procs[p], move)
    case EditInputs(_, _) => true
    case Tamper(k, _) => k !in s.locks
    case Delete(k) => k !in s.locks
  }

  // Where a process goes on.  Every failure, a changed key and the end of the job lead to Idle.
  function NextPhase(s: State, p: Pid, at: Phase, move: Move): Phase
    requires CanMove(s, p, at, move)
  {
    match move
    case Prepare(r) => Prepared(Plan(r, Sha256(s.inputs[r])))
    case Acquire => Locked(at.plan)
    case Replan =>
      var plan := Plan(at.plan.resource, Sha256(s.inputs[at.plan.resource]));
      if plan == at.plan then at else Prepared(plan)
    case HitCache => Loading(at.plan)
    case StartCompiler => Compiling(at.plan, {})
    case CompilerReads => Compiling(at.plan, at.seen + {s.inputs[at.plan.resource]})
    case CompilerExits(_) => Compiled(at.plan, at.seen)
    case Recheck =>
      if Sha256(s.inputs[at.plan.resource]) == at.plan.key then Confirmed(at.plan, at.seen) else Idle
    case Publish => Loading(at.plan)
    case LoadSucceeds => Loaded(at.plan)
    case WriteStamp => Stamping(at.plan, Stamp(at.plan.key, Sha256(s.output[at.plan.key])))
    case _ => Idle
  }

  // A lock is dropped as soon as its holder leaves the locked section.
  function NextLocks(s: State, p: Pid, next: Phase): map<Key, Pid> {
    if next.Locked? then s.locks[next.plan.key := p]
    else if HoldsLock(next) then s.locks
    else map k | k in s.locks && s.locks[k] != p :: s.locks[k]
  }

  predicate Replaces(s: State, at: Phase, move: Move) {
    move.Publish? && at.Confirmed? && !StampMatches(s, at.plan.key)
  }

  function BuiltBy(s: State, p: Pid, at: Phase): Build
    requires at.Confirmed? && p in s.scratch
  {
    Build(at.plan.resource, at.plan.key, s.scratch[p], at.seen)
  }

  function NextOutput(s: State, p: Pid, at: Phase, move: Move): map<Key, Bytes>
    requires CanMove(s, p, at, move)
  {
    if Replaces(s, at, move) then s.output[at.plan.key := s.scratch[p]]
    else if move.LoadFails? then s.output - {at.plan.key}
    else s.output
  }

  // The private output is kept while the compiled module waits to be moved, and by a crash.
  function NextScratch(s: State, p: Pid, at: Phase, next: Phase, move: Move): map<Pid, Bytes> {
    if move.CompilerExits? then s.scratch[p := move.bytes]
    else if move.Crash? || next.Confirmed? || !HoldsLock(at) then s.scratch
    else s.scratch - {p}
  }

  function Moved(s: State, p: Pid, at: Phase, move: Move): State
    requires CanMove(s, p, at, move)
  {
    var next := NextPhase(s, p, at, move);
    State(
      s.procs[p := next],
      NextLocks(s, p, next),
      NextOutput(s, p, at, move),
      if move.PublishStamp? then s.stamps[at.plan.key := at.stamp] else s.stamps,
      NextScratch(s, p, at, next, move),
      s.inputs,
      if move.StartCompiler? then s.runs[at.plan.key := Runs(s, at.plan.key) + 1] else s.runs,
      if Replaces(s, at, move) then s.published + {BuiltBy(s, p, at)} else s.published,
      if move.LoadSucceeds? then s.loaded + {(at.plan.key, s.output[at.plan.key])} else s.loaded)
  }

  function Apply(s: State, a: Action): State
    requires Enabled(s, a)
  {
    match a
    case Act(p, move) => Moved(s, p, s.procs[p], move)
    case EditInputs(r, content) => s.(inputs := s.inputs[r := content])
    case Tamper(k, bytes) => s.(output := s.output[k := bytes])
    case Delete(k) => s.(output := s.output - {k})
  }

  // No process is running and no stamp exists; the cache may hold any outputs.
  ghost predicate Initial(s: State) {
    && (forall p <- s.procs :: s.procs[p] == Idle)
    && s.locks == map[] && s.stamps == map[] && s.runs == map[] && s.published == {} && s.loaded == {}
  }

  ghost predicate IsRun(run: seq<State>, actions: seq<Action>) {
    && |run| == |actions| + 1
    && Initial(run[0])
    && forall i: nat | i < |actions| :: Enabled(run[i], actions[i]) && run[i + 1] == Apply(run[i], actions[i])
  }

  /******* The invariant *******/

  ghost predicate WasPublished(s: State, k: Key, bytes: Bytes) {
    exists build <- s.published :: build.key == k && build.bytes == bytes
  }

  ghost predicate Vouched(s: State, k: Key, bytes: Bytes) {
    WasPublished(s, k, bytes) && (k, bytes) in s.loaded
  }

  ghost predicate StampSound(s: State, k: Key, stamp: Stamp) {
    stamp.key == k && Vouched(s, k, stamp.output.text)
  }

  ghost predicate PhaseSound(s: State, p: Pid, phase: Phase) {
    && (HoldsLock(phase) ==> phase.plan.key in s.locks && s.locks[phase.plan.key] == p)
    && (phase.Loading? ==> phase.plan.key in s.output && WasPublished(s, phase.plan.key, s.output[phase.plan.key]))
    && (phase.Loaded? ==> phase.plan.key in s.output && Vouched(s, phase.plan.key, s.output[phase.plan.key]))
    && (phase.Stamping? ==>
          && phase.plan.key in s.output && Vouched(s, phase.plan.key, s.output[phase.plan.key])
          && phase.stamp == Stamp(phase.plan.key, Sha256(s.output[phase.plan.key])))
  }

  ghost predicate Sound(s: State) {
    && (forall k <- s.stamps :: StampSound(s, k, s.stamps[k]))
    && (forall p <- s.procs :: PhaseSound(s, p, s.procs[p]))
  }

  lemma HistoryGrows(s: State, a: Action, k: Key, bytes: Bytes)
    requires Enabled(s, a)
    ensures WasPublished(s, k, bytes) ==> WasPublished(Apply(s, a), k, bytes)
    ensures Vouched(s, k, bytes) ==> Vouched(Apply(s, a), k, bytes)
  {
    assert s.published <= Apply(s, a).published && s.loaded <= Apply(s, a).loaded;
  }

  // What a process relies on is protected by the lock it holds.
  lemma OthersStaySound(s: State, a: Action, p: Pid)
    requires Sound(s) && Enabled(s, a) && p in s.procs && !(a.Act? && a.p == p)
    ensures p in Apply(s, a).procs && PhaseSound(Apply(s, a), p, Apply(s, a).procs[p])
  {
    var s', phase := Apply(s, a), s.procs[p];
    assert PhaseSound(s, p, phase);
    assert a.Act? ==> PhaseSound(s, a.p, s.procs[a.p]);
    assert s'.procs[p] == phase;
    if HoldsLock(phase) {
      var k := phase.plan.key;
      assert k in s'.locks && s'.locks[k] == p;
      assert k in s.output ==> k in s'.output && s'.output[k] == s.output[k];
      if k in s.output {
        HistoryGrows(s, a, k, s.output[k]);
      }
      if phase.Stamping? {
        HistoryGrows(s, a, k, phase.stamp.output.text);
      }
    }
  }

  lemma ActorStaysSound(s: State, p: Pid, move: Move)
    requires Sound(s) && Enabled(s, Act(p, move))
    ensures PhaseSound(Apply(s, Act(p, move)), p, Apply(s, Act(p, move)).procs[p])
  {
    var s', at := Apply(s, Act(p, move)), s.procs[p];
    assert PhaseSound(s, p, at);
    if HoldsLock(at) && at.plan.key in s.output {
      HistoryGrows(s, Act(p, move), at.plan.key, s.output[at.plan.key]);
    }
    match move
    case Publish =>
      assert !StampMatches(s, at.plan.key) ==>
          BuiltBy(s, p, at) in s'.published;
    case _ =>
  }

  lemma StampsStaySound(s: State, a: Action, k: Key)
    requires Sound(s) && Enabled(s, a) && k in Apply(s, a).stamps
    ensures StampSound(Apply(s, a), k, Apply(s, a).stamps[k])
  {
    var stamp := Apply(s, a).stamps[k];
    assert a.Act? ==> PhaseSound(s, a.p, s.procs[a.p]);
    assert StampSound(s, k, stamp);
    HistoryGrows(s, a, k, stamp.output.text);
  }

  lemma StepKeepsSound(s: State, a: Action)
    requires Sound(s) && Enabled(s, a)
    ensures Sound(Apply(s, a))
  {
    forall k <- Apply(s, a).stamps
      ensures StampSound(Apply(s, a), k, Apply(s, a).stamps[k])
    {
      StampsStaySound(s, a, k);
    }
    forall p <- Apply(s, a).procs
      ensures PhaseSound(Apply(s, a), p, Apply(s, a).procs[p])
    {
      if a.Act? && a.p == p {
        ActorStaysSound(s, p, a.move);
      } else {
        OthersStaySound(s, a, p);
      }
    }
  }

  lemma {:induction false} RunsAreSound(run: seq<State>, actions: seq<Action>, i: nat)
    requires IsRun(run, actions) && i < |run|
    ensures Sound(run[i])
  {
    if i > 0 {
      RunsAreSound(run, actions, i - 1);
      StepKeepsSound(run[i - 1], actions[i - 1]);
    }
  }

  /** Whatever the interleaving and wherever processes crash, an output whose stamp
      matches has bytes that some process compiled for that key and loaded. */
  lemma MatchingOutputIsGenuine(run: seq<State>, actions: seq<Action>, i: nat, k: Key)
    requires IsRun(run, actions) && i < |run| && StampMatches(run[i], k)
    ensures WasPublished(run[i], k, run[i].output[k]) && (k, run[i].output[k]) in run[i].loaded
  {
    RunsAreSound(run, actions, i);
    assert StampSound(run[i], k, run[i].stamps[k]);
  }

  /** No two processes are ever between locking and unlocking the same key. */
  lemma OneHolderPerKey(run: seq<State>, actions: seq<Action>, i: nat, p: Pid, q: Pid)
    requires IsRun(run, actions) && i < |run| && p in run[i].procs && q in run[i].procs
    requires HoldsLock(run[i].procs[p]) && HoldsLock(run[i].procs[q])
    requires run[i].procs[p].plan.key == run[i].procs[q].plan.key
    ensures p == q
  {
    RunsAreSound(run, actions, i);
    assert PhaseSound(run[i], p, run[i].procs[p]) && PhaseSound(run[i], q, run[i].procs[q]);
  }

  /******* Inputs that change during a build *******/

  predicate Holds(s: State, r: Resource, content: Inputs) {
    r in s.inputs && s.inputs[r] == content
  }

  ghost predicate Held(run: seq<State>, t: nat, r: Resource, content: Inputs) {
    t < |run| && Holds(run[t], r, content)
  }

  // The process works on the plan all the time from `i` to `k`.
  ghost predicate Keeps(run: seq<State>, i: nat, k: nat, p: Pid, plan: Plan) {
    forall t: nat | i <= t <= k ::
      t < |run| && p in run[t].procs && !run[t].procs[p].Idle? && run[t].procs[p].plan == plan
  }

  predicate Compiles(s: State, p: Pid) {
    p in s.procs && s.procs[p].Compiling?
  }

  // While a process works on a plan for `r`, the input never has another content as the
  // compiler runs and then again the one the plan was made from.
  ghost predicate NoReturn(run: seq<State>, r: Resource) {
    forall i: nat, j: nat, k: nat, p, plan: Plan |
        && i <= j <= k < |run| && plan.resource == r && Keeps(run, i, k, p, plan) && Compiles(run[j], p)
        && Held(run, i, r, plan.key.text) && Held(run, k, r, plan.key.text) ::
      Held(run, j, r, plan.key.text)
  }

  ghost predicate ReadSince(run: seq<State>, t: nat, now: nat, p: Pid, r: Resource, content: Inputs) {
    exists u: nat | t <= u <= now < |run| :: Compiles(run[u], p) && Held(run, u, r, content)
  }

  // The plan was made from the inputs at time `t`, and all that was read was read since.
  ghost predicate PlannedAt(run: seq<State>, t: nat, now: nat, p: Pid, plan: Plan, seen: set<Inputs>) {
    && t <= now < |run| && Held(run, t, plan.resource, plan.key.text) && Keeps(run, t, now, p, plan)
    && forall content <- seen :: ReadSince(run, t, now, p, plan.resource, content)
  }

  ghost predicate Planned(run: seq<State>, now: nat, p: Pid, plan: Plan, seen: set<Inputs>) {
    exists t: nat :: PlannedAt(run, t, now, p, plan, seen)
  }

  ghost predicate OnlyFor(key: Key, seen: set<Inputs>) {
    forall content <- seen :: Sha256(content) == key
  }

  function SeenIn(phase: Phase): set<Inputs> {
    if phase.Compiling? || phase.Compiled? then phase.seen else {}
  }

  ghost predicate Traced(run: seq<State>, i: nat, r: Resource)
    requires i < |run|
  {
    && (forall p <- run[i].procs :: !run[i].procs[p].Idle? ==>
          Planned(run, i, p, run[i].procs[p].plan, SeenIn(run[i].procs[p])))
    && (forall p <- run[i].procs :: run[i].procs[p].Confirmed? && run[i].procs[p].plan.resource == r ==>
          OnlyFor(run[i].procs[p].plan.key, run[i].procs[p].seen))
    && (forall build <- run[i].published :: build.resource == r ==> OnlyFor(build.key, build.seen))
  }

  // A plan made now, or one that stays while the compiler reads at most the current inputs.
  ghost predicate PlanLink(s: State, s': State, at: Phase, next: Phase) {
    || (next.Prepared? && Holds(s', next.plan.resource, next.plan.key.text))
    || (&& !at.Idle? && !next.Idle? && next.plan == at.plan
        && forall content <- SeenIn(next) ::
             content in SeenIn(at) || (next.Compiling? && Holds(s', next.plan.resource, content)))
  }

  ghost predicate ConfirmLink(s: State, at: Phase, next: Phase) {
    || next == at
    || (&& at.Compiled? && next.Confirmed? && next.plan == at.plan && next.seen == at.seen
        && Holds(s, at.plan.resource, at.plan.key.text))
  }

  predicate FromPlan(build: Build, plan: Plan, seen: set<Inputs>) {
    build.resource == plan.resource && build.key == plan.key && build.seen == seen
  }

  // All that the reasoning about inputs needs to know about a step.
  ghost predicate Linked(s: State, s': State) {
    && (forall p <- s'.procs :: !s'.procs[p].Idle? ==> p in s.procs && PlanLink(s, s', s.procs[p], s'.procs[p]))
    && (forall p <- s'.procs :: s'.procs[p].Confirmed? ==> ConfirmLink(s, s.procs[p], s'.procs[p]))
    && (forall build <- s'.published ::
          || build in s.published
          || exists p <- s.procs :: s.procs[p].Confirmed? && FromPlan(build, s.procs[p].plan, s.procs[p].seen))
  }

  lemma PlansAreLinked(s: State, a: Action, p: Pid)
    requires Enabled(s, a) && p in Apply(s, a).procs
    ensures p in s.procs
    ensures !Apply(s, a).procs[p].Idle? ==> PlanLink(s, Apply(s, a), s.procs[p], Apply(s, a).procs[p])
    ensures Apply(s, a).procs[p].Confirmed? ==> ConfirmLink(s, s.procs[p], Apply(s, a).procs[p])
  {
  }

  lemma StepsAreLinked(s: State, a: Action)
    requires Enabled(s, a)
    ensures Linked(s, Apply(s, a))
  {
    forall p <- Apply(s, a).procs
      ensures p in s.procs
      ensures !Apply(s, a).procs[p].Idle? ==> PlanLink(s, Apply(s, a), s.procs[p], Apply(s, a).procs[p])
      ensures Apply(s, a).procs[p].Confirmed? ==> ConfirmLink(s, s.procs[p], Apply(s, a).procs[p])
    {
      PlansAreLinked(s, a, p);
    }
    hide PlanLink, ConfirmLink;
  }

  lemma PlanStays(run: seq<State>, i: nat, p: Pid, r: Resource)
    requires i + 1 < |run| && Traced(run, i, r)
    requires p in run[i].procs && p in run[i + 1].procs && !run[i + 1].procs[p].Idle?
    requires PlanLink(run[i], run[i + 1], run[i].procs[p], run[i + 1].procs[p])
    ensures Planned(run, i + 1, p, run[i + 1].procs[p].plan, SeenIn(run[i + 1].procs[p]))
  {
    var at, next := run[i].procs[p], run[i + 1].procs[p];
    if next.Prepared? && Holds(run[i + 1], next.plan.resource, next.plan.key.text) {
      assert PlannedAt(run, i + 1, i + 1, p, next.plan, {});
    } else {
      var t: nat :| PlannedAt(run, t, i, p, at.plan, SeenIn(at));
      assert Keeps(run, t, i + 1, p, at.plan);
      ReadsStayRecent(run, t, i, p, at.plan, SeenIn(at), SeenIn(next));
    }
  }

  lemma ReadsStayRecent(run: seq<State>, t: nat, i: nat, p: Pid, plan: Plan, seen: set<Inputs>, seen': set<Inputs>)
    requires i + 1 < |run| && PlannedAt(run, t, i, p, plan, seen) && Keeps(run, t, i + 1, p, plan)
    requires forall content <- seen' ::
               content in seen || (Compiles(run[i + 1], p) && Held(run, i + 1, plan.resource, content))
    ensures Planned(run, i + 1, p, plan, seen')
  {
    forall content <- seen'
      ensures ReadSince(run, t, i + 1, p, plan.resource, content)
    {
      if content in seen {
        var u: nat :| t <= u <= i && Compiles(run[u], p) && Held(run, u, plan.resource, content);
      }
    }
    assert PlannedAt(run, t, i + 1, p, plan, seen');
  }

  lemma ConfirmedReadsOnlyKey(run: seq<State>, now: nat, p: Pid, plan: Plan, seen: set<Inputs>)
    requires NoReturn(run, plan.resource) && now < |run| && Held(run, now, plan.resource, plan.key.text)
    requires Planned(run, now, p, plan, seen)
    ensures OnlyFor(plan.key, seen)
  {
    var t: nat :| PlannedAt(run, t, now, p, plan, seen);
    forall content <- seen
      ensures Sha256(content) == plan.key
    {
      var u: nat :| t <= u <= now && Compiles(run[u], p) && Held(run, u, plan.resource, content);
      assert Held(run, u, plan.resource, plan.key.text);
    }
  }

  lemma ConfirmedStaysPure(run: seq<State>, i: nat, p: Pid, r: Resource)
    requires NoReturn(run, r) && i + 1 < |run| && Traced(run, i, r)
    requires p in run[i].procs && p in run[i + 1].procs && run[i + 1].procs[p].Confirmed?
    requires ConfirmLink(run[i], run[i].procs[p], run[i + 1].procs[p])
    requires run[i + 1].procs[p].plan.resource == r
    ensures OnlyFor(run[i + 1].procs[p].plan.key, run[i + 1].procs[p].seen)
  {
    var at := run[i].procs[p];
    if at.Compiled? {
      ConfirmedReadsOnlyKey(run, i, p, at.plan, at.seen);
    }
  }

  lemma TracedStays(run: seq<State>, i: nat, r: Resource)
    requires NoReturn(run, r) && i + 1 < |run| && Traced(run, i, r) && Linked(run[i], run[i + 1])
    ensures Traced(run, i + 1, r)
  {
    var s' := run[i + 1];
    forall p <- s'.procs | !s'.procs[p].Idle?
      ensures Planned(run, i + 1, p, s'.procs[p].plan, SeenIn(s'.procs[p]))
    {
      PlanStays(run, i, p, r);
    }
    forall p <- s'.procs | s'.procs[p].Confirmed? && s'.procs[p].plan.resource == r
      ensures OnlyFor(s'.procs[p].plan.key, s'.procs[p].seen)
    {
      ConfirmedStaysPure(run, i, p, r);
    }
  }

  lemma NothingToTrace(run: seq<State>, r: Resource)
    requires run != [] && Initial(run[0])
    ensures Traced(run, 0, r)
  {
    hide Planned, OnlyFor;
  }

  lemma {:induction false} RunsAreTraced(run: seq<State>, actions: seq<Action>, i: nat, r: Resource)
    requires IsRun(run, actions) && NoReturn(run, r) && i < |run|
    ensures Traced(run, i, r)
  {
    hide Traced, Linked, NoReturn, Apply, Enabled, Initial;
    if i == 0 {
      NothingToTrace(run, r);
    } else {
      RunsAreTraced(run, actions, i - 1, r);
      StepsAreLinked(run[i - 1], actions[i - 1]);
      TracedStays(run, i - 1, r);
    }
  }

  /** If the inputs of a script are never changed and restored during a build of it, every
      module published for it was compiled from nothing but inputs with its key. */
  lemma PublishedFromItsInputs(run: seq<State>, actions: seq<Action>, i: nat, build: Build)
    requires IsRun(run, actions) && NoReturn(run, build.resource) && i < |run| && build in run[i].published
    ensures forall content <- build.seen :: Sha256(content) == build.key
  {
    RunsAreTraced(run, actions, i, build.resource);
  }

  /** Hence a module whose stamp matches was compiled from exactly the inputs its key stands
      for, and loaded, whoever compiled it. */
  lemma MatchingOutputFitsItsKey(run: seq<State>, actions: seq<Action>, i: nat, k: Key)
    requires IsRun(run, actions) && i < |run| && StampMatches(run[i], k)
    requires forall build <- run[i].published :: build.key == k ==> NoReturn(run, build.resource)
    ensures (k, run[i].output[k]) in run[i].loaded
    ensures exists build <- run[i].published ::
              build.key == k && build.bytes == run[i].output[k] && OnlyFor(k, build.seen)
  {
    MatchingOutputIsGenuine(run, actions, i, k);
    var build :| build in run[i].published && build.key == k && build.bytes == run[i].output[k];
    PublishedFromItsInputs(run, actions, i, build);
  }

  /******* Histories of an input *******/

  ghost predicate NeverReturns(history: seq<Inputs>) {
    forall i: nat, j: nat, k: nat | i <= j <= k < |history| :: history[i] == history[k] ==> history[j] == history[i]
  }

  function EditsOf(actions: seq<Action>, r: Resource): (edits: seq<Inputs>) {
    if actions == [] then []
    else EditsOf(actions[..|actions| - 1], r) + EditIn(actions[|actions| - 1], r)
  }

  function EditIn(a: Action, r: Resource): seq<Inputs> {
    if a.EditInputs? && a.resource == r then [a.content] else []
  }

  // The content on disk when the run begins, if any, and all that is written later.
  function History(run: seq<State>, actions: seq<Action>, r: Resource): seq<Inputs>
    requires run != []
  {
    (if r in run[0].inputs then [run[0].inputs[r]] else []) + EditsOf(actions, r)
  }

  lemma {:induction false} HistoryEndsInNow(run: seq<State>, actions: seq<Action>, i: nat, r: Resource)
    requires IsRun(run, actions) && i < |run|
    ensures EndsIn(History(run, actions[..i], r), run[i], r)
  {
    if i > 0 {
      hide Apply, Enabled, EndsIn;
      HistoryEndsInNow(run, actions, i - 1, r);
      assert actions[..i][..i - 1] == actions[..i - 1];
      ActionEndsHistory(run[i - 1], actions[i - 1], History(run, actions[..i - 1], r), r);
    } else {
      assert actions[..0] == [];
    }
  }

  predicate EndsIn(history: seq<Inputs>, s: State, r: Resource) {
    if history == [] then r !in s.inputs else Holds(s, r, history[|history| - 1])
  }

  lemma ActionEndsHistory(s: State, a: Action, history: seq<Inputs>, r: Resource)
    requires Enabled(s, a) && EndsIn(history, s, r)
    ensures EndsIn(history + EditIn(a, r), Apply(s, a), r)
  {
  }

  lemma {:induction false} HistoryGoesOn(run: seq<State>, actions: seq<Action>, i: nat, k: nat, r: Resource)
    requires IsRun(run, actions) && i <= k < |run|
    ensures History(run, actions[..i], r) <= History(run, actions[..k], r)
  {
    if i < k {
      HistoryGoesOn(run, actions, i, k - 1, r);
      assert actions[..k][..k - 1] == actions[..k - 1];
    }
  }

  lemma NoReturnInHistory(run: seq<State>, actions: seq<Action>, r: Resource)
    requires IsRun(run, actions) && NeverReturns(History(run, actions, r))
    ensures NoReturn(run, r)
  {
    forall i: nat, j: nat, k: nat, p, plan: Plan |
        && i <= j <= k < |run| && plan.resource == r && Keeps(run, i, k, p, plan) && Compiles(run[j], p)
        && Held(run, i, r, plan.key.text) && Held(run, k, r, plan.key.text)
      ensures Held(run, j, r, plan.key.text)
    {
      NoReturnBetween(run, actions, r, i, j, k);
    }
  }

  lemma NoReturnBetween(run: seq<State>, actions: seq<Action>, r: Resource, i: nat, j: nat, k: nat)
    requires IsRun(run, actions) && NeverReturns(History(run, actions, r)) && i <= j <= k < |run|
    requires r in run[i].inputs && Held(run, k, r, run[i].inputs[r])
    ensures Held(run, j, r, run[i].inputs[r])
  {
    HistoryEndsInNow(run, actions, i, r);
    HistoryEndsInNow(run, actions, j, r);
    HistoryEndsInNow(run, actions, k, r);
    HistoryGoesOn(run, actions, i, j, r);
    HistoryGoesOn(run, actions, j, k, r);
    HistoryGoesOn(run, actions, k, |actions|, r);
    assert actions[..|actions|] == actions;
  }

  lemma Then(run: seq<State>, actions: seq<Action>, a: Action, r: Resource)
    returns (run': seq<State>, actions': seq<Action>)
    requires IsRun(run, actions) && Enabled(run[|run| - 1], a)
    ensures IsRun(run', actions') && run'[0] == run[0] && run'[|run'| - 1] == Apply(run[|run| - 1], a)
    ensures EditsOf(actions', r) == EditsOf(actions, r) + EditIn(a, r)
  {
    run', actions' := run + [Apply(run[|run| - 1], a)], actions + [a];
    assert actions'[..|actions|] == actions;
  }

  function Written(s: State, r: Resource, edits: seq<Inputs>): State {
    if edits == [] then s else s.(inputs := s.inputs[r := edits[|edits| - 1]])
  }

  lemma {:induction false} Write(run: seq<State>, actions: seq<Action>, r: Resource, edits: seq<Inputs>)
    returns (run': seq<State>, actions': seq<Action>)
    requires IsRun(run, actions)
    ensures IsRun(run', actions') && run'[0] == run[0] && run'[|run'| - 1] == Written(run[|run| - 1], r, edits)
    ensures EditsOf(actions', r) == EditsOf(actions, r) + edits
  {
    hide IsRun, EditsOf;
    run', actions' := run, actions;
    if edits != [] {
      var n := |edits| - 1;
      run', actions' := Write(run, actions, r, edits[..n]);
      run', actions' := Then(run', actions', EditInputs(r, edits[n]), r);
      assert edits == edits[..n] + [edits[n]];
    }
  }

  // One process alone with an empty cache, on its way to publishing a module for `r`.
  function Alone(r: Resource, content: Inputs, phase: Phase): State {
    State(map[0 := phase],
          if HoldsLock(phase) then map[phase.plan.key := 0] else map[],
          map[], map[],
          if phase.Compiled? || phase.Confirmed? then map[0 := "m"] else map[],
          map[r := content],
          if HoldsLock(phase) && !phase.Locked? then map[phase.plan.key := 1] else map[],
          {}, {})
  }

  ghost predicate Leads(s: State, move: Move, s': State) {
    Enabled(s, Act(0, move)) && Apply(s, Act(0, move)) == s'
  }

  lemma PlanningLeads(r: Resource, content: Inputs)
    ensures var plan := Plan(r, Sha256(content));
            && Leads(Alone(r, content, Idle), Prepare(r), Alone(r, content, Prepared(plan)))
            && Leads(Alone(r, content, Prepared(plan)), Acquire, Alone(r, content, Locked(plan)))
  {
  }

  lemma CompilingLeads(r: Resource, content: Inputs, plan: Plan)
    ensures Leads(Alone(r, content, Locked(plan)), StartCompiler, Alone(r, content, Compiling(plan, {})))
  {
  }

  lemma ReadingLeads(r: Resource, content: Inputs, plan: Plan)
    requires plan.resource == r
    ensures Leads(Alone(r, content, Compiling(plan, {})), CompilerReads, Alone(r, content, Compiling(plan, {content})))
  {
    assert {} + {content} == {content};
  }

  lemma PublishingLeads(r: Resource, content: Inputs, seen: set<Inputs>)
    ensures var plan := Plan(r, Sha256(content));
            && Leads(Alone(r, content, Compiling(plan, seen)), CompilerExits("m"), Alone(r, content, Compiled(plan, seen)))
            && Leads(Alone(r, content, Compiled(plan, seen)), Recheck, Alone(r, content, Confirmed(plan, seen)))
  {
  }

  lemma ModuleIsPublished(r: Resource, content: Inputs, seen: set<Inputs>)
    ensures var at := Alone(r, content, Confirmed(Plan(r, Sha256(content)), seen));
            && Enabled(at, Act(0, Publish))
            && Build(r, Sha256(content), "m", seen) in Apply(at, Act(0, Publish)).published
  {
  }

  lemma PlanAndStart(run: seq<State>, actions: seq<Action>, r: Resource, content: Inputs)
    returns (run': seq<State>, actions': seq<Action>)
    requires IsRun(run, actions) && run[|run| - 1] == Alone(r, content, Idle)
    ensures IsRun(run', actions') && run'[0] == run[0] && EditsOf(actions', r) == EditsOf(actions, r)
    ensures run'[|run'| - 1] == Alone(r, content, Compiling(Plan(r, Sha256(content)), {}))
  {
    hide IsRun, EditsOf, Alone, Enabled, Apply;
    PlanningLeads(r, content);
    CompilingLeads(r, content, Plan(r, Sha256(content)));
    run', actions' := Then(run, actions, Act(0, Prepare(r)), r);
    run', actions' := Then(run', actions', Act(0, Acquire), r);
    run', actions' := Then(run', actions', Act(0, StartCompiler), r);
  }

  lemma Read(run: seq<State>, actions: seq<Action>, r: Resource, content: Inputs, plan: Plan)
    returns (run': seq<State>, actions': seq<Action>)
    requires IsRun(run, actions) && plan.resource == r && run[|run| - 1] == Alone(r, content, Compiling(plan, {}))
    ensures IsRun(run', actions') && run'[0] == run[0] && EditsOf(actions', r) == EditsOf(actions, r)
    ensures run'[|run'| - 1] == Alone(r, content, Compiling(plan, {content}))
  {
    hide IsRun, EditsOf, Alone, Enabled, Apply;
    ReadingLeads(r, content, plan);
    run', actions' := Then(run, actions, Act(0, CompilerReads), r);
  }

  lemma ExitAndPublish(run: seq<State>, actions: seq<Action>, r: Resource, content: Inputs, seen: set<Inputs>)
    returns (run': seq<State>, actions': seq<Action>)
    requires IsRun(run, actions) && run[|run| - 1] == Alone(r, content, Compiling(Plan(r, Sha256(content)), seen))
    ensures IsRun(run', actions') && run'[0] == run[0] && EditsOf(actions', r) == EditsOf(actions, r)
    ensures Build(r, Sha256(content), "m", seen) in run'[|run'| - 1].published
  {
    hide IsRun, EditsOf, Alone, Enabled, Apply;
    PublishingLeads(r, content, seen);
    ModuleIsPublished(r, content, seen);
    run', actions' := Then(run, actions, Act(0, CompilerExits("m")), r);
    run', actions' := Then(run', actions', Act(0, Recheck), r);
    run', actions' := Then(run', actions', Act(0, Publish), r);
  }

  // Nothing on disk yet; whatever is written first, the process is alone with it.
  lemma IdleRun(r: Resource, content: Inputs) returns (run: seq<State>, actions: seq<Action>)
    ensures IsRun(run, actions) && run[0] == run[|run| - 1] && run[0].inputs == map[] && EditsOf(actions, r) == []
    ensures forall edits | edits != [] && edits[|edits| - 1] == content ::
              Written(run[|run| - 1], r, edits) == Alone(r, content, Idle)
  {
    run, actions := [Alone(r, content, Idle).(inputs := map[])], [];
  }

  lemma WrittenAlone(r: Resource, content: Inputs, edits: seq<Inputs>, phase: Phase)
    requires edits != []
    ensures Written(Alone(r, content, phase), r, edits) == Alone(r, edits[|edits| - 1], phase)
  {
  }

  // Plans with one content and starts the compiler.
  lemma StartsWith(r: Resource, history: seq<Inputs>, i: nat)
    returns (run: seq<State>, actions: seq<Action>)
    requires i < |history|
    ensures IsRun(run, actions) && run[0].inputs == map[] && EditsOf(actions, r) == history[..i + 1]
    ensures run[|run| - 1] == Alone(r, history[i], Compiling(Plan(r, Sha256(history[i])), {}))
  {
    hide IsRun, EditsOf, Alone, Written;
    run, actions := IdleRun(r, history[i]);
    run, actions := Write(run, actions, r, history[..i + 1]);
    run, actions := PlanAndStart(run, actions, r, history[i]);
  }

  // And has it read a later content.
  lemma ReadsLater(r: Resource, history: seq<Inputs>, i: nat, j: nat)
    returns (run: seq<State>, actions: seq<Action>)
    requires i < j < |history|
    ensures IsRun(run, actions) && run[0].inputs == map[] && EditsOf(actions, r) == history[..j + 1]
    ensures run[|run| - 1] == Alone(r, history[j], Compiling(Plan(r, Sha256(history[i])), {history[j]}))
  {
    hide IsRun, EditsOf, Alone, Written;
    var plan := Plan(r, Sha256(history[i]));
    run, actions := StartsWith(r, history, i);
    WrittenAlone(r, history[i], history[i + 1..j + 1], Compiling(plan, {}));
    run, actions := Write(run, actions, r, history[i + 1..j + 1]);
    run, actions := Read(run, actions, r, history[j], plan);
    assert history[..j + 1] == history[..i + 1] + history[i + 1..j + 1];
  }

  /** Any return can fool the recheck: whatever is written to an input, if it comes back to
      a content after another one, a build can read the other and be published. */
  lemma ReturningInputFoolsRecheck(r: Resource, history: seq<Inputs>, i: nat, j: nat, k: nat)
    returns (run: seq<State>, actions: seq<Action>, build: Build)
    requires i < j < k < |history| && history[i] == history[k] != history[j]
    ensures IsRun(run, actions) && History(run, actions, r) == history
    ensures build in run[|run| - 1].published && build.resource == r
    ensures build.key == Sha256(history[i]) && history[j] in build.seen
  {
    hide IsRun, EditsOf, Alone;
    var plan := Plan(r, Sha256(history[i]));
    run, actions := ReadsLater(r, history, i, j);
    WrittenAlone(r, history[j], history[j + 1..k + 1], Compiling(plan, {history[j]}));
    run, actions := Write(run, actions, r, history[j + 1..k + 1]);
    run, actions := ExitAndPublish(run, actions, r, history[k], {history[j]});
    run, actions := Write(run, actions, r, history[k + 1..]);
    build := Build(r, plan.key, "m", {history[j]});
    assert history == history[..j + 1] + history[j + 1..k + 1] + history[k + 1..];
  }

  ghost predicate Fooled(run: seq<State>, actions: seq<Action>, r: Resource, history: seq<Inputs>, build: Build) {
    && IsRun(run, actions) && History(run, actions, r) == history
    && build in run[|run| - 1].published && build.resource == r && !OnlyFor(build.key, build.seen)
  }

  /** The recheck can be trusted exactly when the input never returns to an earlier content:
      only then does no run in which it takes these contents publish a module for it that
      was compiled from another key's inputs. */
  lemma RecheckIsSafeIff(r: Resource, history: seq<Inputs>)
    ensures NeverReturns(history) <==> !exists run, actions, build :: Fooled(run, actions, r, history, build)
  {
    if NeverReturns(history) {
      forall run, actions, build | Fooled(run, actions, r, history, build)
        ensures false
      {
        NoReturnInHistory(run, actions, r);
        PublishedFromItsInputs(run, actions, |run| - 1, build);
      }
    } else {
      var i: nat, j: nat, k: nat :| i <= j <= k < |history| && history[i] == history[k] && history[j] != history[i];
      var run, actions, build := ReturningInputFoolsRecheck(r, history, i, j, k);
      assert Fooled(run, actions, r, history, build);
    }
  }

  /******* One compilation per key *******/

  predicate IsClean(a: Action) {
    && a.Act?
    && !a.move.CompilerFails? && !a.move.RecheckFails? && !a.move.PublishFails? && !a.move.LoadFails?
    && !a.move.StampFails? && !a.move.Crash?
  }

  predicate WorksOn(phase: Phase, k: Key) {
    HoldsLock(phase) && !phase.Locked? && phase.plan.key == k
  }

  ghost predicate CompiledOnce(s: State, k: Key) {
    || Runs(s, k) == 0
    || (Runs(s, k) == 1 && (StampMatches(s, k) || exists p <- s.procs :: WorksOn(s.procs[p], k)))
  }

  ghost predicate PlansCurrent(s: State) {
    forall p <- s.procs :: !s.procs[p].Idle? ==>
      s.procs[p].plan.resource in s.inputs && Sha256(s.inputs[s.procs[p].plan.resource]) == s.procs[p].plan.key
  }

  // Runs with fixed inputs, no crash, no failed step and no outside edit, from any idle cache.
  ghost predicate IsCleanRun(run: seq<State>, actions: seq<Action>) {
    && |run| == |actions| + 1
    && Sound(run[0]) && run[0].runs == map[] && (forall p <- run[0].procs :: run[0].procs[p] == Idle)
    && forall i: nat | i < |actions| ::
         IsClean(actions[i]) && Enabled(run[i], actions[i]) && run[i + 1] == Apply(run[i], actions[i])
  }

  lemma MatchStays(s: State, a: Action, k: Key)
    requires Sound(s) && IsClean(a) && Enabled(s, a) && StampMatches(s, k)
    ensures StampMatches(Apply(s, a), k)
  {
    assert PhaseSound(s, a.p, s.procs[a.p]);
  }

  // The one that compiled a key goes on, until its module matches.
  lemma HolderGoesOn(s: State, a: Action, q: Pid, k: Key)
    requires Sound(s) && PlansCurrent(s) && IsClean(a) && Enabled(s, a) && q in s.procs && WorksOn(s.procs[q], k)
    ensures StampMatches(Apply(s, a), k) || exists p <- Apply(s, a).procs :: WorksOn(Apply(s, a).procs[p], k)
  {
    var s' := Apply(s, a);
    assert PhaseSound(s, q, s.procs[q]);
    if q == a.p {
      assert WorksOn(s'.procs[q], k) || (s'.procs[q] == Idle && a.move.PublishStamp? && StampMatches(s', k));
    } else {
      assert WorksOn(s'.procs[q], k);
    }
  }

  // The compiler starts only for a key that nobody has compiled.
  lemma StartIsFirst(s: State, a: Action, k: Key)
    requires Sound(s) && CompiledOnce(s, k) && IsClean(a) && Enabled(s, a)
    ensures Runs(Apply(s, a), k) <= 1
    ensures Runs(Apply(s, a), k) == Runs(s, k) || WorksOn(Apply(s, a).procs[a.p], k)
  {
    assert PhaseSound(s, a.p, s.procs[a.p]);
    if q :| q in s.procs && WorksOn(s.procs[q], k) {
      assert PhaseSound(s, q, s.procs[q]);
    }
  }

  lemma CleanStepKeepsOnce(s: State, a: Action, k: Key)
    requires Sound(s) && PlansCurrent(s) && CompiledOnce(s, k) && IsClean(a) && Enabled(s, a)
    ensures CompiledOnce(Apply(s, a), k)
  {
    StartIsFirst(s, a, k);
    var known := a.p in Apply(s, a).procs;
    hide Apply, WorksOn, Sound, PlansCurrent, IsClean, Enabled, StampMatches, Runs;
    if StampMatches(s, k) {
      MatchStays(s, a, k);
    } else if q :| q in s.procs && WorksOn(s.procs[q], k) {
      HolderGoesOn(s, a, q, k);
    }
  }

  lemma {:induction false} CleanRunsCompileOnce(run: seq<State>, actions: seq<Action>, i: nat)
    requires IsCleanRun(run, actions) && i < |run|
    ensures Sound(run[i]) && PlansCurrent(run[i]) && forall k :: CompiledOnce(run[i], k)
  {
    if i > 0 {
      CleanRunsCompileOnce(run, actions, i - 1);
      StepKeepsSound(run[i - 1], actions[i - 1]);
      forall k
        ensures CompiledOnce(run[i], k)
      {
        CleanStepKeepsOnce(run[i - 1], actions[i - 1], k);
      }
    }
  }

  /** With fixed inputs and nothing going wrong, all processes together run the
      compiler at most once for a key. */
  lemma AtMostOneCompilation(run: seq<State>, actions: seq<Action>, i: nat, k: Key)
    requires IsCleanRun(run, actions) && i < |run|
    ensures Runs(run[i], k) <= 1
  {
    CleanRunsCompileOnce(run, actions, i);
    assert CompiledOnce(run[i], k);
  }
}
