/** The build queue of one editor process: at most one waiting request per script, one
    active compiler, a generation per script that decides what may still be published,
    and the private files that a build leaves on disk. */
module BuildQueue {
  import opened Wrappers

  type ScriptId = nat
  type Key = string

  // A plan names its files by key and request number.  Moving a plan out of a request
  // leaves one whose strings are all empty.
  datatype Plan = Plan(key: Key, id: nat) | MovedFrom

  datatype Request = Request(script: ScriptId, path: string, source: string, generation: nat, prepared: Option<Plan>)

  datatype Active = Active(request: Request, plan: Plan)

  datatype Script = Script(path: string, source: string, generation: nat, loaded: Option<Key>, valid: bool)

  datatype TempFile = Adapter(plan: Plan) | Output(plan: Plan) | StampCopy(plan: Plan)

  datatype Publication = Publication(script: ScriptId, generation: nat, key: Key)

  // `published` and `waited` only record what has happened; `waited` has the script and the
  // generation of every request that was put back with a plan: because another process had
  // the lock, or because the plan had changed when the lock was taken.
  datatype Queue = Queue(
    scripts: map<ScriptId, Script>,
    pending: seq<Request>,
    active: Option<Active>,
    nextId: nat,
    shutDown: bool,
    files: set<TempFile>,
    published: seq<Publication>,
    waited: set<(ScriptId, nat)>)

  datatype LockResult = Acquired | Busy | LockError

  // What the outside world answers during one round; `planned` and `replanned` are the
  // keys that preparing computes, None when preparing fails.
  datatype World = World(
    planned: Option<Key>, lock: LockResult, replanned: Option<Key>, stampMatches: bool,
    peerPublished: bool, moved: bool, loads: bool, stampWritten: bool, stampMoved: bool,
    outputGone: bool, adapterWritten: bool, compilerStarts: bool)

  // A round in which the compiler starts, one in which another process has the lock, and
  // the end of a build whose module is moved into the cache and loaded.
  const BUILDING := World(None, Acquired, None, false, false, false, false, false, false, false, true, true)
  const LOCKED_OUT := BUILDING.(lock := Busy)
  const BUILT := World(None, Acquired, None, false, false, true, true, true, true, false, false, false)

  /******* Queueing *******/

  predicate Asks(r: Request, s: ScriptId, script: Script) {
    r.script == s && r.path == script.path && r.source == script.source
  }

  // The request replaces a waiting one of the same script in place, or goes last.
  function Place(pending: seq<Request>, r: Request): seq<Request> {
    if pending == [] then [r]
    else if pending[0].script == r.script then [r] + pending[1..]
    else [pending[0]] + Place(pending[1..], r)
  }

  function Queued(q: Queue, s: ScriptId): Queue
    requires s in q.scripts
  {
    var script := q.scripts[s];
    if q.shutDown || script.path == "" || (q.active.Some? && Asks(q.active.value.request, s, script))
       || exists r <- q.pending :: Asks(r, s, script) then q
    else
      q.(scripts := q.scripts[s := script.(generation := script.generation + 1)],
         pending := Place(q.pending, Request(s, script.path, script.source, script.generation + 1, None)))
  }

  /******* One round of starting the next build *******/

  // A request that cannot be built leaves the script with the module it has.
  function Settled(q: Queue, s: ScriptId): Queue
    requires s in q.scripts
  {
    q.(scripts := q.scripts[s := q.scripts[s].(valid := q.scripts[s].loaded.Some?)])
  }

  function Publish(q: Queue, r: Request, key: Key): Queue
    requires r.script in q.scripts
  {
    q.(scripts := q.scripts[r.script := q.scripts[r.script].(loaded := Some(key), valid := true)],
       published := q.published + [Publication(r.script, r.generation, key)])
  }

  function Temps(plan: Plan): set<TempFile> {
    {Adapter(plan), Output(plan), StampCopy(plan)}
  }

  // `again` tells whether the loop goes on.
  datatype Turn = Turn(queue: Queue, again: bool)

  function Build(q: Queue, r: Request, plan: Plan, w: World): Turn
    requires r.script in q.scripts && plan.Plan?
  {
    var cleaned := q.(files := q.files - Temps(plan));
    if w.stampMatches then
      if q.scripts[r.script].loaded == Some(plan.key) then
        Turn(q.(scripts := q.scripts[r.script := q.scripts[r.script].(valid := true)]), true)
      else if w.loads then Turn(Publish(cleaned, r, plan.key), true)
      else if w.outputGone then Turn(cleaned.(pending := [r] + q.pending), true)
      else Turn(Settled(cleaned, r.script), true)
    else if !w.adapterWritten then Turn(Settled(q.(files := q.files - {Adapter(plan)}), r.script), true)
    else if !w.compilerStarts then
      Turn(Settled(q.(files := q.files - {Adapter(plan), Output(plan)}), r.script), true)
    else
      // The compiler may write its output from now on.
      Turn(q.(active := Some(Active(r, plan)), files := q.files + {Adapter(plan), Output(plan)}), false)
  }

  // The request goes first again, with its plan.
  function PutBack(q: Queue, r: Request, plan: Plan): Queue {
    q.(pending := [r.(prepared := Some(plan))] + q.pending, waited := q.waited + {(r.script, r.generation)})
  }

  // An empty lock path cannot be opened.
  function LockFor(plan: Plan, w: World): LockResult {
    if plan.MovedFrom? then LockError else w.lock
  }

  function Started(q: Queue, r: Request, plan: Plan, reused: bool, w: World): Turn
    requires r.script in q.scripts
  {
    match LockFor(plan, w)
    case Busy => Turn(PutBack(q, r, plan), false)
    case LockError => Turn(Settled(q, r.script), true)
    case Acquired =>
      if reused then Replanned(q.(nextId := q.nextId + 1), r, plan.key, Plan(w.replanned.GetOr(""), q.nextId), w)
      else Build(q, r, plan, w)
  }

  // A request that had to wait for the lock makes a new plan under it; under a new key it waits again.
  function Replanned(q: Queue, r: Request, key: Key, current: Plan, w: World): Turn
    requires r.script in q.scripts && current.Plan?
  {
    if w.replanned.None? then Turn(Settled(q, r.script), true)
    else if current.key != key then Turn(PutBack(q, r, current), false)
    else Build(q, r, current, w)
  }

  predicate CanStart(q: Queue) {
    !q.shutDown && q.active.None? && q.pending != []
  }

  function Round(q: Queue, w: World): Turn
    requires CanStart(q) && q.pending[0].script in q.scripts
  {
    var r, rest := q.pending[0], q.(pending := q.pending[1..]);
    if r.generation != q.scripts[r.script].generation then Turn(rest, true)
    else
      match r.prepared
      case Some(plan) => Started(rest, r.(prepared := Some(MovedFrom)), plan, true, w)
      case None =>
        var next := rest.(nextId := q.nextId + 1);
        match w.planned
        case None => Turn(Settled(next, r.script), true)
        case Some(key) => Started(next, r, Plan(key, q.nextId), false, w)
  }

  predicate Known(q: Queue) {
    forall k: nat | k < |q.pending| :: q.pending[k].script in q.scripts
  }

  lemma InFrontKeepsKnown(q: Queue, r: Request)
    requires Known(q) && r.script in q.scripts
    ensures Known(q.(pending := [r] + q.pending))
  {
    assert forall k: nat | 0 < k < |[r] + q.pending| :: ([r] + q.pending)[k] == q.pending[k - 1];
  }

  lemma BuildKeepsKnown(q: Queue, r: Request, plan: Plan, w: World)
    requires Known(q) && r.script in q.scripts && plan.Plan?
    ensures Known(Build(q, r, plan, w).queue)
  {
    InFrontKeepsKnown(q, r);
  }

  lemma StartedKeepsKnown(q: Queue, r: Request, plan: Plan, reused: bool, w: World)
    requires Known(q) && r.script in q.scripts
    ensures Known(Started(q, r, plan, reused, w).queue)
  {
    var next, current := q.(nextId := q.nextId + 1), Plan(w.replanned.GetOr(""), q.nextId);
    InFrontKeepsKnown(q, r.(prepared := Some(plan)));
    InFrontKeepsKnown(next, r.(prepared := Some(current)));
    if plan.Plan? {
      BuildKeepsKnown(q, r, plan, w);
      BuildKeepsKnown(next, r, current, w);
    }
    hide Build;
  }

  lemma RoundKeepsKnown(q: Queue, w: World)
    requires CanStart(q) && Known(q)
    ensures Known(Round(q, w).queue)
  {
    hide Started;
    var r, rest := q.pending[0], q.(pending := q.pending[1..]);
    assert forall k: nat | k < |rest.pending| :: rest.pending[k] == q.pending[k + 1];
    match r.prepared
    case Some(plan) => StartedKeepsKnown(rest, r.(prepared := Some(MovedFrom)), plan, true, w);
    case None =>
      if w.planned.Some? {
        StartedKeepsKnown(rest.(nextId := q.nextId + 1), r, Plan(w.planned.value, q.nextId), false, w);
      }
  }

  lemma RoundKeepsRunning(q: Queue, w: World)
    requires CanStart(q) && q.pending[0].script in q.scripts
    ensures !Round(q, w).queue.shutDown
  {
  }

  // The loop, for as many rounds as the world answers.
  function Rounds(q: Queue, ws: seq<World>): Queue
    requires Known(q)
    decreases |ws|
  {
    if !CanStart(q) || ws == [] then q
    else
      RoundKeepsKnown(q, ws[0]);
      var turn := Round(q, ws[0]);
      if turn.again then Rounds(turn.queue, ws[1..]) else turn.queue
  }

  /******* The end of a build *******/

  function Finished(q: Queue, r: Request, plan: Plan, exitOk: bool, w: World): Queue
    requires r.script in q.scripts && plan.Plan?
  {
    var cleaned := q.(files := q.files - Temps(plan));
    if exitOk && (w.peerPublished || w.moved) && w.loads then Publish(cleaned, r, plan.key)
    else Settled(cleaned, r.script)
  }

  function Completed(q: Queue, exitOk: bool, w: World): Queue
    requires q.active.Some? && q.active.value.request.script in q.scripts && q.active.value.plan.Plan?
  {
    var Active(r, plan) := q.active.value;
    var idle := q.(active := None);
    var cleaned := idle.(files := q.files - {Output(plan), Adapter(plan)});
    if r.generation != q.scripts[r.script].generation then cleaned
    else if !exitOk then Finished(idle, r, plan, false, w)
    else if exists other <- q.pending :: other.script == r.script then cleaned
    else Rechecked(idle.(nextId := q.nextId + 1), r, plan, w)
  }

  // The key is computed once more; if the inputs have changed the request is put back.
  function Rechecked(q: Queue, r: Request, plan: Plan, w: World): Queue
    requires r.script in q.scripts && plan.Plan?
  {
    var cleaned := q.(files := q.files - {Output(plan), Adapter(plan)});
    match w.planned
    case None => Settled(cleaned, r.script)
    case Some(key) =>
      if key != plan.key then cleaned.(pending := [r] + q.pending)
      else Finished(q, r, plan, true, w)
  }

  function Stopped(q: Queue): Queue {
    if q.shutDown then q
    else
      q.(shutDown := true, pending := [], active := None,
         files := if q.active.Some? then q.files - {Output(q.active.value.plan), Adapter(q.active.value.plan)} else q.files)
  }

  /******* The invariant *******/

  ghost predicate Inv(q: Queue) {
    && Known(q)
    && (forall k: nat | k < |q.pending| :: q.pending[k].generation == q.scripts[q.pending[k].script].generation)
    && (forall j: nat, k: nat | j < k < |q.pending| :: q.pending[j].script != q.pending[k].script)
    && (q.active.None? ==> q.files == {})
    && (q.active.Some? ==>
          var Active(r, plan) := q.active.value;
          && plan.Plan? && q.files <= {Adapter(plan), Output(plan)}
          && r.script in q.scripts && r.generation <= q.scripts[r.script].generation
          && forall k: nat | k < |q.pending| && q.pending[k].script == r.script ::
               r.generation < q.pending[k].generation)
  }

  // What was published is of the script's latest generation, under a key just computed.
  ghost predicate PublishesLatest(q: Queue, q': Queue, keys: set<Key>) {
    && q.published <= q'.published
    && q'.scripts.Keys == q.scripts.Keys
    && (forall s <- q.scripts :: q'.scripts[s].generation == q.scripts[s].generation)
    && forall k: nat | |q.published| <= k < |q'.published| ::
         var p := q'.published[k];
         p.script in q.scripts && p.generation == q.scripts[p.script].generation && p.key in keys
  }

  function KeysOf(w: World): set<Key> {
    (if w.planned.Some? then {w.planned.value} else {}) + (if w.replanned.Some? then {w.replanned.value} else {})
  }

  function AllKeys(ws: seq<World>): set<Key> {
    if ws == [] then {} else KeysOf(ws[0]) + AllKeys(ws[1..])
  }

  lemma {:induction false} PlaceChangesOne(pending: seq<Request>, r: Request)
    requires forall j: nat, k: nat | j < k < |pending| :: pending[j].script != pending[k].script
    ensures var placed := Place(pending, r);
            && (forall k: nat | k < |placed| :: placed[k] == r || (placed[k] in pending && placed[k].script != r.script))
            && (forall j: nat, k: nat | j < k < |placed| :: placed[j].script != placed[k].script)
            && r in placed
            && forall x <- pending :: x.script != r.script ==> x in placed
  {
    if pending != [] {
      assert forall k: nat | k < |pending[1..]| :: pending[1..][k] == pending[k + 1];
      if pending[0].script != r.script {
        PlaceChangesOne(pending[1..], r);
      }
    }
  }

  lemma QueuedKeepsInv(q: Queue, s: ScriptId)
    requires Inv(q) && s in q.scripts
    ensures Inv(Queued(q, s))
  {
    hide Place;
    var script := q.scripts[s];
    PlaceChangesOne(q.pending, Request(s, script.path, script.source, script.generation + 1, None));
  }

  // A request of the current generation may be put in front of requests of other scripts.
  lemma PutBackKeepsInv(q: Queue, r: Request)
    requires Inv(q) && q.active.None? && r.script in q.scripts && r.generation == q.scripts[r.script].generation
    requires forall k: nat | k < |q.pending| :: q.pending[k].script != r.script
    ensures Inv(q.(pending := [r] + q.pending))
  {
    var placed := [r] + q.pending;
    assert forall k: nat | 0 < k < |placed| :: placed[k] == q.pending[k - 1];
  }

  lemma SettledKeepsInv(q: Queue, s: ScriptId)
    requires Inv(q) && s in q.scripts
    ensures Inv(Settled(q, s)) && PublishesLatest(q, Settled(q, s), {})
  {
  }

  lemma LoadedKeepsInv(q: Queue, r: Request, plan: Plan)
    requires Inv(q) && q.active.None? && r.script in q.scripts
    requires r.generation == q.scripts[r.script].generation
    requires plan.Plan?
    ensures var cleaned := q.(files := q.files - Temps(plan));
            && Inv(cleaned) && PublishesLatest(q, cleaned, {})
            && Inv(Publish(cleaned, r, plan.key)) && PublishesLatest(q, Publish(cleaned, r, plan.key), {plan.key})
  {
    assert q.files - Temps(plan) == {};
  }

  lemma RevalidatedKeepsInv(q: Queue, s: ScriptId)
    requires Inv(q) && s in q.scripts
    ensures var r := q.(scripts := q.scripts[s := q.scripts[s].(valid := true)]); Inv(r) && PublishesLatest(q, r, {})
  {
  }

  lemma CompilingKeepsInv(q: Queue, r: Request, plan: Plan)
    requires Inv(q) && q.active.None? && plan.Plan? && r.script in q.scripts
    requires r.generation == q.scripts[r.script].generation
    requires forall k: nat | k < |q.pending| :: q.pending[k].script != r.script
    ensures var next := q.(active := Some(Active(r, plan)), files := q.files + {Adapter(plan), Output(plan)});
            Inv(next) && PublishesLatest(q, next, {})
  {
  }

  lemma FewerFilesKeepInv(q: Queue, files: set<TempFile>)
    requires Inv(q) && q.active.None?
    ensures Inv(q.(files := q.files - files)) && q.files - files == {}
  {
  }

  lemma BuildKeepsInv(q: Queue, r: Request, plan: Plan, w: World)
    requires Inv(q) && q.active.None? && plan.Plan? && r.script in q.scripts
    requires r.generation == q.scripts[r.script].generation
    requires forall k: nat | k < |q.pending| :: q.pending[k].script != r.script
    ensures Inv(Build(q, r, plan, w).queue) && PublishesLatest(q, Build(q, r, plan, w).queue, {plan.key})
  {
    hide Inv;
    var cleaned := q.(files := q.files - Temps(plan));
    if w.stampMatches {
      RevalidatedKeepsInv(q, r.script);
      LoadedKeepsInv(q, r, plan);
      PutBackKeepsInv(cleaned, r);
      SettledKeepsInv(cleaned, r.script);
    } else if !w.adapterWritten {
      FewerFilesKeepInv(q, {Adapter(plan)});
      SettledKeepsInv(q.(files := q.files - {Adapter(plan)}), r.script);
    } else if !w.compilerStarts {
      FewerFilesKeepInv(q, {Adapter(plan), Output(plan)});
      SettledKeepsInv(q.(files := q.files - {Adapter(plan), Output(plan)}), r.script);
    } else {
      CompilingKeepsInv(q, r, plan);
    }
  }

  lemma WaitingKeepsInv(q: Queue, r: Request, plan: Plan)
    requires Inv(q) && q.active.None? && r.script in q.scripts && r.generation == q.scripts[r.script].generation
    requires forall k: nat | k < |q.pending| :: q.pending[k].script != r.script
    ensures Inv(PutBack(q, r, plan))
  {
    PutBackKeepsInv(q, r.(prepared := Some(plan)));
  }

  lemma NumberingKeepsInv(q: Queue)
    requires Inv(q)
    ensures Inv(q.(nextId := q.nextId + 1))
  {
  }

  lemma ReplannedKeepsInv(q: Queue, r: Request, key: Key, current: Plan, w: World)
    requires Inv(q) && q.active.None? && r.script in q.scripts && current.Plan?
    requires r.generation == q.scripts[r.script].generation
    requires forall k: nat | k < |q.pending| :: q.pending[k].script != r.script
    ensures Inv(Replanned(q, r, key, current, w).queue)
    ensures PublishesLatest(q, Replanned(q, r, key, current, w).queue, {current.key})
  {
    hide Build, Inv, Settled;
    SettledKeepsInv(q, r.script);
    WaitingKeepsInv(q, r, current);
    BuildKeepsInv(q, r, current, w);
  }

  lemma StartedKeepsInv(q: Queue, r: Request, plan: Plan, reused: bool, w: World)
    requires Inv(q) && q.active.None? && r.script in q.scripts
    requires r.generation == q.scripts[r.script].generation
    requires forall k: nat | k < |q.pending| :: q.pending[k].script != r.script
    requires !reused ==> plan.Plan? && plan.key in KeysOf(w)
    ensures Inv(Started(q, r, plan, reused, w).queue)
    ensures PublishesLatest(q, Started(q, r, plan, reused, w).queue, KeysOf(w))
  {
    hide Build, Replanned, Inv, Settled;
    NumberingKeepsInv(q);
    SettledKeepsInv(q, r.script);
    WaitingKeepsInv(q, r, plan);
    if plan.Plan? && !reused {
      BuildKeepsInv(q, r, plan, w);
    }
    if plan.Plan? && reused {
      var q', current := q.(nextId := q.nextId + 1), Plan(w.replanned.GetOr(""), q.nextId);
      ReplannedKeepsInv(q', r, plan.key, current, w);
      NothingWithoutPlan(q', r, plan.key, current, w);
    }
  }

  lemma NothingWithoutPlan(q: Queue, r: Request, key: Key, current: Plan, w: World)
    requires r.script in q.scripts && current.Plan?
    ensures w.replanned.None? ==> Replanned(q, r, key, current, w).queue.published == q.published
  {
  }

  lemma RoundKeepsInv(q: Queue, w: World)
    requires Inv(q) && CanStart(q)
    ensures Inv(Round(q, w).queue) && PublishesLatest(q, Round(q, w).queue, KeysOf(w))
  {
    hide Started, Settled;
    var r, rest := q.pending[0], q.(pending := q.pending[1..]);
    assert forall k: nat | k < |rest.pending| :: rest.pending[k] == q.pending[k + 1];
    assert Inv(rest);
    SettledKeepsInv(rest.(nextId := q.nextId + 1), r.script);
    match r.prepared
    case Some(plan) => StartedKeepsInv(rest, r.(prepared := Some(MovedFrom)), plan, true, w);
    case None =>
      if w.planned.Some? {
        StartedKeepsInv(rest.(nextId := q.nextId + 1), r, Plan(w.planned.value, q.nextId), false, w);
      }
  }

  lemma PublishesThen(a: Queue, b: Queue, c: Queue, first: set<Key>, second: set<Key>)
    requires PublishesLatest(a, b, first) && PublishesLatest(b, c, second)
    ensures PublishesLatest(a, c, first + second)
  {
    forall k: nat | |a.published| <= k < |c.published|
      ensures var p := c.published[k];
              p.script in a.scripts && p.generation == a.scripts[p.script].generation && p.key in first + second
    {
      if k < |b.published| {
        assert c.published[k] == b.published[k];
      }
    }
  }

  lemma {:induction false} RoundsKeepInv(q: Queue, ws: seq<World>)
    requires Inv(q)
    ensures Inv(Rounds(q, ws)) && PublishesLatest(q, Rounds(q, ws), AllKeys(ws))
    decreases |ws|
  {
    hide Round;
    if CanStart(q) && ws != [] {
      RoundKeepsInv(q, ws[0]);
      var turn := Round(q, ws[0]);
      assert AllKeys(ws) == KeysOf(ws[0]) + AllKeys(ws[1..]);
      assert PublishesLatest(q, turn.queue, AllKeys(ws));
      if turn.again {
        RoundsKeepInv(turn.queue, ws[1..]);
        PublishesThen(q, turn.queue, Rounds(q, ws), KeysOf(ws[0]), AllKeys(ws[1..]));
      }
    }
  }

  // A waiting request is current, and none waits behind a build that is still current.
  lemma QueueIsCurrent(q: Queue)
    requires Inv(q)
    ensures q.pending != [] ==> q.pending[0].generation == q.scripts[q.pending[0].script].generation
    ensures q.active.Some? && q.active.value.request.generation == q.scripts[q.active.value.request.script].generation
            ==> !exists other <- q.pending :: other.script == q.active.value.request.script
  {
  }

  lemma FinishedKeepsInv(q: Queue, r: Request, plan: Plan, exitOk: bool, w: World)
    requires Inv(q.(files := {})) && q.active.None? && plan.Plan? && q.files <= {Adapter(plan), Output(plan)}
    requires r.script in q.scripts && r.generation == q.scripts[r.script].generation
    ensures Inv(Finished(q, r, plan, exitOk, w)) && PublishesLatest(q, Finished(q, r, plan, exitOk, w), {plan.key})
  {
    assert q.files - Temps(plan) == {};
  }

  lemma RecheckedKeepsInv(q: Queue, r: Request, plan: Plan, w: World)
    requires Inv(q.(files := {})) && q.active.None? && plan.Plan? && q.files <= {Adapter(plan), Output(plan)}
    requires r.script in q.scripts && r.generation == q.scripts[r.script].generation
    requires forall k: nat | k < |q.pending| :: q.pending[k].script != r.script
    ensures Inv(Rechecked(q, r, plan, w)) && PublishesLatest(q, Rechecked(q, r, plan, w), KeysOf(w))
  {
    hide Finished, Settled, Inv;
    var cleaned := q.(files := {});
    assert q.files - {Output(plan), Adapter(plan)} == {};
    FinishedKeepsInv(q, r, plan, true, w);
    SettledKeepsInv(cleaned, r.script);
    PutBackKeepsInv(cleaned, r);
  }

  lemma CompletedKeepsInv(q: Queue, exitOk: bool, w: World)
    requires Inv(q) && q.active.Some?
    ensures Inv(Completed(q, exitOk, w)) && PublishesLatest(q, Completed(q, exitOk, w), KeysOf(w))
  {
    hide Rechecked, Finished;
    var Active(r, plan) := q.active.value;
    var idle := q.(active := None);
    assert q.files - {Output(plan), Adapter(plan)} == {};
    assert Inv(idle.(files := {}));
    if r.generation == q.scripts[r.script].generation {
      QueueIsCurrent(q);
      if exitOk {
        NumberingKeepsInv(idle.(files := {}));
        RecheckedKeepsInv(idle.(nextId := q.nextId + 1), r, plan, w);
      } else {
        FinishedKeepsInv(idle, r, plan, false, w);
        FailurePublishesNothing(idle, r, plan, w);
      }
    }
  }

  lemma FailurePublishesNothing(q: Queue, r: Request, plan: Plan, w: World)
    requires r.script in q.scripts && plan.Plan?
    ensures Finished(q, r, plan, false, w).published == q.published
  {
  }

  lemma StoppedKeepsInv(q: Queue)
    requires Inv(q)
    ensures Inv(Stopped(q)) && (!q.shutDown ==> Stopped(q).files == {} && Stopped(q).pending == [])
  {
  }

  /******* Whole runs *******/

  datatype Event =
    | Open(s: ScriptId, path: string, source: string)
    | Edit(s: ScriptId, source: string)
    | Rename(s: ScriptId, path: string)
    | Reload(s: ScriptId, key: Key)     // a synchronous compile publishes by itself
    | Save(s: ScriptId)
    | Start(ws: seq<World>)
    | Exit(exitOk: bool, w: World, ws: seq<World>)
    | ShutDown

  predicate Possible(q: Queue, e: Event) {
    match e
    case Open(s, _, _) => s !in q.scripts
    case Edit(s, _) => s in q.scripts
    case Rename(s, _) => s in q.scripts
    case Reload(s, _) => s in q.scripts
    case Save(s) => s in q.scripts
    case Start(_) => Known(q)
    case Exit(_, _, _) =>
      && !q.shutDown && Known(q)
      && q.active.Some? && q.active.value.request.script in q.scripts && q.active.value.plan.Plan?
    case ShutDown => true
  }

  lemma CompletedKeepsKnown(q: Queue, exitOk: bool, w: World)
    requires Known(q) && q.active.Some? && q.active.value.request.script in q.scripts && q.active.value.plan.Plan?
    ensures Known(Completed(q, exitOk, w))
  {
    var placed := [q.active.value.request] + q.pending;
    assert forall k: nat | 0 < k < |placed| :: placed[k] == q.pending[k - 1];
  }

  function Do(q: Queue, e: Event): Queue
    requires Possible(q, e)
  {
    match e
    case Open(s, path, source) => q.(scripts := q.scripts[s := Script(path, source, 0, None, false)])
    case Edit(s, source) => q.(scripts := q.scripts[s := q.scripts[s].(source := source)])
    case Rename(s, path) => q.(scripts := q.scripts[s := q.scripts[s].(path := path)])
    case Reload(s, key) => q.(scripts := q.scripts[s := q.scripts[s].(loaded := Some(key), valid := true)])
    case Save(s) => Queued(q, s)
    case Start(ws) => Rounds(q, ws)
    case Exit(exitOk, w, ws) =>
      CompletedKeepsKnown(q, exitOk, w);
      Rounds(Completed(q, exitOk, w), ws)
    case ShutDown => Stopped(q)
  }

  const EMPTY := Queue(map[], [], None, 1, false, {}, [], {})

  ghost predicate IsRun(run: seq<Queue>, events: seq<Event>) {
    && |run| == |events| + 1 && run[0] == EMPTY
    && forall i: nat | i < |events| :: Possible(run[i], events[i]) && run[i + 1] == Do(run[i], events[i])
  }

  function EventKeys(e: Event): set<Key> {
    match e
    case Start(ws) => AllKeys(ws)
    case Exit(_, w, ws) => KeysOf(w) + AllKeys(ws)
    case _ => {}
  }

  lemma DoKeepsInv(q: Queue, e: Event)
    requires Inv(q) && Possible(q, e)
    ensures Inv(Do(q, e))
    ensures e.Start? || e.Exit? ==> PublishesLatest(q, Do(q, e), EventKeys(e))
    ensures !e.Start? && !e.Exit? ==> Do(q, e).published == q.published
  {
    hide Queued, Rounds, Completed, Stopped, AllKeys, KeysOf;
    match e
    case Save(s) => QueuedKeepsInv(q, s);
      QueuedPublishesNothing(q, s);
    case Start(ws) => RoundsKeepInv(q, ws);
    case Exit(exitOk, w, ws) =>
      CompletedKeepsInv(q, exitOk, w);
      RoundsKeepInv(Completed(q, exitOk, w), ws);
      PublishesThen(q, Completed(q, exitOk, w), Do(q, e), KeysOf(w), AllKeys(ws));
    case ShutDown => StoppedKeepsInv(q);
      StoppedPublishesNothing(q);
    case _ =>
  }

  lemma QueuedPublishesNothing(q: Queue, s: ScriptId)
    requires s in q.scripts
    ensures Queued(q, s).published == q.published
  {
  }

  lemma StoppedPublishesNothing(q: Queue)
    ensures Stopped(q).published == q.published
  {
  }

  lemma {:induction false} RunsKeepInv(run: seq<Queue>, events: seq<Event>, i: nat)
    requires IsRun(run, events) && i < |run|
    ensures Inv(run[i])
  {
    hide Do, Possible;
    if i > 0 {
      RunsKeepInv(run, events, i - 1);
      DoKeepsInv(run[i - 1], events[i - 1]);
    }
  }

  /** Over every run: one waiting request per script, of the script's current generation
      and newer than its active build; and each step publishes only for the current
      generation, under a key computed in that step. */
  lemma OnlyTheLatestIsPublished(run: seq<Queue>, events: seq<Event>, i: nat, k: nat)
    requires IsRun(run, events) && i < |events| && |run[i].published| <= k < |run[i + 1].published|
    ensures var p := run[i + 1].published[k];
            && p.script in run[i].scripts && p.generation == run[i].scripts[p.script].generation
            && p.key in EventKeys(events[i])
  {
    hide Do, Possible, Inv, EventKeys;
    RunsKeepInv(run, events, i);
    DoKeepsInv(run[i], events[i]);
  }

  /** Over every run, neither generation check in the loops ever fires: the next request is
      current, and a request waits behind the active build of its script only when that
      build is outdated, so that no current build is ever thrown away for a newer request. */
  lemma StaleChecksNeverFire(run: seq<Queue>, events: seq<Event>, i: nat)
    requires IsRun(run, events) && i < |run|
    ensures var q := run[i];
            && (forall r <- q.pending :: r.script in q.scripts && r.generation == q.scripts[r.script].generation)
            && (q.active.Some? ==>
                  var r := q.active.value.request;
                  && r.script in q.scripts
                  && (r.generation == q.scripts[r.script].generation ==> forall other <- q.pending :: other.script != r.script)
                  && (forall other <- q.pending :: other.script == r.script ==> r.generation < other.generation))
  {
    hide Do, Possible, IsRun;
    RunsKeepInv(run, events, i);
    QueueIsCurrent(run[i]);
  }

  /** At the end of a build in any run, the compiled module is published exactly when the
      compiler succeeded for the current generation, the key computed after it ran is the
      key it was built under, and the module was moved into the cache and loaded; and then
      it is published under that key. */
  lemma CompiledIsPublishedIff(run: seq<Queue>, events: seq<Event>, i: nat, exitOk: bool, w: World)
    requires IsRun(run, events) && i < |run| && Possible(run[i], Exit(exitOk, w, []))
    ensures var Active(r, plan) := run[i].active.value;
            var after := Do(run[i], Exit(exitOk, w, []));
            && r.script in after.scripts
            && if && exitOk && r.generation == run[i].scripts[r.script].generation
                  && w.planned == Some(plan.key) && (w.peerPublished || w.moved) && w.loads
               then after.published == run[i].published + [Publication(r.script, r.generation, plan.key)] &&
                    after.scripts[r.script].loaded == Some(plan.key)
               else after.published == run[i].published &&
                    after.scripts[r.script].loaded == run[i].scripts[r.script].loaded
  {
    hide IsRun;
    RunsKeepInv(run, events, i);
    QueueIsCurrent(run[i]);
    assert Do(run[i], Exit(exitOk, w, [])) == Completed(run[i], exitOk, w);
  }

  // The key a round plans for a request: a new plan, or the plan it waited with if making it
  // anew under the lock gives the same key.
  function PlannedFor(r: Request, w: World): Option<Key> {
    match r.prepared
    case None => w.planned
    case Some(MovedFrom) => None
    case Some(Plan(key, _)) => if w.replanned == Some(key) then w.replanned else None
  }

  /** A round of any run publishes exactly when the key just planned for the next request is
      found in the cache under the lock, is not the one its script has loaded, and loads;
      and then it publishes that key for that request. */
  lemma CacheHitIsPublishedIff(run: seq<Queue>, events: seq<Event>, i: nat, w: World)
    requires IsRun(run, events) && i < |run| && Possible(run[i], Start([w])) && CanStart(run[i])
    ensures var r, after := run[i].pending[0], Round(run[i], w).queue;
            var key := PlannedFor(r, w);
            && r.script in run[i].scripts && r.script in after.scripts
            && if && key.Some? && w.lock == Acquired && w.stampMatches && w.loads
                  && run[i].scripts[r.script].loaded != key
               then after.published == run[i].published + [Publication(r.script, r.generation, key.value)] &&
                    after.scripts[r.script].loaded == key
               else after.published == run[i].published &&
                    after.scripts[r.script].loaded == run[i].scripts[r.script].loaded
  {
    hide IsRun;
    RunsKeepInv(run, events, i);
    QueueIsCurrent(run[i]);
    hide Inv;
    RoundPublishes(run[i], w);
  }

  lemma BuildPublishes(q: Queue, r: Request, plan: Plan, w: World)
    requires r.script in q.scripts && plan.Plan?
    ensures var after := Build(q, r, plan, w).queue;
            && r.script in after.scripts
            && if w.stampMatches && w.loads && q.scripts[r.script].loaded != Some(plan.key)
               then after.published == q.published + [Publication(r.script, r.generation, plan.key)] &&
                    after.scripts[r.script].loaded == Some(plan.key)
               else after.published == q.published && after.scripts[r.script].loaded == q.scripts[r.script].loaded
  {
  }

  // Whether `key` was published for `r` on the way from `q` to `after`, exactly when `hit`.
  predicate PublishedIff(q: Queue, after: Queue, r: Request, key: Option<Key>, hit: bool) {
    && r.script in q.scripts && r.script in after.scripts
    && if hit && key.Some? && q.scripts[r.script].loaded != key
       then after.published == q.published + [Publication(r.script, r.generation, key.value)] &&
            after.scripts[r.script].loaded == key
       else after.published == q.published && after.scripts[r.script].loaded == q.scripts[r.script].loaded
  }

  lemma PlannedPublishes(q: Queue, r: Request, plan: Plan, w: World)
    requires r.script in q.scripts && plan.Plan?
    ensures PublishedIff(q, Started(q, r, plan, false, w).queue, r, Some(plan.key),
                         w.lock == Acquired && w.stampMatches && w.loads)
  {
    BuildPublishes(q, r, plan, w);
    hide Build;
  }

  lemma ReplannedPublishes(q: Queue, r: Request, plan: Plan, w: World)
    requires r.script in q.scripts
    ensures PublishedIff(q, Started(q, r, plan, true, w).queue, r,
                         if plan.Plan? && w.replanned == Some(plan.key) then w.replanned else None,
                         w.lock == Acquired && w.stampMatches && w.loads)
  {
    BuildPublishes(q.(nextId := q.nextId + 1), r, Plan(w.replanned.GetOr(""), q.nextId), w);
    hide Build;
  }

  lemma RoundPublishes(q: Queue, w: World)
    requires CanStart(q) && q.pending[0].script in q.scripts
    requires q.pending[0].generation == q.scripts[q.pending[0].script].generation
    ensures PublishedIff(q, Round(q, w).queue, q.pending[0], PlannedFor(q.pending[0], w),
                         w.lock == Acquired && w.stampMatches && w.loads)
  {
    var r, rest := q.pending[0], q.(pending := q.pending[1..]);
    hide Started;
    if r.prepared.Some? {
      ReplannedPublishes(rest, r.(prepared := Some(MovedFrom)), r.prepared.value, w);
    } else if w.planned.Some? {
      PlannedPublishes(rest.(nextId := q.nextId + 1), r, Plan(w.planned.value, q.nextId), w);
    }
  }

  /** The private files of a process are at most the adapter and the output of its
      active build, and none are left when nothing is active. */
  lemma FilesBelongToTheActiveBuild(run: seq<Queue>, events: seq<Event>, i: nat)
    requires IsRun(run, events) && i < |run|
    ensures match run[i].active
            case None => run[i].files == {}
            case Some(a) => run[i].files <= {Adapter(a.plan), Output(a.plan)}
  {
    RunsKeepInv(run, events, i);
  }

  /******* What the queue does not guarantee *******/

  // The request that is built last for a script as things stand.
  predicate LastFor(q: Queue, s: ScriptId, r: Request) {
    && r.script == s
    && if exists other <- q.pending :: other.script == s then r in q.pending
       else q.active.Some? && q.active.value.request == r
  }

  /** Saving makes the newest source the one that is built last, except exactly when the
      active build already has that source while an older one is still waiting. */
  lemma NewestSourceIsBuiltLast(q: Queue, s: ScriptId)
    requires Inv(q) && s in q.scripts && !q.shutDown && q.scripts[s].path != ""
    ensures (exists r :: LastFor(Queued(q, s), s, r) && Asks(r, s, q.scripts[s]))
            <==> !(&& q.active.Some? && Asks(q.active.value.request, s, q.scripts[s])
                   && exists r <- q.pending :: r.script == s && !Asks(r, s, q.scripts[s]))
  {
    hide Place;
    var script := q.scripts[s];
    var r := Request(s, script.path, script.source, script.generation + 1, None);
    PlaceChangesOne(q.pending, r);
    if q.active.Some? && Asks(q.active.value.request, s, script) {
      assert Queued(q, s) == q;
      if !exists other <- q.pending :: other.script == s {
        assert LastFor(q, s, q.active.value.request);
      } else if other :| other in q.pending && other.script == s {
        assert Asks(other, s, script) ==> LastFor(q, s, other);
      }
    } else if other :| other in q.pending && Asks(other, s, script) {
      assert LastFor(Queued(q, s), s, other);
    } else {
      assert LastFor(Queued(q, s), s, r);
    }
  }

  /******* Plans of requests that have waited *******/

  predicate HasWaited(q: Queue, r: Request) {
    (r.script, r.generation) in q.waited
  }

  // What is left in a request whose plan is in use.
  function Rest(q: Queue, r: Request): Option<Plan> {
    if HasWaited(q, r) then Some(MovedFrom) else None
  }

  // A request carries a plan iff it has waited; the one being built carries what is left of it.
  ghost predicate PlansFit(q: Queue) {
    && (forall r <- q.pending :: r.prepared.Some? <==> HasWaited(q, r))
    && (q.active.Some? ==> q.active.value.request.prepared == Rest(q, q.active.value.request))
    && (forall p <- q.waited :: p.0 in q.scripts && p.1 <= q.scripts[p.0].generation)
  }

  // A request in hand, its plan moved out if it had one.
  ghost predicate InHand(q: Queue, r: Request) {
    && Inv(q) && PlansFit(q) && q.active.None? && r.script in q.scripts
    && r.generation == q.scripts[r.script].generation && r.prepared == Rest(q, r)
    && forall other <- q.pending :: other.script != r.script
  }

  lemma WaitingFits(q: Queue, r: Request, plan: Plan)
    requires InHand(q, r)
    ensures PlansFit(PutBack(q, r, plan))
  {
    hide Inv;
    var next := PutBack(q, r, plan);
    forall other <- next.pending ensures other.prepared.Some? <==> HasWaited(next, other) {
      assert other == next.pending[0] || other in q.pending;
    }
  }

  lemma BuildFits(q: Queue, r: Request, plan: Plan, w: World)
    requires InHand(q, r) && plan.Plan?
    ensures PlansFit(Build(q, r, plan, w).queue)
  {
    hide Inv;
    forall other <- [r] + q.pending ensures other == r || other in q.pending {
    }
  }

  lemma NumberingFits(q: Queue, r: Request)
    requires InHand(q, r)
    ensures InHand(q.(nextId := q.nextId + 1), r)
  {
    NumberingKeepsInv(q);
    hide Inv;
  }

  lemma ReplannedFits(q: Queue, r: Request, key: Key, current: Plan, w: World)
    requires InHand(q, r) && current.Plan?
    ensures PlansFit(Replanned(q, r, key, current, w).queue)
  {
    WaitingFits(q, r, current);
    BuildFits(q, r, current, w);
    hide Inv, Build, PutBack;
  }

  lemma StartedFits(q: Queue, r: Request, plan: Plan, reused: bool, w: World)
    requires InHand(q, r) && (!reused ==> plan.Plan?)
    ensures PlansFit(Started(q, r, plan, reused, w).queue)
  {
    hide Inv, Build, Replanned, PutBack, Settled, InHand, PlansFit;
    WaitingFits(q, r, plan);
    NumberingFits(q, r);
    SettledFits(q, r);
    if reused {
      ReplannedFits(q.(nextId := q.nextId + 1), r, if plan.Plan? then plan.key else "",
                    Plan(w.replanned.GetOr(""), q.nextId), w);
    } else {
      BuildFits(q, r, plan, w);
    }
  }

  lemma SettledFits(q: Queue, r: Request)
    requires InHand(q, r)
    ensures PlansFit(Settled(q, r.script))
  {
    hide Inv;
  }

  // Taking the next request out of the queue puts it in hand.
  lemma NextInHand(q: Queue)
    requires Inv(q) && PlansFit(q) && CanStart(q)
    ensures var r, rest := q.pending[0], q.(pending := q.pending[1..]);
            && r.script in q.scripts && r.generation == q.scripts[r.script].generation
            && InHand(rest, r.(prepared := Rest(q, r))) && (r.prepared.Some? <==> HasWaited(q, r))
  {
    var r, rest := q.pending[0], q.(pending := q.pending[1..]);
    assert r in q.pending;
    assert forall k: nat | k < |rest.pending| :: rest.pending[k] == q.pending[k + 1];
    assert forall other <- rest.pending :: other in q.pending;
    assert Inv(rest);
    hide Inv;
    forall other <- rest.pending ensures other.script != r.script {
      var k: nat :| k < |rest.pending| && rest.pending[k] == other;
      OthersDiffer(q, k + 1);
    }
  }

  lemma OthersDiffer(q: Queue, k: nat)
    requires Inv(q) && 0 < k < |q.pending|
    ensures q.pending[k].script != q.pending[0].script
  {
  }

  lemma RoundFits(q: Queue, w: World)
    requires Inv(q) && PlansFit(q) && CanStart(q)
    ensures PlansFit(Round(q, w).queue)
  {
    hide Inv, PlansFit, InHand, Started, Settled;
    NextInHand(q);
    var r, rest := q.pending[0], q.(pending := q.pending[1..]);
    var inHand := r.(prepared := Rest(q, r));
    NumberingFits(rest, inHand);
    SettledFits(rest.(nextId := q.nextId + 1), inHand);
    if r.prepared.Some? {
      StartedFits(rest, inHand, r.prepared.value, true, w);
    } else if w.planned.Some? {
      assert inHand == r;
      StartedFits(rest.(nextId := q.nextId + 1), r, Plan(w.planned.value, q.nextId), false, w);
    }
  }

  lemma {:induction false} RoundsFit(q: Queue, ws: seq<World>)
    requires Inv(q) && PlansFit(q)
    ensures PlansFit(Rounds(q, ws))
    decreases |ws|
  {
    hide Inv, Round, PlansFit;
    InvIsKnown(q);
    if CanStart(q) && ws != [] {
      RoundFits(q, ws[0]);
      RoundKeepsInv(q, ws[0]);
      RoundsFit(Round(q, ws[0]).queue, ws[1..]);
    }
  }

  lemma InvIsKnown(q: Queue)
    requires Inv(q)
    ensures Known(q)
  {
  }

  // Whatever becomes of the active request, the plans of the others are not touched.
  lemma ReturnedFits(q: Queue, q': Queue)
    requires PlansFit(q) && q.active.Some? && q'.active.None? && q'.waited == q.waited
    requires q'.pending == q.pending || q'.pending == [q.active.value.request] + q.pending
    requires q'.scripts.Keys == q.scripts.Keys
    requires forall s <- q.scripts :: q'.scripts[s].generation == q.scripts[s].generation
    ensures PlansFit(q')
  {
    forall r <- q'.pending ensures r == q.active.value.request || r in q.pending {
    }
  }

  lemma CompletedFits(q: Queue, exitOk: bool, w: World)
    requires Inv(q) && PlansFit(q) && q.active.Some?
    ensures PlansFit(Completed(q, exitOk, w))
  {
    hide PlansFit;
    ReturnedFits(q, Completed(q, exitOk, w));
  }

  lemma QueuedFits(q: Queue, s: ScriptId)
    requires Inv(q) && PlansFit(q) && s in q.scripts
    ensures PlansFit(Queued(q, s))
  {
    var script := q.scripts[s];
    var r := Request(s, script.path, script.source, script.generation + 1, None);
    PlaceChangesOne(q.pending, r);
    hide Place, Inv;
    forall other <- Place(q.pending, r) ensures other == r || other in q.pending {
    }
  }

  lemma DoFits(q: Queue, e: Event)
    requires Inv(q) && PlansFit(q) && Possible(q, e)
    ensures PlansFit(Do(q, e))
  {
    hide Queued, Rounds, Completed, Inv;
    match e
    case Save(s) => QueuedFits(q, s);
    case Start(ws) => RoundsFit(q, ws);
    case Exit(exitOk, w, ws) =>
      CompletedFits(q, exitOk, w);
      CompletedKeepsInv(q, exitOk, w);
      RoundsFit(Completed(q, exitOk, w), ws);
    case _ =>
  }

  /** Over every run, a waiting request carries a plan iff it was put back with one, and the
      active request carries a moved-out plan iff it was, and none otherwise. */
  lemma {:induction false} RunsFitPlans(run: seq<Queue>, events: seq<Event>, i: nat)
    requires IsRun(run, events) && i < |run|
    ensures PlansFit(run[i])
  {
    hide Do, Possible, Inv;
    if i > 0 {
      RunsFitPlans(run, events, i - 1);
      RunsKeepInv(run, events, i - 1);
      DoFits(run[i - 1], events[i - 1]);
    }
  }

  // A plan that was moved out locks nothing: its request is dropped.
  lemma MovedPlanIsDropped(q: Queue, w: World)
    requires Inv(q) && CanStart(q) && q.pending[0].prepared == Some(MovedFrom)
    ensures var r := q.pending[0];
            r.script in q.scripts && Round(q, w).queue == Settled(q.(pending := q.pending[1..]), r.script)
  {
  }

  lemma FreshPlanCanStart(q: Queue)
    requires Inv(q) && CanStart(q) && q.pending[0].prepared == None
    ensures q.pending[0].script in q.scripts && exists w :: Round(q, w).queue.active.Some?
  {
    var w := BUILDING.(planned := Some("key"));
    assert Round(q, w).queue.active.Some?;
  }

  /** In every run, a request whose inputs changed during its build is put back first in the
      queue. It can be built again iff it had not been put back with a plan before: if it
      had, whatever the next round meets, the request is dropped and nothing is published
      for it, although its inputs are newer than anything published. */
  lemma RetryNeedsFreshPlan(run: seq<Queue>, events: seq<Event>, i: nat, w: World)
    requires IsRun(run, events) && i < |run| && Possible(run[i], Exit(true, w, []))
    requires var Active(r, plan) := run[i].active.value;
             r.generation == run[i].scripts[r.script].generation && w.planned.Some? && w.planned.value != plan.key
    ensures var r, after := run[i].active.value.request, Do(run[i], Exit(true, w, []));
            && CanStart(after) && after.pending[0] == r && r.script in after.scripts
            && ((exists v :: Round(after, v).queue.active.Some?) <==> !HasWaited(run[i], r))
            && (HasWaited(run[i], r) ==>
                  forall v :: Round(after, v).queue == Settled(after.(pending := after.pending[1..]), r.script))
  {
    RunsKeepInv(run, events, i);
    RunsFitPlans(run, events, i);
    hide IsRun;
    var q := run[i];
    var Active(r, plan) := q.active.value;
    ChangedInputsPutBack(q, w, r, plan);
    CompletedKeepsInv(q, true, w);
    var after := Do(q, Exit(true, w, []));
    assert after == Completed(q, true, w);
    assert r.prepared == Rest(q, r);
    ExitKeepsScripts(q, w);
    hide Inv, Do, Completed, Round;
    if HasWaited(q, r) {
      forall v ensures Round(after, v).queue == Settled(after.(pending := after.pending[1..]), r.script) {
        MovedPlanIsDropped(after, v);
      }
      assert forall v :: Round(after, v).queue.active.None?;
    } else {
      FreshPlanCanStart(after);
    }
  }

  lemma ExitKeepsScripts(q: Queue, w: World)
    requires Inv(q) && q.active.Some?
    ensures Completed(q, true, w).scripts.Keys == q.scripts.Keys && Completed(q, true, w).shutDown == q.shutDown
  {
  }

  /** What an exit with changed inputs puts back. */
  lemma ChangedInputsPutBack(q: Queue, w: World, r: Request, plan: Plan)
    requires Inv(q) && q.active == Some(Active(r, plan)) && r.generation == q.scripts[r.script].generation
    requires w.planned.Some? && w.planned.value != plan.key
    ensures var q' := Completed(q, true, w);
            q'.pending == [r] + q.pending && q'.active == None && q'.files == {} && q'.published == q.published
  {
    QueueIsCurrent(q);
    assert q.files - {Output(plan), Adapter(plan)} == {};
  }

  /******* Runs where that happens *******/

  lemma Next(run: seq<Queue>, events: seq<Event>, e: Event, next: Queue)
    returns (run': seq<Queue>, events': seq<Event>)
    requires IsRun(run, events) && Possible(run[|run| - 1], e) && Do(run[|run| - 1], e) == next
    ensures IsRun(run', events') && run' == run + [next]
  {
    run', events' := run + [next], events + [e];
  }

  function Asking(source: string, generation: nat, prepared: Option<Plan>): Request {
    Request(0, "p", source, generation, prepared)
  }

  function Scripted(source: string, generation: nat): map<ScriptId, Script> {
    map[0 := Script("p", source, generation, None, false)]
  }

  // One script, opened and saved.
  const SAVED := Queue(Scripted("a", 1), [Asking("a", 1, None)], None, 1, false, {}, [], {})

  lemma OpenedAndSaved() returns (run: seq<Queue>, events: seq<Event>)
    ensures IsRun(run, events) && run[|run| - 1] == SAVED
  {
    hide Rounds, Completed, Stopped;
    var e, first := Open(0, "p", "a"), Queue(Scripted("a", 0), [], None, 1, false, {}, [], {});
    assert Do(EMPTY, e) == first;
    run, events := Next([EMPTY], [], e, first);
    assert Do(first, Save(0)) == SAVED;
    run, events := Next(run, events, Save(0), SAVED);
  }

  lemma OneRound(q: Queue, w: World)
    requires Known(q) && CanStart(q)
    ensures Rounds(q, []) == q
    ensures Round(q, w).queue.pending == [] || !Round(q, w).again || Round(q, w).queue.active.Some?
            ==> Rounds(q, [w]) == Round(q, w).queue
  {
    hide Round;
    RoundKeepsKnown(q, w);
    assert [w][1..] == [];
    assert Rounds(Round(q, w).queue, []) == Round(q, w).queue;
  }

  // The request waits for the lock, is built under the same key, and its inputs have changed
  // when the compiler exits.
  const WAITING := SAVED.(pending := [Asking("a", 1, Some(Plan("k", 1)))], nextId := 2, waited := {(0, 1)})
  const RETRIED := WAITING.(pending := [], nextId := 3,
                            active := Some(Active(Asking("a", 1, Some(MovedFrom)), Plan("k", 2))),
                            files := {Adapter(Plan("k", 2)), Output(Plan("k", 2))})
  const RETURNED := RETRIED.(active := None, files := {}, nextId := 4, pending := [Asking("a", 1, Some(MovedFrom))])
  const DROPPED := RETURNED.(pending := [])

  lemma WaitsForLock()
    ensures Do(SAVED, Start([LOCKED_OUT.(planned := Some("k"))])) == WAITING
  {
    var w := LOCKED_OUT.(planned := Some("k"));
    assert Round(SAVED, w).queue == WAITING;
    hide Round;
    OneRound(SAVED, w);
  }

  lemma BuildsAfterWaiting()
    ensures Do(WAITING, Start([BUILDING.(replanned := Some("k"))])) == RETRIED
  {
    var w := BUILDING.(replanned := Some("k"));
    assert Round(WAITING, w).queue == RETRIED;
    hide Round;
    OneRound(WAITING, w);
  }

  lemma ReturnsToQueue()
    ensures Do(RETRIED, Exit(true, BUILT.(planned := Some("new")), [])) == RETURNED
  {
    var w := BUILT.(planned := Some("new"));
    assert RETRIED.files - {Output(Plan("k", 2)), Adapter(Plan("k", 2))} == {};
    assert Completed(RETRIED, true, w) == RETURNED;
  }

  lemma IsDroppedThen(w: World)
    ensures Do(RETURNED, Start([w])) == DROPPED
  {
    assert Round(RETURNED, w).queue == DROPPED by {
      assert RETURNED.scripts[0 := RETURNED.scripts[0].(valid := false)] == RETURNED.scripts;
    }
    hide Round;
    OneRound(RETURNED, w);
  }

  /** A run in which the newest inputs of a script are never built: its request has waited for
      the lock, the inputs change while it is compiled, and the request that is put back is
      gone after one round, whatever that round meets, with nothing published. */
  lemma ChangedInputsAreDropped(w: World) returns (run: seq<Queue>, events: seq<Event>)
    ensures IsRun(run, events) && RETURNED in run && run[|run| - 1] == DROPPED
    ensures DROPPED.pending == [] && DROPPED.active.None? && DROPPED.published == []
  {
    run, events := OpenedAndSaved();
    WaitsForLock();
    BuildsAfterWaiting();
    ReturnsToQueue();
    IsDroppedThen(w);
    hide Do;
    run, events := Next(run, events, Start([LOCKED_OUT.(planned := Some("k"))]), WAITING);
    run, events := Next(run, events, Start([BUILDING.(replanned := Some("k"))]), RETRIED);
    run, events := Next(run, events, Exit(true, BUILT.(planned := Some("new")), []), RETURNED);
    var put := |run| - 1;
    assert run[put] == RETURNED;
    ghost var before := run;
    run, events := Next(run, events, Start([w]), DROPPED);
    assert run[put] == before[put];
  }

  // The text "a" is being built when "b" is saved, and then "a" is restored and saved again.
  const BUILDING_A := SAVED.(pending := [], nextId := 2, active := Some(Active(Asking("a", 1, None), Plan("ka", 1))),
                             files := {Adapter(Plan("ka", 1)), Output(Plan("ka", 1))})
  const B_WAITS := BUILDING_A.(scripts := Scripted("b", 2), pending := [Asking("b", 2, None)])
  const A_RESTORED := B_WAITS.(scripts := Scripted("a", 2))
  const BUILDING_B := A_RESTORED.(pending := [], nextId := 3, active := Some(Active(Asking("b", 2, None), Plan("kb", 2))),
                                  files := {Adapter(Plan("kb", 2)), Output(Plan("kb", 2))})
  const B_PUBLISHED := BUILDING_B.(active := None, files := {}, nextId := 4, published := [Publication(0, 2, "kb")],
                                   scripts := map[0 := Script("p", "a", 2, Some("kb"), true)])

  lemma StartsBuildingA()
    ensures Do(SAVED, Start([BUILDING.(planned := Some("ka"))])) == BUILDING_A
  {
    var w := BUILDING.(planned := Some("ka"));
    assert Round(SAVED, w).queue == BUILDING_A;
    hide Round;
    OneRound(SAVED, w);
  }

  lemma SavesB()
    ensures Do(Do(BUILDING_A, Edit(0, "b")), Save(0)) == B_WAITS
    ensures Possible(BUILDING_A, Edit(0, "b")) && Possible(Do(BUILDING_A, Edit(0, "b")), Save(0))
  {
    hide Rounds, Completed, Stopped;
  }

  lemma RestoresA()
    ensures Do(B_WAITS, Edit(0, "a")) == A_RESTORED && Do(A_RESTORED, Save(0)) == A_RESTORED
  {
    hide Rounds, Completed, Stopped;
  }

  lemma StartsBuildingB()
    ensures Do(A_RESTORED, Exit(true, BUILT.(planned := Some("ka")), [BUILDING.(planned := Some("kb"))])) == BUILDING_B
  {
    var idle := A_RESTORED.(active := None, files := {});
    assert A_RESTORED.files - {Output(Plan("ka", 1)), Adapter(Plan("ka", 1))} == {};
    assert Completed(A_RESTORED, true, BUILT.(planned := Some("ka"))) == idle;
    var w := BUILDING.(planned := Some("kb"));
    assert Round(idle, w).queue == BUILDING_B;
    hide Round, Completed;
    OneRound(idle, w);
  }

  lemma PublishesB()
    ensures Do(BUILDING_B, Exit(true, BUILT.(planned := Some("kb")), [])) == B_PUBLISHED
  {
    var w := BUILT.(planned := Some("kb"));
    assert BUILDING_B.files - Temps(Plan("kb", 2)) == {};
    assert Completed(BUILDING_B, true, w) == B_PUBLISHED;
  }

  /** A run in which saving the newest text changes nothing, and the older one is what ends up
      published: nothing is left to build, and the script's text is not the one it was
      built from. */
  lemma OlderTextIsPublished() returns (run: seq<Queue>, events: seq<Event>)
    ensures IsRun(run, events) && run[|run| - 1] == B_PUBLISHED
    ensures Queued(A_RESTORED, 0) == A_RESTORED && A_RESTORED.pending == [Asking("b", 2, None)]
    ensures B_PUBLISHED.pending == [] && B_PUBLISHED.active.None? && B_PUBLISHED.scripts[0].source == "a"
  {
    run, events := OpenedAndSaved();
    StartsBuildingA();
    SavesB();
    RestoresA();
    StartsBuildingB();
    PublishesB();
    hide Do;
    run, events := Next(run, events, Start([BUILDING.(planned := Some("ka"))]), BUILDING_A);
    run, events := Next(run, events, Edit(0, "b"), Do(BUILDING_A, Edit(0, "b")));
    run, events := Next(run, events, Save(0), B_WAITS);
    run, events := Next(run, events, Edit(0, "a"), A_RESTORED);
    run, events := Next(run, events, Save(0), A_RESTORED);
    run, events := Next(run, events, Exit(true, BUILT.(planned := Some("ka")), [BUILDING.(planned := Some("kb"))]), BUILDING_B);
    run, events := Next(run, events, Exit(true, BUILT.(planned := Some("kb")), []), B_PUBLISHED);
  }

  /******* A synchronous compile *******/

  // An attempt is made again when the cached module has gone or the key has changed since.
  predicate MadeAgain(w: World) {
    && w.planned.Some? && w.lock == Acquired
    && if w.stampMatches then !w.loads && w.outputGone
       else w.adapterWritten && w.compilerStarts && w.replanned.Some? && w.replanned != w.planned
  }

  // An attempt gives a module from the cache, or one compiled under a key that is still the same.
  predicate GivesModule(w: World) {
    && w.planned.Some? && w.lock == Acquired && w.loads
    && (w.stampMatches ||
        (w.adapterWritten && w.compilerStarts && w.replanned == w.planned && (w.peerPublished || w.moved)))
  }

  function Attempted(attempts: seq<World>): Option<Key> {
    if attempts == [] then None
    else
      var w := attempts[0];
      if w.planned.None? || w.lock != Acquired then None
      else if w.stampMatches then
        if w.loads then w.planned else if w.outputGone then Attempted(attempts[1..]) else None
      else if !w.adapterWritten || !w.compilerStarts || w.replanned.None? then None
      else if w.replanned != w.planned then Attempted(attempts[1..])
      else if (w.peerPublished || w.moved) && w.loads then w.planned
      else None
  }

  // Attempt `k` gives the module, after attempts that were made again.
  predicate Decides(attempts: seq<World>, k: nat, key: Key) {
    && k < |attempts| && GivesModule(attempts[k]) && attempts[k].planned == Some(key)
    && forall j: nat | j < k :: MadeAgain(attempts[j])
  }

  /** The key of a synchronous compile is that of the first attempt that gives a module, if
      every attempt before it is one that is made again. */
  lemma {:induction false} AttemptedIff(attempts: seq<World>, key: Key)
    ensures Attempted(attempts) == Some(key) <==> exists k: nat :: Decides(attempts, k, key)
  {
    FirstAttempt(attempts);
    hide GivesModule, MadeAgain, Attempted;
    if attempts != [] {
      AttemptedIff(attempts[1..], key);
      GivesOrAgain(attempts[0]);
      if GivesModule(attempts[0]) {
        assert Decides(attempts, 0, key) <==> attempts[0].planned == Some(key);
      } else if MadeAgain(attempts[0]) {
        forall k: nat ensures Decides(attempts, k + 1, key) <==> Decides(attempts[1..], k, key) {
          DecidesLater(attempts, k, key);
        }
        if k: nat :| Decides(attempts, k, key) {
          assert Decides(attempts[1..], k - 1, key);
        }
      }
    }
  }

  lemma FirstAttempt(attempts: seq<World>)
    ensures Attempted([]) == None
    ensures attempts != [] ==>
              Attempted(attempts) == if GivesModule(attempts[0]) then attempts[0].planned
                                     else if MadeAgain(attempts[0]) then Attempted(attempts[1..])
                                     else None
  {
  }

  lemma DecidesLater(attempts: seq<World>, k: nat, key: Key)
    requires attempts != [] && MadeAgain(attempts[0])
    ensures Decides(attempts, k + 1, key) <==> Decides(attempts[1..], k, key)
  {
    hide GivesModule, MadeAgain;
    if Decides(attempts, k + 1, key) {
      assert forall j: nat | j < k :: attempts[1..][j] == attempts[j + 1];
    }
    if Decides(attempts[1..], k, key) {
      forall j: nat | j < k + 1 ensures MadeAgain(attempts[j]) {
        assert j > 0 ==> attempts[j] == attempts[1..][j - 1];
      }
    }
  }

  lemma GivesOrAgain(w: World)
    ensures !(GivesModule(w) && MadeAgain(w))
  {
  }

  /******* The manager object *******/

  class BuildManager {
    var scripts: map<ScriptId, Script>
    var pending: seq<Request>
    var active: Option<Active>
    var nextId: nat
    var shutDown: bool
    var files: set<TempFile>
    var published: seq<Publication>
    var waited: set<(ScriptId, nat)>

    function Contents(): Queue
      reads this
    {
      Queue(scripts, pending, active, nextId, shutDown, files, published, waited)
    }

    constructor ()
      ensures Contents() == EMPTY && Inv(Contents())
    {
      scripts, pending, active, nextId, shutDown, files := map[], [], None, 1, false, {};
      published, waited := [], {};
    }

    method IsWaiting(s: ScriptId, script: Script) returns (found: bool)
      ensures found <==> exists r <- pending :: Asks(r, s, script)
    {
      for k := 0 to |pending|
        invariant !exists r <- pending[..k] :: Asks(r, s, script)
      {
        if Asks(pending[k], s, script) {
          return true;
        }
      }
      assert pending[..|pending|] == pending;
      return false;
    }

    method PlaceRequest(request: Request)
      modifies this`pending
      ensures pending == Place(old(pending), request)
    {
      for k := 0 to |pending|
        invariant pending == old(pending)
        invariant Place(pending, request) == pending[..k] + Place(pending[k..], request)
      {
        assert pending[k..][1..] == pending[k + 1..];
        if pending[k].script == request.script {
          assert Place(pending[k..], request) == [request] + pending[k + 1..];
          pending := pending[k := request];
          return;
        }
      }
      pending := pending + [request];
    }

    method QueueCompile(s: ScriptId)
      requires s in scripts
      requires Inv(Contents())
      modifies this
      ensures Inv(Contents())
      ensures Contents() == Queued(old(Contents()), s)
    {
      QueuedKeepsInv(Contents(), s);
      hide Inv;
      hide Asks, Place;
      var script := scripts[s];
      if shutDown || script.path == "" || (active.Some? && Asks(active.value.request, s, script)) {
        return;
      }
      var waiting := IsWaiting(s, script);
      if waiting {
        return;
      }
      scripts := scripts[s := script.(generation := script.generation + 1)];
      PlaceRequest(Request(s, script.path, script.source, script.generation + 1, None));
    }

    method KeepOldModule(s: ScriptId)
      requires s in scripts
      modifies this
      ensures Contents() == Settled(old(Contents()), s)
    {
      scripts := scripts[s := scripts[s].(valid := scripts[s].loaded.Some?)];
    }

    method PublishModule(r: Request, key: Key)
      requires r.script in scripts
      modifies this
      ensures Contents() == Publish(old(Contents()), r, key)
    {
      scripts := scripts[r.script := scripts[r.script].(loaded := Some(key), valid := true)];
      published := published + [Publication(r.script, r.generation, key)];
    }

    /** Moves a compiled module into the cache, loads it and stamps it. */
    method Finish(plan: Plan, exitOk: bool, needsCompile: bool, w: World) returns (module_: bool)
      modifies this`files
      ensures files == old(files) - Temps(plan)
      ensures module_ == (exitOk && (needsCompile ==> w.peerPublished || w.moved) && w.loads)
    {
      files := files - {Adapter(plan)};
      files := files - {StampCopy(plan)};
      if !exitOk {
        files := files - {Output(plan)};
        return false;
      }
      if needsCompile {
        // A rename takes the private output away just as a removal does.
        files := files - {Output(plan)};
        if !w.peerPublished && !w.moved {
          return false;
        }
      }
      files := files - {Output(plan)};
      if !w.loads {
        return false;
      }
      if w.stampWritten {
        files := files + {StampCopy(plan)};
      }
      files := files - {StampCopy(plan)};
      return true;
    }

    method BuildNow(r: Request, plan: Plan, w: World) returns (again: bool)
      requires r.script in scripts && plan.Plan?
      modifies this
      ensures Turn(Contents(), again) == Build(old(Contents()), r, plan, w)
    {
      if w.stampMatches {
        if scripts[r.script].loaded == Some(plan.key) {
          scripts := scripts[r.script := scripts[r.script].(valid := true)];
          return true;
        }
        var loaded := Finish(plan, true, false, w);
        if loaded {
          PublishModule(r, plan.key);
        } else if w.outputGone {
          pending := [r] + pending;
        } else {
          KeepOldModule(r.script);
        }
        return true;
      }
      if !w.adapterWritten {
        files := files - {Adapter(plan)};
        KeepOldModule(r.script);
        return true;
      }
      files := files + {Adapter(plan)};
      files := files - {Output(plan)};
      if !w.compilerStarts {
        files := files - {Adapter(plan)};
        KeepOldModule(r.script);
        assert files == old(files) - {Adapter(plan), Output(plan)};
        return true;
      }
      active := Some(Active(r, plan));
      files := files + {Output(plan)};
      assert files == old(files) + {Adapter(plan), Output(plan)};
      return false;
    }

    method WaitAgain(request: Request, plan: Plan)
      modifies this`pending, this`waited
      ensures Contents() == PutBack(old(Contents()), request, plan)
    {
      pending := [request.(prepared := Some(plan))] + pending;
      waited := waited + {(request.script, request.generation)};
    }

    method StartOne(w: World) returns (again: bool)
      requires CanStart(Contents()) && pending[0].script in scripts
      modifies this
      ensures Turn(Contents(), again) == Round(old(Contents()), w)
    {
      hide Build;
      var request := pending[0];
      pending := pending[1..];
      if request.generation != scripts[request.script].generation {
        return true;
      }
      var reused := request.prepared.Some?;
      var plan;
      if reused {
        plan := request.prepared.value;
        request := request.(prepared := Some(MovedFrom));
      } else {
        var id := nextId;
        nextId := nextId + 1;
        if w.planned.None? {
          KeepOldModule(request.script);
          return true;
        }
        plan := Plan(w.planned.value, id);
      }
      var lock := LockFor(plan, w);
      if lock == Busy {
        WaitAgain(request, plan);
        return false;
      }
      if lock == LockError {
        KeepOldModule(request.script);
        return true;
      }
      if reused {
        var id := nextId;
        nextId := nextId + 1;
        if w.replanned.None? {
          KeepOldModule(request.script);
          return true;
        }
        var current := Plan(w.replanned.value, id);
        if current.key != plan.key {
          WaitAgain(request, current);
          return false;
        }
        plan := current;
      }
      again := BuildNow(request, plan, w);
    }

    method StartNext(ws: seq<World>)
      requires Inv(Contents())
      modifies this
      ensures Known(old(Contents())) && Inv(Contents())
      ensures Contents() == Rounds(old(Contents()), ws)
    {
      InvIsKnown(Contents());
      RoundsKeepInv(Contents(), ws);
      hide Inv;
      hide Round;
      if shutDown {
        return;
      }
      var k := 0;
      while active.None? && pending != [] && k < |ws|
        invariant k <= |ws| && Known(Contents()) && !shutDown
        invariant Rounds(Contents(), ws[k..]) == Rounds(old(Contents()), ws)
        decreases |ws| - k
      {
        RoundKeepsKnown(Contents(), ws[k]);
        RoundKeepsRunning(Contents(), ws[k]);
        assert ws[k..][1..] == ws[k + 1..];
        var again := StartOne(ws[k]);
        if !again {
          return;
        }
        k := k + 1;
      }
    }

    method CompleteActive(exitOk: bool, w: World, ws: seq<World>)
      requires Inv(Contents()) && active.Some?
      modifies this
      ensures Known(Completed(old(Contents()), exitOk, w))
      ensures Contents() == Rounds(Completed(old(Contents()), exitOk, w), ws)
      ensures Inv(Contents())
    {
      CompletedKeepsInv(Contents(), exitOk, w);
      hide Rounds;
      CompletedKeepsKnown(Contents(), exitOk, w);
      Complete(exitOk, w);
      StartNext(ws);
    }

    method Complete(exitOk: bool, w: World)
      requires active.Some? && active.value.request.script in scripts && active.value.plan.Plan?
      modifies this
      ensures Contents() == Completed(old(Contents()), exitOk, w)
    {
      var Active(request, plan) := active.value;
      active := None;
      if request.generation != scripts[request.script].generation {
        files := files - {Output(plan), Adapter(plan)};
        return;
      }
      if exitOk {
        for k := 0 to |pending|
          invariant !exists other <- pending[..k] :: other.script == request.script
        {
          if pending[k].script == request.script {
            files := files - {Output(plan), Adapter(plan)};
            return;
          }
        }
        assert pending[..|pending|] == pending;
        nextId := nextId + 1;
        if w.planned.None? {
          files := files - {Output(plan), Adapter(plan)};
          KeepOldModule(request.script);
          return;
        }
        if w.planned.value != plan.key {
          files := files - {Output(plan), Adapter(plan)};
          pending := [request] + pending;
          return;
        }
      }
      var loaded := Finish(plan, exitOk, true, w);
      if loaded {
        PublishModule(request, plan.key);
      } else {
        KeepOldModule(request.script);
      }
    }

    /** A synchronous compile, once the queue has drained: at most three attempts, under
        a key that is still the same afterwards, and nothing left on disk. */
    method Compile(attempts: seq<World>) returns (result: Option<Key>)
      requires |attempts| == 3 && files == {}
      modifies this`files, this`nextId
      ensures files == {}
      ensures result == if shutDown then None else Attempted(attempts)
    {
      if shutDown {
        return None;
      }
      for attempt := 0 to 3
        invariant files == {}
        invariant Attempted(attempts[attempt..]) == Attempted(attempts)
      {
        assert attempts[attempt..][1..] == attempts[attempt + 1..];
        var w := attempts[attempt];
        if w.planned.None? || w.lock != Acquired {
          nextId := nextId + 1;
          return None;
        }
        var plan := Plan(w.planned.value, nextId);
        nextId := nextId + 1;
        if w.stampMatches {
          var loaded := Finish(plan, true, false, w);
          if loaded {
            return Some(plan.key);
          }
          if !w.outputGone {
            return None;
          }
          continue;
        }
        files := files + {Adapter(plan)};
        if !w.adapterWritten {
          files := files - {Adapter(plan)};
          return None;
        }
        files := files + {Output(plan)};
        if !w.compilerStarts {
          var failed := Finish(plan, false, true, w);
          return None;
        }
        nextId := nextId + 1;
        if w.replanned != Some(plan.key) {
          files := files - {Output(plan)};
          files := files - {Adapter(plan)};
          if w.replanned.None? {
            return None;
          }
          continue;
        }
        var loaded := Finish(plan, true, true, w);
        return if loaded then Some(plan.key) else None;
      }
      return None;
    }

    method Shutdown()
      requires Inv(Contents())
      modifies this
      ensures Inv(Contents())
      ensures Contents() == Stopped(old(Contents()))
    {
      StoppedKeepsInv(Contents());
      hide Inv;
      if shutDown {
        return;
      }
      shutDown := true;
      if active.Some? {
        files := files - {Output(active.value.plan), Adapter(active.value.plan)};
      }
      pending := [];
      active := None;
    }
  }
}
