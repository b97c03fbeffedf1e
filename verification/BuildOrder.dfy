/** In which order the build queue serves its scripts, and what becomes of each request:
    stated by positions in the queue and by what the outside world answers. */
module BuildOrder {
  import opened Wrappers
  import opened BuildQueue

  predicate WaitsAt(q: Queue, k: nat, s: ScriptId) {
    k < |q.pending| && q.pending[k].script == s
  }

  ghost predicate Waits(q: Queue, s: ScriptId) {
    exists k: nat :: WaitsAt(q, k, s)
  }

  ghost predicate Before(q: Queue, a: ScriptId, b: ScriptId) {
    exists j: nat, k: nat :: j < k && WaitsAt(q, j, a) && WaitsAt(q, k, b)
  }

  /******* Queueing *******/

  lemma {:induction false} PlacedInPlace(pending: seq<Request>, r: Request, k: nat)
    requires k < |pending| && pending[k].script == r.script
    requires forall j: nat | j < k :: pending[j].script != r.script
    ensures Place(pending, r) == pending[k := r]
  {
    if k > 0 {
      PlacedInPlace(pending[1..], r, k - 1);
      assert pending[k := r] == [pending[0]] + pending[1..][k - 1 := r];
    }
  }

  lemma {:induction false} PlacedLast(pending: seq<Request>, r: Request)
    requires forall j: nat | j < |pending| :: pending[j].script != r.script
    ensures Place(pending, r) == pending + [r]
  {
    if pending != [] {
      PlacedLast(pending[1..], r);
      assert pending + [r] == [pending[0]] + (pending[1..] + [r]);
    }
  }

  // The text of the script is the one this request builds.
  predicate Covers(r: Request, s: ScriptId, script: Script) {
    r.script == s && r.path == script.path && r.source == script.source
  }

  /** Queueing asks for nothing that is being built or waiting already. Otherwise the script
      gets its next generation, and a request for its text takes the very place of the one
      that was waiting for it, or goes behind all; every other request stays where it is. */
  lemma QueueingKeepsPlaces(q: Queue, s: ScriptId)
    requires Inv(q) && s in q.scripts
    ensures var script, q' := q.scripts[s], Queued(q, s);
            var r := Request(s, script.path, script.source, script.generation + 1, None);
            if q.shutDown || script.path == "" || (q.active.Some? && Covers(q.active.value.request, s, script))
               || exists k: nat :: k < |q.pending| && Covers(q.pending[k], s, script)
            then q' == q
            else
              && q' == q.(scripts := q.scripts[s := script.(generation := script.generation + 1)], pending := q'.pending)
              && (forall k: nat | WaitsAt(q, k, s) :: q'.pending == q.pending[k := r])
              && (!Waits(q, s) ==> q'.pending == q.pending + [r])
  {
    var script := q.scripts[s];
    var r := Request(s, script.path, script.source, script.generation + 1, None);
    assert forall other :: Covers(other, s, script) <==> Asks(other, s, script);
    hide Place, Asks, Covers;
    if k: nat :| WaitsAt(q, k, s) {
      PlacedInPlace(q.pending, r, k);
      assert forall j: nat | WaitsAt(q, j, s) :: j == k;
    } else {
      assert forall j: nat | j < |q.pending| :: WaitsAt(q, j, q.pending[j].script);
      PlacedLast(q.pending, r);
    }
  }

  /** A script that was renamed and edited and is then saved waits to be built under its new name
      and text, in its next generation, unless just that is being built or waits already. */
  lemma ChangedIsQueued(q: Queue, s: ScriptId, path: string, source: string)
    requires Inv(q) && s in q.scripts && !q.shutDown && path != ""
    requires q.active.Some? ==> var r := q.active.value.request; !(r.script == s && r.path == path && r.source == source)
    requires forall r <- q.pending :: !(r.script == s && r.path == path && r.source == source)
    ensures var changed := Do(Do(q, Rename(s, path)), Edit(s, source));
            Request(s, path, source, q.scripts[s].generation + 1, None) in Do(changed, Save(s)).pending
  {
    var renamed := Do(q, Rename(s, path));
    DoKeepsInv(q, Rename(s, path));
    DoKeepsInv(renamed, Edit(s, source));
    var changed := Do(renamed, Edit(s, source));
    var r := Request(s, path, source, q.scripts[s].generation + 1, None);
    QueueingKeepsPlaces(changed, s);
    hide Inv, Queued;
    if k: nat :| WaitsAt(changed, k, s) {
      assert Queued(changed, s).pending[k] == r;
    } else {
      assert Queued(changed, s).pending[|changed.pending|] == r;
    }
  }

  /******* The order of the queue *******/

  // The first request is taken out; it may come back, as the first again.
  predicate TakesFirst(q: Queue, q': Queue) {
    && q.pending != []
    && (q'.pending == q.pending[1..] ||
        (q'.pending != [] && q'.pending[1..] == q.pending[1..] && q'.pending[0].script == q.pending[0].script))
  }

  lemma BuildTakesFirst(q: Queue, r: Request, plan: Plan, w: World)
    requires r.script in q.scripts && plan.Plan?
    ensures var q' := Build(q, r, plan, w).queue; q'.pending == q.pending || q'.pending == [r] + q.pending
  {
  }

  lemma StartedTakesFirst(q: Queue, r: Request, plan: Plan, reused: bool, w: World)
    requires r.script in q.scripts
    ensures var q' := Started(q, r, plan, reused, w).queue;
            q'.pending == q.pending || (q'.pending != [] && q'.pending[1..] == q.pending && q'.pending[0].script == r.script)
  {
    var next, current := q.(nextId := q.nextId + 1), Plan(w.replanned.GetOr(""), q.nextId);
    BuildTakesFirst(next, r, current, w);
    if plan.Plan? {
      BuildTakesFirst(q, r, plan, w);
    }
    hide Build;
  }

  /** A round deals with the first request and no other. */
  lemma RoundTakesFirst(q: Queue, w: World)
    requires Inv(q) && CanStart(q)
    ensures Known(q) && TakesFirst(q, Round(q, w).queue)
  {
    InvIsKnown(q);
    hide Inv, Started;
    var r, rest := q.pending[0], q.(pending := q.pending[1..]);
    match r.prepared
    case Some(plan) => StartedTakesFirst(rest, r.(prepared := Some(MovedFrom)), plan, true, w);
    case None =>
      if w.planned.Some? {
        StartedTakesFirst(rest.(nextId := q.nextId + 1), r, Plan(w.planned.value, q.nextId), false, w);
      }
  }

  // Nobody who waits overtakes another, and nobody starts to wait.
  ghost predicate KeepsOrder(q: Queue, q': Queue) {
    && (forall s :: Waits(q', s) ==> Waits(q, s))
    && forall a, b :: Before(q, a, b) && Waits(q', a) ==> Before(q', a, b)
  }

  lemma TakingFirstKeepsOrder(q: Queue, q': Queue)
    requires TakesFirst(q, q') && forall j: nat, k: nat | j < k < |q.pending| :: q.pending[j].script != q.pending[k].script
    ensures KeepsOrder(q, q')
  {
    var back := q'.pending != q.pending[1..];
    forall k: nat, s ensures WaitsAt(q', k, s) ==> WaitsAt(q, if back then k else k + 1, s) {
    }
    forall k: nat, s | k > 0 ensures WaitsAt(q, k, s) ==> WaitsAt(q', if back then k else k - 1, s) {
      assert k < |q.pending| ==> q.pending[1..][k - 1] == q.pending[k];
      assert back && k < |q'.pending| ==> q'.pending[1..][k - 1] == q'.pending[k];
    }
    forall a, b | Before(q, a, b) && Waits(q', a)
      ensures Before(q', a, b)
    {
      var j: nat, k: nat :| j < k && WaitsAt(q, j, a) && WaitsAt(q, k, b);
      var i: nat :| WaitsAt(q', i, a);
      assert WaitsAt(q, if back then i else i + 1, a);
      assert j == if back then i else i + 1;
      assert WaitsAt(q', if back then k else k - 1, b);
    }
  }

  lemma KeepsOrderThen(a: Queue, b: Queue, c: Queue)
    requires KeepsOrder(a, b) && KeepsOrder(b, c)
    ensures KeepsOrder(a, c)
  {
  }

  lemma {:induction false} RoundsKeepOrder(q: Queue, ws: seq<World>)
    requires Inv(q)
    ensures Known(q) && KeepsOrder(q, Rounds(q, ws))
    decreases |ws|
  {
    InvIsKnown(q);
    hide Round, KeepsOrder;
    if CanStart(q) && ws != [] {
      RoundTakesFirst(q, ws[0]);
      var turn := Round(q, ws[0]);
      TakingFirstKeepsOrder(q, turn.queue);
      if turn.again {
        RoundKeepsInv(q, ws[0]);
        RoundsKeepOrder(turn.queue, ws[1..]);
        KeepsOrderThen(q, turn.queue, Rounds(q, ws));
      }
    } else {
      NothingKeepsOrder(q);
    }
  }

  lemma NothingKeepsOrder(q: Queue)
    ensures KeepsOrder(q, q)
  {
  }

  // A request of another script, or one put back, may come in front.
  lemma InFrontKeepsOrder(q: Queue, q': Queue, r: Request)
    requires q'.pending == [r] + q.pending
    ensures forall s :: Waits(q', s) ==> Waits(q, s) || s == r.script
    ensures forall a, b :: Before(q, a, b) ==> Before(q', a, b)
  {
    forall k: nat, s ensures WaitsAt(q', k + 1, s) <==> WaitsAt(q, k, s) {
    }
    forall k: nat, s | k > 0 ensures WaitsAt(q', k, s) <==> WaitsAt(q, k - 1, s) {
    }
    forall a, b | Before(q, a, b) ensures Before(q', a, b) {
      var j: nat, k: nat :| j < k && WaitsAt(q, j, a) && WaitsAt(q, k, b);
      assert WaitsAt(q', j + 1, a) && WaitsAt(q', k + 1, b);
    }
  }

  /** The end of a build leaves the queue as it is, but for the request itself: it is put back
      in front exactly when the compiler succeeded for the current text and the inputs have
      another key now. The files of the build are gone, whatever came of it. */
  lemma ExitPutsBackIff(q: Queue, exitOk: bool, w: World)
    requires Inv(q) && q.active.Some?
    ensures var Active(r, plan) := q.active.value;
            var q' := Completed(q, exitOk, w);
            && q'.pending == (if exitOk && r.generation == q.scripts[r.script].generation
                                 && w.planned.Some? && w.planned.value != plan.key
                              then [r] + q.pending else q.pending)
            && q'.active == None && q'.files == {} && q'.shutDown == q.shutDown
            && q'.nextId == q.nextId + (if exitOk && r.generation == q.scripts[r.script].generation then 1 else 0)
            && forall s <- q.scripts | s != r.script :: s in q'.scripts && q'.scripts[s] == q.scripts[s]
  {
    var plan := q.active.value.plan;
    QueueIsCurrent(q);
    assert q.files - {Output(plan), Adapter(plan)} == {} && q.files - Temps(plan) == {};
  }

  lemma QueueingKeepsOrder(q: Queue, s: ScriptId)
    requires Inv(q) && s in q.scripts
    ensures forall other :: Waits(Queued(q, s), other) ==> Waits(q, other) || other == s
    ensures forall a, b :: Before(q, a, b) ==> Before(Queued(q, s), a, b)
    ensures forall a :: Waits(q, a) && !Waits(q, s) && Waits(Queued(q, s), s) ==> Before(Queued(q, s), a, s)
  {
    QueueingKeepsPlaces(q, s);
    hide Queued, Inv;
    var q' := Queued(q, s);
    forall k: nat, other ensures WaitsAt(q, k, other) ==> WaitsAt(q', k, other) {
    }
    forall k: nat, other ensures WaitsAt(q', k, other) ==> WaitsAt(q, k, other) || other == s {
    }
    forall a | Waits(q, a) && !Waits(q, s) && Waits(q', s)
      ensures Before(q', a, s)
    {
      var j: nat :| WaitsAt(q, j, a);
      var k: nat :| WaitsAt(q', k, s);
      assert !WaitsAt(q, k, s);
      assert WaitsAt(q', j, a) && WaitsAt(q', k, s) && j < k;
    }
  }

  lemma ExitKeepsOrder(q: Queue, exitOk: bool, w: World, ws: seq<World>)
    requires Inv(q) && q.active.Some?
    ensures Known(Completed(q, exitOk, w))
    ensures var q' := Rounds(Completed(q, exitOk, w), ws);
            && (forall s :: Waits(q', s) ==> Waits(q, s) || s == q.active.value.request.script)
            && forall a, b :: Before(q, a, b) && Waits(q', a) ==> Before(q', a, b)
  {
    var mid := Completed(q, exitOk, w);
    ExitPutsBackIff(q, exitOk, w);
    CompletedKeepsInv(q, exitOk, w);
    RoundsKeepOrder(mid, ws);
    hide Inv, Completed, Rounds, Waits, Before;
    if mid.pending != q.pending {
      InFrontKeepsOrder(q, mid, q.active.value.request);
    } else {
      SameQueueSameOrder(q, mid);
    }
  }

  lemma SameQueueSameOrder(q: Queue, q': Queue)
    requires q'.pending == q.pending
    ensures forall s :: Waits(q', s) <==> Waits(q, s)
    ensures forall a, b :: Before(q', a, b) <==> Before(q, a, b)
  {
    assert forall k: nat, s :: WaitsAt(q', k, s) <==> WaitsAt(q, k, s);
  }

  /** Whatever happens, a script that waits keeps its place before those that wait behind it,
      as long as it waits; only saving makes a script wait, behind all that do, or the end
      of its own build. */
  lemma EventKeepsOrder(q: Queue, e: Event, a: ScriptId, b: ScriptId)
    requires Inv(q) && Possible(q, e)
    ensures Before(q, a, b) && Waits(Do(q, e), a) ==> Before(Do(q, e), a, b)
    ensures !Waits(q, b) && Waits(Do(q, e), b) ==>
              e == Save(b) || (e.Exit? && q.active.value.request.script == b)
    ensures e == Save(b) && Waits(q, a) && !Waits(q, b) && Waits(Do(q, e), b) ==> Before(Do(q, e), a, b)
  {
    hide Inv, Rounds, Completed, Queued, Waits, Before;
    match e
    case Save(s) => QueueingKeepsOrder(q, s);
    case Start(ws) => RoundsKeepOrder(q, ws);
    case Exit(exitOk, w, ws) => ExitKeepsOrder(q, exitOk, w, ws);
    case ShutDown => StoppedWaitsForNothing(q, a, b);
    case _ => SameQueueSameOrder(q, Do(q, e));
  }

  lemma StoppedWaitsForNothing(q: Queue, a: ScriptId, b: ScriptId)
    ensures Before(q, a, b) && Waits(Stopped(q), a) ==> Before(Stopped(q), a, b)
    ensures Waits(Stopped(q), b) ==> Waits(q, b)
  {
    if !q.shutDown {
      forall k: nat, s ensures !WaitsAt(Stopped(q), k, s) {
      }
    }
  }

  /** Over every run, of two scripts the one that waits first is taken first: while a request
      for `a` waits, one for `b` that waited behind it, or did not wait yet, does not get
      before it, unless a build of `b` itself ended meanwhile and was put back. */
  lemma {:induction false} FirstSavedIsFirstTaken(run: seq<Queue>, events: seq<Event>, i: nat, j: nat, a: ScriptId, b: ScriptId)
    requires IsRun(run, events) && i <= j < |run| && (Before(run[i], a, b) || !Waits(run[i], b))
    requires forall t: nat | i <= t <= j :: Waits(run[t], a)
    requires forall t: nat | i <= t < j && events[t].Exit? :: run[t].active.value.request.script != b
    ensures Waits(run[j], b) ==> Before(run[j], a, b)
    decreases j
  {
    hide Do, Possible, Waits, Before, Inv;
    if i < j {
      FirstSavedIsFirstTaken(run, events, i, j - 1, a, b);
      RunsKeepInv(run, events, j - 1);
      EventKeepsOrder(run[j - 1], events[j - 1], a, b);
    }
  }

  /******* What becomes of a request *******/

  // Another process has the lock, or under the lock the inputs turn out to have another key.
  predicate MustWait(r: Request, w: World) {
    match r.prepared
    case None => w.planned.Some? && w.lock == Busy
    case Some(MovedFrom) => false
    case Some(Plan(key, _)) =>
      w.lock == Busy || (w.lock == Acquired && w.replanned.Some? && w.replanned.value != key)
  }

  // The plan it waits with: the one it was locked out with, or the new one.
  function WaitsWith(r: Request, w: World, id: nat): Plan {
    match r.prepared
    case None => Plan(w.planned.GetOr(""), id)
    case Some(plan) => if w.lock == Busy then plan else Plan(w.replanned.GetOr(""), id)
  }

  // The module is in the cache but does not load, and is gone when it is looked for.
  predicate LosesModule(q: Queue, r: Request, w: World) {
    && r.script in q.scripts && PlannedFor(r, w).Some? && w.lock == Acquired && w.stampMatches
    && q.scripts[r.script].loaded != PlannedFor(r, w) && !w.loads && w.outputGone
  }

  predicate StartsCompiler(r: Request, w: World) {
    && PlannedFor(r, w).Some? && w.lock == Acquired && !w.stampMatches && w.adapterWritten && w.compilerStarts
  }

  // What a round does to everything but the scripts and what is published.
  ghost predicate Outcome(q: Queue, q': Queue, again: bool, r: Request, rest: seq<Request>, w: World) {
    && q'.pending == (if MustWait(r, w) then [r.(prepared := Some(WaitsWith(r, w, q.nextId)))] + rest
                      else if LosesModule(q, r, w) then [r.(prepared := if r.prepared.None? then None else Some(MovedFrom))] + rest
                      else rest)
    && (q'.active.Some? <==> StartsCompiler(r, w))
    && (StartsCompiler(r, w) ==>
          var plan := Plan(PlannedFor(r, w).value, q.nextId);
          && q'.active == Some(Active(r.(prepared := if r.prepared.None? then None else Some(MovedFrom)), plan))
          && q'.files == {Adapter(plan), Output(plan)})
    && (again <==> !MustWait(r, w) && !StartsCompiler(r, w))
    && q'.nextId == q.nextId + (if r.prepared == Some(MovedFrom) || (r.prepared.Some? && w.lock != Acquired) then 0 else 1)
  }

  lemma BuildOutcome(q: Queue, r: Request, plan: Plan, w: World)
    requires r.script in q.scripts && plan.Plan? && q.active.None? && q.files == {}
    ensures var turn := Build(q, r, plan, w);
            var starts := !w.stampMatches && w.adapterWritten && w.compilerStarts;
            && turn.queue.pending == (if w.stampMatches && q.scripts[r.script].loaded != Some(plan.key) && !w.loads && w.outputGone
                                      then [r] + q.pending else q.pending)
            && turn.queue.active == (if starts then Some(Active(r, plan)) else None)
            && (starts ==> turn.queue.files == {Adapter(plan), Output(plan)})
            && (turn.again <==> !starts) && turn.queue.nextId == q.nextId
  {
  }

  lemma PlannedOutcome(q: Queue, r: Request, w: World)
    requires r.script in q.scripts && q.active.None? && q.files == {} && r.prepared.None? && w.planned.Some?
    ensures var turn := Started(q.(nextId := q.nextId + 1), r, Plan(w.planned.value, q.nextId), false, w);
            Outcome(q, turn.queue, turn.again, r, q.pending, w)
  {
    BuildOutcome(q.(nextId := q.nextId + 1), r, Plan(w.planned.value, q.nextId), w);
    hide Build;
  }

  lemma ReplannedOutcome(q: Queue, r: Request, plan: Plan, w: World)
    requires r.script in q.scripts && q.active.None? && q.files == {} && r.prepared == Some(plan)
    ensures var turn := Started(q, r.(prepared := Some(MovedFrom)), plan, true, w);
            Outcome(q, turn.queue, turn.again, r, q.pending, w)
  {
    if plan.Plan? && w.lock == Acquired && w.replanned == Some(plan.key) {
      SameKeyOutcome(q, r, plan, w);
    } else {
      hide Build;
    }
  }

  lemma SameKeyOutcome(q: Queue, r: Request, plan: Plan, w: World)
    requires r.script in q.scripts && q.active.None? && q.files == {} && r.prepared == Some(plan)
    requires plan.Plan? && w.lock == Acquired && w.replanned == Some(plan.key)
    ensures var turn := Started(q, r.(prepared := Some(MovedFrom)), plan, true, w);
            Outcome(q, turn.queue, turn.again, r, q.pending, w)
  {
    var numbered, current := q.(nextId := q.nextId + 1), Plan(plan.key, q.nextId);
    BuildOutcome(numbered, r.(prepared := Some(MovedFrom)), current, w);
    hide Build;
    assert Started(q, r.(prepared := Some(MovedFrom)), plan, true, w)
        == Build(numbered, r.(prepared := Some(MovedFrom)), current, w);
  }

  /** What a round makes of the first request: it is put back first, with a plan, exactly when
      it must wait, and as it was when its module was lost; it is built exactly when its plan
      is current, locked, not in the cache, and the compiler starts, under a number no plan
      had before; otherwise it is done with, and the next round goes on. */
  lemma RoundOutcome(q: Queue, w: World)
    requires Inv(q) && CanStart(q)
    ensures Known(q) && Outcome(q, Round(q, w).queue, Round(q, w).again, q.pending[0], q.pending[1..], w)
  {
    QueueIsCurrent(q);
    InvIsKnown(q);
    hide Inv, Started, Outcome;
    var r, rest := q.pending[0], q.(pending := q.pending[1..]);
    SameScripts(q, rest, r, w);
    if r.prepared.Some? {
      ReplannedOutcome(rest, r, r.prepared.value, w);
    } else if w.planned.Some? {
      PlannedOutcome(rest, r, w);
    } else {
      UnplannedOutcome(rest, r, w);
    }
  }

  lemma SameScripts(q: Queue, rest: Queue, r: Request, w: World)
    requires rest == q.(pending := rest.pending)
    ensures forall q', again :: Outcome(rest, q', again, r, rest.pending, w) ==> Outcome(q, q', again, r, rest.pending, w)
  {
  }

  lemma UnplannedOutcome(q: Queue, r: Request, w: World)
    requires r.script in q.scripts && q.active.None? && r.prepared.None? && w.planned.None?
    ensures Outcome(q, Settled(q.(nextId := q.nextId + 1), r.script), true, r, q.pending, w)
  {
  }

  /******* Modules of scripts *******/

  ghost predicate ValidFits(q: Queue) {
    forall s <- q.scripts :: q.scripts[s].valid <==> q.scripts[s].loaded.Some?
  }

  lemma BuildFitsValid(q: Queue, r: Request, plan: Plan, w: World)
    requires ValidFits(q) && r.script in q.scripts && plan.Plan?
    ensures ValidFits(Build(q, r, plan, w).queue)
  {
  }

  lemma SettledFitsValid(q: Queue, s: ScriptId)
    requires ValidFits(q) && s in q.scripts
    ensures ValidFits(Settled(q, s))
  {
  }

  lemma PutBackKeepsScripts(q: Queue, r: Request, plan: Plan)
    ensures PutBack(q, r, plan).scripts == q.scripts
  {
  }

  lemma SameScriptsFit(q: Queue, q': Queue)
    requires ValidFits(q) && q'.scripts == q.scripts
    ensures ValidFits(q')
  {
  }

  lemma ReplannedFitsValid(q: Queue, r: Request, key: Key, current: Plan, w: World)
    requires ValidFits(q) && r.script in q.scripts && current.Plan?
    ensures ValidFits(Replanned(q, r, key, current, w).queue)
  {
    BuildFitsValid(q, r, current, w);
    hide Build;
  }

  lemma StartedFitsValid(q: Queue, r: Request, plan: Plan, reused: bool, w: World)
    requires ValidFits(q) && r.script in q.scripts
    ensures ValidFits(Started(q, r, plan, reused, w).queue)
  {
    hide Build, Replanned, ValidFits, Settled, PutBack;
    var numbered := q.(nextId := q.nextId + 1);
    PutBackKeepsScripts(q, r, plan);
    SettledFitsValid(q, r.script);
    SameScriptsFit(q, PutBack(q, r, plan));
    SameScriptsFit(q, numbered);
    if plan.Plan? {
      ReplannedFitsValid(numbered, r, plan.key, Plan(w.replanned.GetOr(""), q.nextId), w);
      BuildFitsValid(q, r, plan, w);
    }
  }

  lemma RoundFitsValid(q: Queue, w: World)
    requires ValidFits(q) && CanStart(q) && q.pending[0].script in q.scripts
    ensures ValidFits(Round(q, w).queue)
  {
    var r, rest := q.pending[0], q.(pending := q.pending[1..]);
    hide Started;
    if r.prepared.Some? {
      StartedFitsValid(rest, r.(prepared := Some(MovedFrom)), r.prepared.value, true, w);
    } else if w.planned.Some? {
      StartedFitsValid(rest.(nextId := q.nextId + 1), r, Plan(w.planned.value, q.nextId), false, w);
    }
  }

  lemma {:induction false} RoundsFitValid(q: Queue, ws: seq<World>)
    requires ValidFits(q) && Known(q)
    ensures ValidFits(Rounds(q, ws))
    decreases |ws|
  {
    hide Round, ValidFits;
    if CanStart(q) && ws != [] {
      RoundKeepsKnown(q, ws[0]);
      RoundFitsValid(q, ws[0]);
      RoundsFitValid(Round(q, ws[0]).queue, ws[1..]);
    }
  }

  lemma CompletedFitsValid(q: Queue, exitOk: bool, w: World)
    requires ValidFits(q) && q.active.Some? && q.active.value.request.script in q.scripts && q.active.value.plan.Plan?
    ensures ValidFits(Completed(q, exitOk, w))
  {
  }

  /** Over every run a script counts as valid iff it has a module, whatever fails. */
  lemma {:induction false} ValidIffLoaded(run: seq<Queue>, events: seq<Event>, i: nat)
    requires IsRun(run, events) && i < |run|
    ensures ValidFits(run[i])
  {
    if i > 0 {
      ValidIffLoaded(run, events, i - 1);
      EventFitsValid(run[i - 1], events[i - 1]);
    }
  }

  lemma EventFitsValid(q: Queue, e: Event)
    requires ValidFits(q) && Possible(q, e)
    ensures ValidFits(Do(q, e))
  {
    hide Rounds, Completed;
    match e
    case Start(ws) => RoundsFitValid(q, ws);
    case Exit(exitOk, w, ws) =>
      CompletedFitsValid(q, exitOk, w);
      CompletedKeepsKnown(q, exitOk, w);
      RoundsFitValid(Completed(q, exitOk, w), ws);
    case _ =>
  }

  ghost predicate Quiet(q: Queue) {
    q.shutDown ==> q.pending == [] && q.active.None? && q.files == {}
  }

  lemma {:induction false} RoundsKeepRunning(q: Queue, ws: seq<World>)
    requires Known(q)
    ensures Rounds(q, ws).shutDown == q.shutDown && (q.shutDown ==> Rounds(q, ws) == q)
    decreases |ws|
  {
    if CanStart(q) && ws != [] {
      RoundKeepsKnown(q, ws[0]);
      RoundKeepsRunning(q, ws[0]);
      hide Round;
      RoundsKeepRunning(Round(q, ws[0]).queue, ws[1..]);
    }
  }

  lemma EventKeepsQuiet(q: Queue, e: Event)
    requires Inv(q) && Quiet(q) && Possible(q, e)
    ensures var q' := Do(q, e);
            && Quiet(q') && (q.shutDown ==> q'.shutDown && q'.published == q.published)
            && (e == ShutDown ==> q'.shutDown && q'.published == q.published)
  {
    hide Rounds, Completed;
    match e
    case Start(ws) => RoundsKeepRunning(q, ws);
    case Exit(exitOk, w, ws) =>
      CompletedKeepsKnown(q, exitOk, w);
      ExitPutsBackIff(q, exitOk, w);
      RoundsKeepRunning(Completed(q, exitOk, w), ws);
    case ShutDown => StoppedKeepsInv(q);
    case _ =>
  }

  lemma {:induction false} RunsAreQuiet(run: seq<Queue>, events: seq<Event>, i: nat)
    requires IsRun(run, events) && i < |run|
    ensures Quiet(run[i])
  {
    hide Do, Possible, Inv;
    if i > 0 {
      RunsAreQuiet(run, events, i - 1);
      RunsKeepInv(run, events, i - 1);
      EventKeepsQuiet(run[i - 1], events[i - 1]);
    }
  }

  /** After shutting down nothing waits, nothing is built, no file is left and nothing more is
      published, whatever is asked of the manager. */
  lemma {:induction false} ShutdownIsFinal(run: seq<Queue>, events: seq<Event>, i: nat, j: nat)
    requires IsRun(run, events) && i < j < |run| && events[i] == ShutDown
    ensures var q := run[j];
            q.shutDown && q.pending == [] && q.active.None? && q.files == {} && q.published == run[i].published
    decreases j
  {
    hide Do, Possible, Inv;
    RunsAreQuiet(run, events, j);
    RunsAreQuiet(run, events, j - 1);
    RunsKeepInv(run, events, j - 1);
    EventKeepsQuiet(run[j - 1], events[j - 1]);
    if j > i + 1 {
      ShutdownIsFinal(run, events, i, j - 1);
    }
  }
}
