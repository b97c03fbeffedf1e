/** What becomes of questions that are not answered, and of the server as it becomes ready,
    fails and is shut down. */
module LspOutcome {
  import opened Wrappers
  import opened LspSession

  /** A server becomes ready exactly by an answer to its initialisation that names no version or
      one of the series 0.16, and may then be restarted once more; any other fails it. */
  lemma ReadyIffCompatible(c: Client, m: Incoming)
    requires Inv(c) && m.Answered? && !m.error && m.id in c.requests && c.requests[m.id].kind == InitializeKind
    ensures var r := Handle(c, m);
            if m.version == "" || (|m.version| >= 5 && m.version[..5] == "0.16.")
            then r.state == Ready && r.restarts == 0 && Initialized in Wire(r)
            else r.state == Failed && !r.alive
  {
    HandleKeepsInv(c, m);
    hide Conforms, Documents, Send, Outstanding, OneCompletion, BothGenuine, Ask, Synchronize;
    var c1 := Received(c, m.id, m.result);
    SendKeepsState(c1);
    AskKeepsState(MarkReady(c1), c.definition.query);
  }

  lemma SendKeepsState(c: Client)
    ensures var r := MarkReady(c); r.state == Ready && r.restarts == 0 && r.definition == c.definition
  {
  }

  lemma AskKeepsState(c: Client, q: Query)
    ensures var r := SendDefinition(c, q); r.state == c.state && r.restarts == c.restarts
  {
  }

  /** A request of the server is replied to, and changes nothing else. */
  lemma ServerIsReplied(c: Client, id: nat)
    requires Inv(c) && c.alive
    ensures var r := Handle(c, Asked(id));
            Wire(r) == Wire(c) + [Reply(id)] && r == c.(wires := r.wires)
  {
  }

  // What is left of a slot whose question failed: nobody waits, and the last answer stays.
  predicate GivenUp(slot: Slot, was: Slot) {
    !slot.waiting && slot.cached == was.cached
  }

  // Request `id` is not outstanding any more, and its question may be asked again.
  predicate Dropped(c: Client, id: nat, r: Client)
    requires id in c.requests
  {
    && id !in r.requests
    && match c.requests[id].kind
       case InitializeKind => r == c.(requests := c.requests - {id})
       case CompletionKind =>
         !r.completionInFlight && GivenUp(r.completion, c.completion) && r.definition == c.definition
       case DefinitionKind =>
         GivenUp(r.definition, c.definition) && r.completion == c.completion && r.completionInFlight == c.completionInFlight
  }

  /** A completion or a definition that is answered with an error, or that times out, is no
      longer outstanding, and its question may be asked again: nobody waits for it. */
  lemma FailedQuestionIsGivenUp(c: Client, m: Incoming, expired: set<nat>)
    requires Inv(c) && m.Answered? && m.error && m.id in c.requests && m.id in expired
    requires c.requests[m.id].kind == CompletionKind ==> c.requests[m.id].query == c.completion.query
    requires c.requests[m.id].kind == DefinitionKind ==> c.requests[m.id].query == c.definition.query
    ensures Dropped(c, m.id, Handle(c, m))
    ensures if c.requests[m.id].kind == InitializeKind then Expire(c, m.id, expired) == c
            else Dropped(c, m.id, Expire(c, m.id, expired))
  {
    hide Inv;
  }

  /** Requests that time out are given up, all of them and no others, but for the
      initialisation, which has a timeout of its own. */
  lemma {:induction false} ExpiredAreGone(c: Client, order: seq<nat>, expired: set<nat>)
    ensures var r := ExpireAll(c, order, expired);
            forall id :: id in r.requests <==>
              id in c.requests && !(id in order && id in expired && c.requests[id].kind != InitializeKind)
    ensures forall id <- ExpireAll(c, order, expired).requests :: ExpireAll(c, order, expired).requests[id] == c.requests[id]
  {
    if order != [] {
      var n := |order| - 1;
      ExpiredAreGone(c, order[..n], expired);
      var before := ExpireAll(c, order[..n], expired);
      if order[n] in before.requests {
        AbandonKeepsRequests(before, before.requests[order[n]]);
      }
      assert order == order[..n] + [order[n]];
      hide Abandon;
    }
  }

  lemma AbandonKeepsRequests(c: Client, r: Request)
    ensures Abandon(c, r).requests == c.requests
  {
  }

  /** A pump of a running client that finds broken framing, a dead process or a server that
      does not get ready in time fails it: nothing is outstanding, open or waited for, but
      answers from before are still served. */
  lemma FailureForgets(c: Client, t: Turn)
    requires Inv(c) && (c.state == Initializing || c.state == Ready)
    requires t.broken || !t.running
             || (t.initializeTimedOut && HandleAll(c, t.messages).state == Initializing)
    ensures var r := Pump(c, t);
            && r.state == Failed && !r.alive && r.requests == map[] && r.documents == map[]
            && !r.completion.waiting && !r.completionInFlight && !r.definition.waiting
            && r.completion.cached == HandleAll(c, t.messages).completion.cached
            && r.definition.cached == HandleAll(c, t.messages).definition.cached
            && r.wires == HandleAll(c, t.messages).wires
  {
    RunningIsOpen(c);
    hide Inv, HandleAll;
  }

  /** Shutting down tells a running server to exit, if its process still runs; after that
      nothing is launched or written, and nothing waits, whatever is asked of the client. */
  lemma ShutdownSaysExit(c: Client, running: bool)
    requires Inv(c) && !c.shut
    ensures var r := Shutdown(c, running);
            && r.shut && r.state == Stopped && !r.alive && r.requests == map[] && r.documents == map[]
            && !r.completion.waiting && !r.definition.waiting && r.past == c.past
            && (running && c.alive ==> Wire(r) == Wire(c) + [Exit])
            && (!running || !c.alive ==> r.wires == c.wires)
  {
    hide Conforms, Documents, Outstanding, OneCompletion, BothGenuine;
  }

  lemma {:induction false} ShutIsFinal(c: Client, ops: seq<Op>)
    requires c.shut && c.state == Stopped
    ensures var r := Run(c, ops); r.shut && r.state == Stopped && r.wires == c.wires && r.past == c.past
    decreases |ops|
  {
    if ops != [] {
      ShutStep(c, ops[0]);
      hide Do;
      ShutIsFinal(Do(c, ops[0]), ops[1..]);
    }
  }

  lemma ShutStep(c: Client, op: Op)
    requires c.shut && c.state == Stopped
    ensures var r := Do(c, op); r.shut && r.state == Stopped && r.wires == c.wires && r.past == c.past
  {
    hide HandleAll, ExpireAll;
  }

  // A process was started, knows of nothing but its initialisation, and is asked for that.
  ghost predicate Started(c: Client, r: Client) {
    && r.state == Initializing && r.past.launches == c.past.launches + 1
    && r.wires == c.wires + [[Initialize(c.nextId)]] && r.nextId == c.nextId + 1
    && r.requests == map[c.nextId := Request(InitializeKind, NO_QUERY)] && r.documents == map[]
    && r.restarts == c.restarts + if c.state == Failed then 1 else 0
  }

  lemma StartStarts(c: Client, l: Launch)
    requires Inv(c) && !c.shut && !l.quitting && l.spawned
    requires c.state == Stopped || (c.state == Failed && c.restarts == 0 && l.backoffOver)
    ensures Started(c, Start(c, l)) && Start(c, l).completion == c.completion && Start(c, l).definition == c.definition
  {
    hide Conforms, Documents, OneCompletion, BothGenuine;
    assert c.wires + [[]] != [] && [] + [Initialize(c.nextId)] == [Initialize(c.nextId)];
    assert (c.wires + [[]])[|c.wires| := [Initialize(c.nextId)]] == c.wires + [[Initialize(c.nextId)]];
    assert c.requests == map[];
  }

  /** A new question to a client without a server starts one, also after a failure when the
      backoff is over and it had not failed just after a restart: its initialisation is asked
      for and recorded, and the question waits. The answer to that makes the server ready. */
  lemma QuestionStartsServer(c: Client, q: Query, l: Launch, m: Incoming)
    requires Inv(c) && !c.shut && !l.quitting && l.spawned && q.path != ""
    requires c.state == Stopped || (c.state == Failed && c.restarts == 0 && l.backoffOver)
    requires m.Answered? && !m.error && m.id == c.nextId && m.version == ""
    ensures !c.completion.Answers(q) && !c.completion.WaitsFor(q) ==>
              var r := Complete(c, q, l); Started(c, r) && r.completion.WaitsFor(q) && Handle(r, m).state == Ready
    ensures !c.definition.Answers(q) && !c.definition.WaitsFor(q) ==>
              var r := Lookup(c, q, l); Started(c, r) && r.definition.WaitsFor(q) && Handle(r, m).state == Ready
  {
    hide Inv, Start, Handle, Complete, Lookup, Started, SameQuery;
    if !c.completion.Answers(q) && !c.completion.WaitsFor(q) {
      CompletionStarts(c, q, l);
      StepKeepsInv(c, CompleteOp(q, l));
      BecomesReady(c, Complete(c, q, l), m);
    }
    if !c.definition.Answers(q) && !c.definition.WaitsFor(q) {
      DefinitionStarts(c, q, l);
      StepKeepsInv(c, LookupOp(q, l));
      BecomesReady(c, Lookup(c, q, l), m);
    }
  }

  lemma CompletionStarts(c: Client, q: Query, l: Launch)
    requires Inv(c) && !c.shut && !l.quitting && l.spawned && q.path != ""
    requires c.state == Stopped || (c.state == Failed && c.restarts == 0 && l.backoffOver)
    requires !c.completion.Answers(q) && !c.completion.WaitsFor(q)
    ensures var r := Complete(c, q, l); Started(c, r) && r.completion.WaitsFor(q)
  {
    var wanting := c.(completion := c.completion.Want(q));
    SlotsAreFree(c, c.completion.Want(q), c.definition);
    StartStarts(wanting, l);
    hide Inv, Start;
    assert Complete(c, q, l) == Start(wanting, l);
  }

  lemma DefinitionStarts(c: Client, q: Query, l: Launch)
    requires Inv(c) && !c.shut && !l.quitting && l.spawned && q.path != ""
    requires c.state == Stopped || (c.state == Failed && c.restarts == 0 && l.backoffOver)
    requires !c.definition.Answers(q) && !c.definition.WaitsFor(q)
    ensures var r := Lookup(c, q, l); Started(c, r) && r.definition.WaitsFor(q)
  {
    var wanting := c.(definition := c.definition.Want(q));
    SlotsAreFree(c, c.completion, c.definition.Want(q));
    StartStarts(wanting, l);
    hide Inv, Start, SendDefinition;
    assert Lookup(c, q, l) == Start(wanting, l);
  }

  lemma BecomesReady(c: Client, r: Client, m: Incoming)
    requires Inv(r) && Started(c, r) && m.Answered? && !m.error && m.id == c.nextId && m.version == ""
    ensures Handle(r, m).state == Ready
  {
    hide Inv, Handle;
    ReadyIffCompatible(r, m);
  }

  // The server was asked about exactly this text, at this place.
  predicate AskedAbout(wire: seq<Message>, id: nat, kind: Kind, r: Query, q: Query) {
    && r.uri == q.uri && r.source == q.source && r.line == q.line && r.character == q.character
    && (if kind == CompletionKind then Completion(id, r) in wire else Definition(id, r) in wire)
  }

  ghost predicate FromServer(c: Client, kind: Kind, q: Query, result: string) {
    exists e <- c.past.receipts, r: Query ::
      e.server < |c.wires| && e.result == result && AskedAbout(c.wires[e.server], e.id, kind, r, q)
  }

  /** Over every run, what is served for a query is the result a server gave to a question about
      the very same text, document and place. */
  lemma ServedWasAsked(ops: seq<Op>, q: Query)
    ensures var c := Run(IDLE, ops);
            && (c.completion.Answers(q) ==> FromServer(c, CompletionKind, q, c.completion.cached.value.result))
            && (c.definition.Answers(q) ==> FromServer(c, DefinitionKind, q, c.definition.cached.value.result))
  {
    EveryRun(ops);
    var c := Run(IDLE, ops);
    hide Run, Conforms, Documents;
    if c.completion.Answers(q) {
      var e :| e in c.past.receipts && Explains(c.wires, c.completion.cached.value, CompletionKind, e);
      assert AskedAbout(c.wires[e.server], e.id, CompletionKind, c.completion.cached.value.query, q);
    }
    if c.definition.Answers(q) {
      var e :| e in c.past.receipts && Explains(c.wires, c.definition.cached.value, DefinitionKind, e);
      assert AskedAbout(c.wires[e.server], e.id, DefinitionKind, c.definition.cached.value.query, q);
    }
  }

  /** What is cached is served for the same text, document and place, by whatever path the
      document is named, and asking for it again changes nothing. */
  lemma CachedIsServed(c: Client, path: string, l: Launch)
    ensures c.completion.cached.Some? ==>
              var q := c.completion.cached.value.query.(path := path); c.completion.Answers(q) && Complete(c, q, l) == c
    ensures c.definition.cached.Some? ==>
              var q := c.definition.cached.value.query.(path := path); c.definition.Answers(q) && Lookup(c, q, l) == c
  {
  }
}
