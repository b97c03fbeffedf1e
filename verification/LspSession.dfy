/** The conversation with the language server: launching and restarting it, keeping its
    copies of the documents equal to the client's, and accounting for the requests that
    are still to be answered. Framing is in LspFraming; here a message is one step. */
module LspSession {
  import opened Wrappers

  datatype Query = Query(path: string, uri: string, source: string, line: nat, character: nat)

  const NO_QUERY := Query("", "", "", 0, 0)

  // The path does not count: it names the same file as the uri.
  predicate SameQuery(q: Query, r: Query) {
    q.uri == r.uri && q.source == r.source && q.line == r.line && q.character == r.character
  }

  datatype Document = Document(source: string, version: nat)

  datatype Kind = InitializeKind | CompletionKind | DefinitionKind

  datatype Request = Request(kind: Kind, query: Query)

  datatype ServerState = Stopped | Initializing | Ready | Failed

  datatype Message =
    | Initialize(id: nat)
    | Initialized
    | DidOpen(uri: string, version: nat, text: string)
    | DidChange(uri: string, version: nat, text: string)
    | Completion(id: nat, query: Query)
    | Definition(id: nat, query: Query)
    | Reply(to: nat)
    | Exit

  // What the server sends: the answer to a request, or a request of its own.
  datatype Incoming =
    | Answered(id: nat, error: bool, version: string, result: string)
    | Asked(id: nat)

  datatype Cached = Cached(query: Query, result: string)

  // A result, with the request and the server it came from.
  datatype Receipt = Receipt(server: nat, id: nat, result: string)

  // The last question of a kind, whether its answer is still wanted, and the last answer.
  datatype Slot = Slot(query: Query, waiting: bool, cached: Option<Cached>) {
    function Want(q: Query): Slot {
      this.(query := q, waiting := true)
    }

    function Forget(): Slot {
      this.(waiting := false)
    }

    function Fill(answer: Cached): Slot {
      this.(waiting := false, cached := Some(answer))
    }

    predicate WaitsFor(q: Query) {
      waiting && SameQuery(q, query)
    }

    predicate Answers(q: Query) {
      cached.Some? && SameQuery(q, cached.value.query)
    }
  }

  const NOTHING := Slot(NO_QUERY, false, None)

  // What has happened, for the properties: processes launched, initialisations completed
  // and results received.
  datatype Past = Past(launches: nat, readies: nat, receipts: seq<Receipt>)

  // `wires` has what was written to each server process in turn, the running one last.
  datatype Client = Client(
    state: ServerState, shut: bool, alive: bool, restarts: nat, nextId: nat,
    requests: map<nat, Request>, documents: map<string, Document>,
    completion: Slot, completionInFlight: bool, definition: Slot,
    wires: seq<seq<Message>>, past: Past)

  const IDLE := Client(Stopped, false, false, 0, 1, map[], map[], NOTHING, false, NOTHING, [], Past(0, 0, []))

  // What the outside decides while a server is started.
  datatype Launch = Launch(quitting: bool, backoffOver: bool, spawned: bool)

  // What the outside decides during one pump: the messages that came in, whether framing
  // broke after them, whether the process still runs, and which clocks ran out.
  datatype Turn = Turn(messages: seq<Incoming>, broken: bool, running: bool, initializeTimedOut: bool,
                       order: seq<nat>, expired: set<nat>, due: bool)

  /******* What a server makes of what it is sent *******/

  // The documents a server holds after reading `wire`.
  function Documents(wire: seq<Message>): map<string, Document> {
    if wire == [] then map[]
    else
      var before := Documents(wire[..|wire| - 1]);
      match wire[|wire| - 1]
      case DidOpen(uri, version, text) => before[uri := Document(text, version)]
      case DidChange(uri, version, text) => before[uri := Document(text, version)]
      case _ => before
  }

  // A server reads `m` after `wire`: initialisation first and once; documents opened once
  // and then changed to the next version; a question about a document asked while the
  // server has exactly the text the question is about, under an identifier never used.
  predicate Allowed(wire: seq<Message>, m: Message) {
    var documents := Documents(wire);
    match m
    case Initialize(_) => wire == []
    case Initialized => wire != [] && Initialized !in wire
    case DidOpen(uri, version, _) => Initialized in wire && uri !in documents && version == 1
    case DidChange(uri, version, _) =>
      Initialized in wire && uri in documents && version == documents[uri].version + 1
    case Completion(id, q) => Initialized in wire && Holds(documents, q) && Newer(wire, id)
    case Definition(id, q) => Initialized in wire && Holds(documents, q) && Newer(wire, id)
    case Reply(_) => wire != []
    case Exit => wire != []
  }

  predicate Holds(documents: map<string, Document>, q: Query) {
    q.uri in documents && documents[q.uri].source == q.source
  }

  predicate Newer(wire: seq<Message>, id: nat) {
    forall m <- wire | m.Initialize? || m.Completion? || m.Definition? :: m.id < id
  }

  // Every message was allowed when it was sent.
  predicate Conforms(wire: seq<Message>) {
    wire != [] ==> Conforms(wire[..|wire| - 1]) && Allowed(wire[..|wire| - 1], wire[|wire| - 1])
  }

  /******* Operations *******/

  function Wire(c: Client): seq<Message> {
    if c.wires == [] then [] else c.wires[|c.wires| - 1]
  }

  // Nothing is written without a pipe.
  function Send(c: Client, m: Message): Client {
    if c.alive && c.wires != [] then c.(wires := c.wires[|c.wires| - 1 := Wire(c) + [m]]) else c
  }

  // Nothing is asked, wanted or open any more.
  function Cleared(c: Client): Client {
    c.(completion := c.completion.Forget(), completionInFlight := false, definition := c.definition.Forget(),
       requests := map[], documents := map[])
  }

  function Fail(c: Client): Client {
    Cleared(c).(state := Failed, alive := false)
  }

  // A new process, before anything is written to it.
  function Born(c: Client): Client {
    c.(past := c.past.(launches := c.past.launches + 1), alive := true, state := Initializing, wires := c.wires + [[]], nextId := c.nextId + 1)
  }

  function Spawn(c: Client, spawned: bool): Client {
    if !spawned then Fail(c.(past := c.past.(launches := c.past.launches + 1)))
    else
      Send(Born(c), Initialize(c.nextId)).(requests := c.requests[c.nextId := Request(InitializeKind, NO_QUERY)])
  }

  function Start(c: Client, l: Launch): Client {
    if c.shut || l.quitting || c.state == Ready || c.state == Initializing then c
    else if c.state == Failed then
      if c.restarts >= 1 || !l.backoffOver then c
      else Spawn(c.(restarts := c.restarts + 1, state := Stopped), l.spawned)
    else Spawn(c, l.spawned)
  }

  function Synchronize(c: Client, q: Query): Client {
    if Holds(c.documents, q) then c
    else if q.uri in c.documents then
      var version := c.documents[q.uri].version + 1;
      Send(c, DidChange(q.uri, version, q.source)).(documents := c.documents[q.uri := Document(q.source, version)])
    else
      Send(c, DidOpen(q.uri, 1, q.source)).(documents := c.documents[q.uri := Document(q.source, 1)])
  }

  function Question(id: nat, kind: Kind, q: Query): Message {
    if kind == CompletionKind then Completion(id, q) else Definition(id, q)
  }

  function Ask(c: Client, kind: Kind, q: Query): Client {
    Send(c.(nextId := c.nextId + 1), Question(c.nextId, kind, q)).(requests := c.requests[c.nextId := Request(kind, q)])
  }

  function SendCompletion(c: Client, q: Query): Client {
    Ask(Synchronize(c, q), CompletionKind, q).(completionInFlight := true)
  }

  function SendDefinition(c: Client, q: Query): Client {
    Ask(Synchronize(c, q), DefinitionKind, q)
  }

  // A request is given up: what was waiting for it waits no longer.
  function Abandon(c: Client, r: Request): Client {
    match r.kind
    case InitializeKind => c
    case CompletionKind =>
      c.(completionInFlight := false,
         completion := if SameQuery(r.query, c.completion.query) then c.completion.Forget() else c.completion)
    case DefinitionKind =>
      c.(definition := if SameQuery(r.query, c.definition.query) then c.definition.Forget() else c.definition)
  }

  predicate Compatible(version: string) {
    version == "" || "0.16." <= version
  }

  function MarkReady(c: Client): Client {
    Send(c, Initialized).(state := Ready, restarts := 0, past := c.past.(readies := c.past.readies + 1))
  }

  function BecomeReady(c: Client): Client {
    var c1 := MarkReady(c);
    if c1.definition.waiting then SendDefinition(c1, c1.definition.query) else c1
  }

  // The number of the last server started.
  function Serving(c: Client): nat {
    if c.wires == [] then 0 else |c.wires| - 1
  }

  function Received(c: Client, id: nat, result: string): Client {
    c.(requests := c.requests - {id},
       past := c.past.(receipts := c.past.receipts + [Receipt(Serving(c), id, result)]))
  }

  function Answer(c: Client, m: Incoming): Client
    requires m.Answered?
  {
    if m.id !in c.requests then c
    else
      var r := c.requests[m.id];
      if m.error then Abandon(c, r).(requests := c.requests - {m.id})
      else Settle(Received(c, m.id, m.result), r, m)
  }

  // A request that was answered without an error.
  function Settle(c: Client, r: Request, m: Incoming): Client
    requires m.Answered?
  {
    match r.kind
    case InitializeKind => if Compatible(m.version) then BecomeReady(c) else Fail(c)
    case CompletionKind =>
      var c1 := c.(completionInFlight := false);
      if c.completion.WaitsFor(r.query) then c1.(completion := c.completion.Fill(Cached(r.query, m.result))) else c1
    case DefinitionKind =>
      if c.definition.WaitsFor(r.query) then c.(definition := c.definition.Fill(Cached(r.query, m.result))) else c
  }

  function Handle(c: Client, m: Incoming): Client {
    if m.Asked? then Send(c, Reply(m.id)) else Answer(c, m)
  }

  // A failure throws away the messages behind it.
  function HandleAll(c: Client, messages: seq<Incoming>): Client
    decreases |messages|
  {
    if messages == [] || c.state == Failed then c else HandleAll(Handle(c, messages[0]), messages[1..])
  }

  function Expire(c: Client, id: nat, expired: set<nat>): Client {
    if id !in c.requests || c.requests[id].kind == InitializeKind || id !in expired then c
    else Abandon(c, c.requests[id]).(requests := c.requests - {id})
  }

  function ExpireAll(c: Client, order: seq<nat>, expired: set<nat>): Client {
    if order == [] then c
    else Expire(ExpireAll(c, order[..|order| - 1], expired), order[|order| - 1], expired)
  }

  function Pump(c: Client, t: Turn): Client {
    if c.shut || (c.state != Initializing && c.state != Ready) then c
    else
      var c1 := HandleAll(c, t.messages);
      if c1.state == Failed || t.broken || !t.running || (c1.state == Initializing && t.initializeTimedOut) then Fail(c1)
      else
        var c2 := ExpireAll(c1, t.order, t.expired);
        if c2.state == Ready && c2.completion.waiting && !c2.completionInFlight && t.due
        then SendCompletion(c2, c2.completion.query)
        else c2
  }

  function Complete(c: Client, q: Query, l: Launch): Client {
    if q.path == "" || c.completion.Answers(q) || c.completion.WaitsFor(q) then c
    else Start(c.(completion := c.completion.Want(q)), l)
  }

  function Lookup(c: Client, q: Query, l: Launch): Client {
    if q.path == "" || c.definition.Answers(q) || c.definition.WaitsFor(q) then c
    else
      var c1 := Start(c.(definition := c.definition.Want(q)), l);
      // A client that has shut down or is quitting does not start, whatever its state.
      if !c.shut && !l.quitting && c1.state == Ready then SendDefinition(c1, q) else c1
  }

  function Closed(c: Client): Client {
    Cleared(c).(shut := true, state := Stopped, alive := false)
  }

  function Shutdown(c: Client, running: bool): Client {
    if c.shut then c
    else
      var c1 := if running then Send(c, Exit) else c;
      Closed(c1)
  }

  datatype Op =
    | CompleteOp(query: Query, launch: Launch)
    | LookupOp(query: Query, launch: Launch)
    | PumpOp(turn: Turn)
    | ShutdownOp(running: bool)

  function Do(c: Client, op: Op): Client {
    match op
    case CompleteOp(q, l) => Complete(c, q, l)
    case LookupOp(q, l) => Lookup(c, q, l)
    case PumpOp(t) => Pump(c, t)
    case ShutdownOp(running) => Shutdown(c, running)
  }

  function Run(c: Client, ops: seq<Op>): Client
    decreases |ops|
  {
    if ops == [] then c else Run(Do(c, ops[0]), ops[1..])
  }

  /******* What every run keeps *******/

  ghost predicate Wired(c: Client) {
    && (forall w <- c.wires :: Conforms(w))
    && (c.alive <==> c.state == Initializing || c.state == Ready)
    && (c.alive ==> c.wires != [] && Wire(c) != [] && Documents(Wire(c)) == c.documents)
    && (c.alive ==> (c.state == Ready <==> Initialized in Wire(c)))
    && (c.shut ==> c.state == Stopped)
    && (!c.alive ==> c.documents == map[])
  }

  ghost predicate Outstanding(alive: bool, wire: seq<Message>, nextId: nat, requests: map<nat, Request>) {
    && (!alive ==> requests == map[])
    && Newer(wire, nextId)
    && (forall id <- requests :: id < nextId && Sent(wire, id, requests[id]))
  }

  // The request is on the wire of the running server.
  predicate Sent(wire: seq<Message>, id: nat, r: Request) {
    match r.kind
    case InitializeKind => Initialize(id) in wire
    case CompletionKind => Completion(id, r.query) in wire
    case DefinitionKind => Definition(id, r.query) in wire
  }

  predicate IsCompletion(requests: map<nat, Request>, id: nat) {
    id in requests && requests[id].kind == CompletionKind
  }

  ghost predicate OneCompletion(requests: map<nat, Request>, inFlight: bool) {
    && (inFlight <==> exists id :: IsCompletion(requests, id))
    && (forall i, j :: IsCompletion(requests, i) && IsCompletion(requests, j) ==> i == j)
  }

  // Only a server that is still starting has its initialisation to answer, and only one.
  ghost predicate Starting(requests: map<nat, Request>, state: ServerState) {
    && (forall id <- requests | requests[id].kind == InitializeKind :: state == Initializing)
    && (forall i <- requests, j <- requests ::
          requests[i].kind == requests[j].kind == InitializeKind ==> i == j)
  }

  ghost predicate Counted(c: Client) {
    && c.restarts <= 1
    && c.past.launches <= 1 + c.restarts + c.past.readies
    && (c.state == Stopped && !c.shut ==> c.past.launches == 0 && c.restarts == 0)
    && |c.wires| <= c.past.launches
  }

  // A cached result is what a server answered to that very question.
  ghost predicate Genuine(wires: seq<seq<Message>>, receipts: seq<Receipt>, cached: Option<Cached>, kind: Kind) {
    cached.Some? ==> exists e <- receipts :: Explains(wires, cached.value, kind, e)
  }

  predicate Explains(wires: seq<seq<Message>>, cached: Cached, kind: Kind, e: Receipt) {
    e.server < |wires| && e.result == cached.result && Sent(wires[e.server], e.id, Request(kind, cached.query))
  }

  ghost predicate BothGenuine(c: Client) {
    && Genuine(c.wires, c.past.receipts, c.completion.cached, CompletionKind)
    && Genuine(c.wires, c.past.receipts, c.definition.cached, DefinitionKind)
  }

  ghost predicate Inv(c: Client) {
    && Wired(c) && Outstanding(c.alive, Wire(c), c.nextId, c.requests)
    && OneCompletion(c.requests, c.completionInFlight) && Starting(c.requests, c.state)
    && Counted(c) && BothGenuine(c)
  }

  /******* Writing to the server *******/

  lemma Extend(wire: seq<Message>, m: Message)
    requires Conforms(wire) && Allowed(wire, m)
    ensures Conforms(wire + [m])
  {
    assert (wire + [m])[..|wire|] == wire;
  }

  function Reads(documents: map<string, Document>, m: Message): map<string, Document> {
    match m
    case DidOpen(uri, version, text) => documents[uri := Document(text, version)]
    case DidChange(uri, version, text) => documents[uri := Document(text, version)]
    case _ => documents
  }

  lemma DocumentsAfter(wire: seq<Message>, m: Message)
    ensures Documents(wire + [m]) == Reads(Documents(wire), m)
  {
    assert (wire + [m])[..|wire|] == wire;
  }

  // A server that has been sent something, and nothing it does not allow.
  ghost predicate Spoken(c: Client) {
    && (forall w <- c.wires :: Conforms(w))
    && c.alive && c.wires != [] && !c.shut && |c.wires| <= c.past.launches
  }

  lemma SendWrites(c: Client, m: Message)
    requires c.alive && c.wires != []
    ensures var r := Send(c, m);
            && r == c.(wires := r.wires) && Wire(r) == Wire(c) + [m] && |r.wires| == |c.wires|
            && (forall k: nat | k < |c.wires| - 1 :: r.wires[k] == c.wires[k])
            && (forall k: nat | k < |c.wires| :: c.wires[k] <= r.wires[k])
  {
  }

  /** One message the server allows keeps all that is said of the wires, and takes the
      server's documents one step further. */
  lemma SendSpeaks(c: Client, m: Message)
    requires Spoken(c) && Allowed(Wire(c), m) && BothGenuine(c)
    requires Outstanding(c.alive, Wire(c), c.nextId, c.requests)
    requires m.Initialize? || m.Completion? || m.Definition? ==> m.id < c.nextId
    ensures var r := Send(c, m);
            && Spoken(r) && BothGenuine(r) && Outstanding(r.alive, Wire(r), r.nextId, r.requests)
            && r == c.(wires := r.wires) && Wire(r) == Wire(c) + [m]
            && Documents(Wire(r)) == Reads(Documents(Wire(c)), m)
  {
    hide Conforms, Allowed, Documents, Reads, Send, Wire, Genuine, Sent;
    LastIsWire(c);
    Extend(Wire(c), m);
    DocumentsAfter(Wire(c), m);
    SendWrites(c, m);
    WritesKeepGenuine(c, Send(c, m));
    var r := Send(c, m);
    forall k: nat | k < |r.wires| ensures Conforms(r.wires[k]) {
      if k < |c.wires| - 1 {
        assert r.wires[k] == c.wires[k];
      } else {
        LastIsWire(r);
      }
    }
    forall id <- c.requests ensures Sent(Wire(r), id, c.requests[id]) {
      SentStays(Wire(c), Wire(r), id, c.requests[id]);
    }
  }

  lemma LastIsWire(c: Client)
    requires c.wires != []
    ensures c.wires[|c.wires| - 1] == Wire(c)
  {
  }

  lemma SentStays(wire: seq<Message>, longer: seq<Message>, id: nat, r: Request)
    requires wire <= longer && Sent(wire, id, r)
    ensures Sent(longer, id, r)
  {
    assert forall m <- wire :: m in longer;
  }

  lemma WritesKeepGenuine(c: Client, r: Client)
    requires BothGenuine(c) && |c.wires| <= |r.wires| && forall k: nat | k < |c.wires| :: c.wires[k] <= r.wires[k]
    requires c.past.receipts == r.past.receipts
    ensures Genuine(r.wires, r.past.receipts, c.completion.cached, CompletionKind)
    ensures Genuine(r.wires, r.past.receipts, c.definition.cached, DefinitionKind)
  {
    OneStaysGenuine(c, r, c.completion.cached, CompletionKind);
    OneStaysGenuine(c, r, c.definition.cached, DefinitionKind);
  }

  lemma OneStaysGenuine(c: Client, r: Client, cached: Option<Cached>, kind: Kind)
    requires |c.wires| <= |r.wires| && forall k: nat | k < |c.wires| :: c.wires[k] <= r.wires[k]
    requires Genuine(c.wires, c.past.receipts, cached, kind) && c.past.receipts <= r.past.receipts
    ensures Genuine(r.wires, r.past.receipts, cached, kind)
  {
    hide Sent;
    if cached.Some? {
      var e :| e in c.past.receipts && Explains(c.wires, cached.value, kind, e);
      SentStays(c.wires[e.server], r.wires[e.server], e.id, Request(kind, cached.value.query));
      assert e in r.past.receipts;
      assert Explains(r.wires, cached.value, kind, e);
    }
  }

  /******* One operation keeps the invariant *******/

  lemma FailKeepsInv(c: Client)
    requires !c.shut && (forall w <- c.wires :: Conforms(w)) && Newer(Wire(c), c.nextId) && BothGenuine(c)
    requires c.restarts <= 1 && c.past.launches <= 1 + c.restarts + c.past.readies && |c.wires| <= c.past.launches
    ensures Inv(Fail(c))
  {
  }

  lemma BornSpeaks(c: Client)
    requires (forall w <- c.wires :: Conforms(w)) && BothGenuine(c)
    requires !c.shut && c.requests == map[] && |c.wires| <= c.past.launches
    ensures var r := Born(c);
            && Spoken(r) && BothGenuine(r) && Outstanding(r.alive, Wire(r), r.nextId, r.requests) && Wire(r) == []
  {
    WritesKeepGenuine(c, Born(c));
    hide Genuine;
    var r := Born(c);
    forall k: nat | k < |r.wires| ensures Conforms(r.wires[k]) {
      if k < |c.wires| {
        assert r.wires[k] == c.wires[k];
      }
    }
  }

  lemma SpawnKeepsInv(c: Client, spawned: bool)
    requires !c.alive && !c.shut && c.requests == map[] && c.documents == map[] && !c.completionInFlight
    requires (forall w <- c.wires :: Conforms(w)) && Newer(Wire(c), c.nextId) && BothGenuine(c)
    requires c.restarts <= 1 && c.past.launches <= c.restarts + c.past.readies && |c.wires| <= c.past.launches
    ensures Inv(Spawn(c, spawned))
  {
    if !spawned {
      FailKeepsInv(c.(past := c.past.(launches := c.past.launches + 1)));
    } else {
      var m := Initialize(c.nextId);
      BornSpeaks(c);
      hide Send, Conforms, Documents, Reads, Allowed, Outstanding, OneCompletion, Starting, BothGenuine, Wire, Born;
      FirstMessage(Born(c), m);
      SendSpeaks(Born(c), m);
      OnlyInitialize(Send(Born(c), m), c.nextId);
      BornIs(c);
      Assemble(Spawn(c, true));
    }
  }

  lemma BornIs(c: Client)
    ensures var r := Born(c);
            && r.documents == c.documents && r.state == Initializing && r.nextId == c.nextId + 1 && r.shut == c.shut
            && r.completionInFlight == c.completionInFlight && r.restarts == c.restarts
            && r.past.readies == c.past.readies && r.past.launches == c.past.launches + 1
  {
  }

  // The parts of the invariant, put together.
  lemma Assemble(c: Client)
    requires Spoken(c) && Wire(c) != [] && Documents(Wire(c)) == c.documents
    requires c.state == if Initialized in Wire(c) then Ready else Initializing
    requires Outstanding(c.alive, Wire(c), c.nextId, c.requests)
    requires OneCompletion(c.requests, c.completionInFlight) && Starting(c.requests, c.state)
    requires c.restarts <= 1 && c.past.launches <= 1 + c.restarts + c.past.readies && BothGenuine(c)
    ensures Inv(c)
  {
    hide Conforms, Documents, Outstanding, OneCompletion, Starting, BothGenuine, Wire;
  }

  lemma FirstMessage(c: Client, m: Message)
    requires Wire(c) == [] && m.Initialize?
    ensures Allowed(Wire(c), m) && Reads(Documents(Wire(c)), m) == map[] && Initialized !in Wire(c) + [m]
  {
  }

  lemma OnlyInitialize(c: Client, id: nat)
    requires Outstanding(true, Wire(c), c.nextId, map[]) && Wire(c) == [Initialize(id)] && id < c.nextId
    ensures var requests := map[id := Request(InitializeKind, NO_QUERY)];
            Outstanding(true, Wire(c), c.nextId, requests) && OneCompletion(requests, false)
            && Starting(requests, Initializing)
  {
  }

  lemma StartKeepsInv(c: Client, l: Launch)
    requires Inv(c)
    ensures Inv(Start(c, l))
  {
    hide Spawn, Conforms, Genuine, Newer;
    if c.shut || l.quitting || c.state == Ready || c.state == Initializing {
    } else if c.state == Failed {
      if c.restarts == 0 && l.backoffOver {
        SpawnKeepsInv(c.(restarts := c.restarts + 1, state := Stopped), l.spawned);
      }
    } else {
      SpawnKeepsInv(c, l.spawned);
    }
  }

  lemma ReadyAllows(c: Client, q: Query)
    requires Inv(c) && c.state == Ready
    ensures Spoken(c) && Documents(Wire(c)) == c.documents && Initialized in Wire(c)
    ensures q.uri !in c.documents ==> Allowed(Wire(c), DidOpen(q.uri, 1, q.source))
    ensures q.uri in c.documents ==> Allowed(Wire(c), DidChange(q.uri, c.documents[q.uri].version + 1, q.source))
    ensures Holds(c.documents, q) ==> Allowed(Wire(c), Completion(c.nextId, q)) && Allowed(Wire(c), Definition(c.nextId, q))
  {
    hide Conforms, Documents, Newer;
  }

  lemma SaidIsInWire(wire: seq<Message>, m: Message)
    ensures forall x :: x in wire + [m] <==> x in wire || x == m
  {
  }

  lemma SynchronizeKeepsInv(c: Client, q: Query)
    requires Inv(c) && c.state == Ready
    ensures var r := Synchronize(c, q);
            Inv(r) && Holds(r.documents, q) && r == c.(documents := r.documents, wires := r.wires)
  {
    ReadyAllows(c, q);
    if !Holds(c.documents, q) {
      var m := if q.uri in c.documents then DidChange(q.uri, c.documents[q.uri].version + 1, q.source)
               else DidOpen(q.uri, 1, q.source);
      hide Conforms, Documents, Allowed, Outstanding, OneCompletion, Starting, BothGenuine, Send;
      SendSpeaks(c, m);
      SaidIsInWire(Wire(c), m);
      var sent := Send(c, m);
      var r := Synchronize(c, q);
      assert r == sent.(documents := Reads(c.documents, m));
      DocumentsAreFree(sent, r.documents);
      hide Wire;
      Assemble(r);
    }
  }

  lemma DocumentsAreFree(c: Client, documents: map<string, Document>)
    requires Spoken(c) && BothGenuine(c)
    ensures var r := c.(documents := documents); Spoken(r) && BothGenuine(r) && Wire(r) == Wire(c)
  {
  }

  lemma AskSends(c: Client, kind: Kind, q: Query)
    requires Inv(c) && c.state == Ready && Holds(c.documents, q) && kind != InitializeKind
    ensures var r := Ask(c, kind, q);
            && Spoken(r) && BothGenuine(r) && Outstanding(true, Wire(r), r.nextId, c.requests)
            && r == c.(requests := c.requests[c.nextId := Request(kind, q)], nextId := c.nextId + 1, wires := r.wires)
            && Documents(Wire(r)) == c.documents && Initialized in Wire(r)
            && Sent(Wire(r), c.nextId, Request(kind, q))
  {
    ReadyAllows(c, q);
    var m := Question(c.nextId, kind, q);
    var c1 := c.(nextId := c.nextId + 1);
    assert Wire(c1) == Wire(c);
    NewerStays(Wire(c), c.nextId, c1.nextId);
    SaidIsInWire(Wire(c), m);
    hide Conforms, Documents, Allowed, OneCompletion, Starting, Newer, Genuine, Send;
    SendSpeaks(c1, m);
  }

  lemma NewerStays(wire: seq<Message>, id: nat, later: nat)
    requires Newer(wire, id) && id <= later
    ensures Newer(wire, later)
  {
  }

  lemma AskKeepsInv(c: Client, kind: Kind, q: Query)
    requires Inv(c) && c.state == Ready && Holds(c.documents, q) && kind != InitializeKind
    requires kind == CompletionKind ==> !c.completionInFlight
    ensures Inv(Ask(c, kind, q).(completionInFlight := c.completionInFlight || kind == CompletionKind))
  {
    AskSends(c, kind, q);
    var r := Ask(c, kind, q);
    UnusedId(c);
    OneMore(r.(requests := c.requests), Request(kind, q), c.nextId, c.completionInFlight);
    hide Conforms, Documents, Outstanding, OneCompletion, Starting, BothGenuine, Ask, Sent;
  }

  lemma UnusedId(c: Client)
    requires Outstanding(c.alive, Wire(c), c.nextId, c.requests)
    ensures c.nextId !in c.requests
  {
  }

  lemma OneMore(c: Client, r: Request, id: nat, inFlight: bool)
    requires Outstanding(true, Wire(c), c.nextId, c.requests) && id < c.nextId && Sent(Wire(c), id, r)
    requires OneCompletion(c.requests, inFlight) && (r.kind == CompletionKind ==> !inFlight)
    requires Starting(c.requests, c.state) && r.kind != InitializeKind && id !in c.requests
    ensures var requests := c.requests[id := r];
            && Outstanding(true, Wire(c), c.nextId, requests) && Starting(requests, c.state)
            && OneCompletion(requests, inFlight || r.kind == CompletionKind)
  {
    hide Sent, Newer;
    var requests := c.requests[id := r];
    forall i ensures IsCompletion(requests, i) <==>
                     IsCompletion(c.requests, i) || (i == id && r.kind == CompletionKind) {
    }
    if inFlight {
      var i :| IsCompletion(c.requests, i);
      assert IsCompletion(requests, i);
    } else if r.kind == CompletionKind {
      assert IsCompletion(requests, id);
    }
  }

  lemma OneLess(c: Client, id: nat)
    requires Outstanding(c.alive, Wire(c), c.nextId, c.requests) && id in c.requests
    requires OneCompletion(c.requests, c.completionInFlight) && Starting(c.requests, c.state)
    ensures var requests := c.requests - {id};
            && Outstanding(c.alive, Wire(c), c.nextId, requests) && Starting(requests, c.state)
            && OneCompletion(requests, c.completionInFlight && c.requests[id].kind != CompletionKind)
            && (c.requests[id].kind == InitializeKind ==> forall i <- requests :: requests[i].kind != InitializeKind)
  {
    hide Sent, Newer;
    var requests := c.requests - {id};
    assert IsCompletion(c.requests, id) <==> c.requests[id].kind == CompletionKind;
    forall i ensures IsCompletion(requests, i) <==> IsCompletion(c.requests, i) && i != id {
    }
  }

  lemma AbandonKeepsInv(c: Client, id: nat)
    requires Inv(c) && id in c.requests
    ensures var r := Abandon(c, c.requests[id]).(requests := c.requests - {id});
            Inv(r) && r.state == c.state
  {
    OneLess(c, id);
    hide Conforms, Documents, Outstanding, OneCompletion, Starting, BothGenuine;
  }

  lemma SendCompletionKeepsInv(c: Client, q: Query)
    requires Inv(c) && c.state == Ready && !c.completionInFlight
    ensures Inv(SendCompletion(c, q))
  {
    SynchronizeKeepsInv(c, q);
    AskKeepsInv(Synchronize(c, q), CompletionKind, q);
  }

  lemma SendDefinitionKeepsInv(c: Client, q: Query)
    requires Inv(c) && c.state == Ready
    ensures Inv(SendDefinition(c, q))
  {
    hide Inv, Synchronize, Ask;
    SynchronizeKeepsInv(c, q);
    AskKeepsInv(Synchronize(c, q), DefinitionKind, q);
    AskSameFlight(Synchronize(c, q), DefinitionKind, q);
  }

  lemma AskSameFlight(c: Client, kind: Kind, q: Query)
    ensures var r := Ask(c, kind, q); r == r.(completionInFlight := c.completionInFlight)
  {
  }

  lemma BecomeReadyKeepsInv(c: Client)
    requires Inv(c) && c.state == Initializing && forall id <- c.requests :: c.requests[id].kind != InitializeKind
    ensures Inv(BecomeReady(c))
  {
    ReadyKeepsInv(c);
    var ready := MarkReady(c);
    assert ready.state == Ready;
    hide Inv, SendDefinition, MarkReady;
    if ready.definition.waiting {
      SendDefinitionKeepsInv(ready, ready.definition.query);
    }
  }

  lemma ReadyKeepsInv(c: Client)
    requires Inv(c) && c.state == Initializing && forall id <- c.requests :: c.requests[id].kind != InitializeKind
    ensures Inv(MarkReady(c))
  {
    hide Conforms, Documents, OneCompletion, Outstanding, BothGenuine;
    assert Initialized !in Wire(c);
    SendSpeaks(c, Initialized);
    SaidIsInWire(Wire(c), Initialized);
    hide Send;
    var sent := Send(c, Initialized);
    var r := sent.(state := Ready, restarts := 0, past := c.past.(readies := c.past.readies + 1));
    assert Wire(r) == Wire(sent);
    assert BothGenuine(r) by { FlagsKeepGenuine(sent, Ready, 0, r.past); }
  }

  lemma FlagsKeepGenuine(c: Client, state: ServerState, restarts: nat, past: Past)
    requires BothGenuine(c) && past.receipts == c.past.receipts
    ensures BothGenuine(c.(state := state, restarts := restarts, past := past))
  {
  }

  // The request of an answer is taken away and the answer noted.
  lemma ReceiveKeepsInv(c: Client, id: nat, result: string)
    requires Inv(c) && id in c.requests
    ensures var kind := c.requests[id].kind;
            var r := Received(c, id, result).(completionInFlight := c.completionInFlight && kind != CompletionKind);
            && Inv(r)
            && (kind == InitializeKind ==>
                  r.state == Initializing && forall i <- r.requests :: r.requests[i].kind != InitializeKind)
  {
    OneLess(c, id);
    var r := Received(c, id, result);
    OneStaysGenuine(c, r, c.completion.cached, CompletionKind);
    OneStaysGenuine(c, r, c.definition.cached, DefinitionKind);
    hide Conforms, Documents, Outstanding, OneCompletion, Genuine;
  }

  lemma ReceiptExplains(c: Client, id: nat, result: string)
    requires Inv(c) && id in c.requests
    ensures Explains(c.wires, Cached(c.requests[id].query, result), c.requests[id].kind, Receipt(Serving(c), id, result))
  {
    hide Conforms, Documents, Newer, OneCompletion, BothGenuine;
  }

  lemma SettleKeepsInv(c: Client, m: Incoming)
    requires Inv(c) && m.Answered? && !m.error && m.id in c.requests
    ensures Inv(Answer(c, m))
  {
    var r := c.requests[m.id];
    var e := Receipt(Serving(c), m.id, m.result);
    var c1 := Received(c, m.id, m.result);
    ReceiveKeepsInv(c, m.id, m.result);
    var received := c1.(completionInFlight := c.completionInFlight && r.kind != CompletionKind);
    assert c1.past.receipts[|c.past.receipts|] == e;
    ReceiptExplains(c, m.id, m.result);
    hide BecomeReady, Wired, Outstanding, OneCompletion, Starting, Explains, Conforms;
    match r.kind
    case InitializeKind =>
      assert c1 == received;
      if Compatible(m.version) {
        BecomeReadyKeepsInv(c1);
      } else {
        FailAnytime(c1);
      }
    case CompletionKind =>
    case DefinitionKind =>
  }

  lemma FailAnytime(c: Client)
    requires Inv(c) && !c.shut
    ensures Inv(Fail(c))
  {
    FailKeepsInv(c);
  }

  lemma HandleKeepsInv(c: Client, m: Incoming)
    requires Inv(c)
    ensures Inv(Handle(c, m))
  {
    if m.Asked? {
      ReplyKeepsInv(c, m.id);
    } else if m.id in c.requests {
      if m.error {
        AbandonKeepsInv(c, m.id);
      } else {
        SettleKeepsInv(c, m);
      }
    }
  }

  lemma ReplyKeepsInv(c: Client, id: nat)
    requires Inv(c)
    ensures Inv(Send(c, Reply(id)))
  {
    if c.alive {
      hide Conforms, Documents, OneCompletion, Starting, Outstanding, BothGenuine;
      SendSpeaks(c, Reply(id));
      SaidIsInWire(Wire(c), Reply(id));
    }
  }

  lemma {:induction false} HandleAllKeepsInv(c: Client, messages: seq<Incoming>)
    requires Inv(c)
    ensures Inv(HandleAll(c, messages))
    decreases |messages|
  {
    hide Inv, Handle;
    if messages != [] && c.state != Failed {
      HandleKeepsInv(c, messages[0]);
      HandleAllKeepsInv(Handle(c, messages[0]), messages[1..]);
    }
  }

  lemma {:induction false} ExpireAllKeepsInv(c: Client, order: seq<nat>, expired: set<nat>)
    requires Inv(c)
    ensures Inv(ExpireAll(c, order, expired)) && ExpireAll(c, order, expired).state == c.state
  {
    hide Inv, Abandon;
    if order != [] {
      var id := order[|order| - 1];
      var before := ExpireAll(c, order[..|order| - 1], expired);
      ExpireAllKeepsInv(c, order[..|order| - 1], expired);
      if id in before.requests {
        AbandonKeepsInv(before, id);
      }
    }
  }

  lemma SendSameCount(c: Client, m: Message)
    ensures var r := Send(c, m); r.past == c.past && r.completion == c.completion && r.shut == c.shut && r.state == c.state
    ensures Send(c, m).definition == c.definition
  {
  }

  lemma AskSameCount(c: Client, kind: Kind, q: Query)
    ensures var r := Ask(Synchronize(c, q), kind, q);
            r.past.launches == c.past.launches && r.completion == c.completion && r.shut == c.shut && r.state == c.state
  {
    hide Send;
    SendSameCount(Synchronize(c, q).(nextId := Synchronize(c, q).nextId + 1), Question(Synchronize(c, q).nextId, kind, q));
    if !Holds(c.documents, q) {
      SendSameCount(c, if q.uri in c.documents then DidChange(q.uri, c.documents[q.uri].version + 1, q.source)
                       else DidOpen(q.uri, 1, q.source));
    }
  }

  lemma HandleSameCount(c: Client, m: Incoming)
    ensures Handle(c, m).past.launches == c.past.launches && Handle(c, m).shut == c.shut
  {
    hide Send, Synchronize, Ask, Abandon;
    if m.Asked? {
      SendSameCount(c, Reply(m.id));
    } else if m.id in c.requests {
      var r := Received(c, m.id, m.result);
      SendSameCount(r, Initialized);
      AskSameCount(MarkReady(r), DefinitionKind, r.definition.query);
      AbandonSameCount(c, c.requests[m.id]);
    }
  }

  lemma AbandonSameCount(c: Client, r: Request)
    ensures Abandon(c, r).past == c.past && Abandon(c, r).shut == c.shut && Abandon(c, r).state == c.state
  {
  }

  lemma {:induction false} HandleAllSameCount(c: Client, messages: seq<Incoming>)
    ensures HandleAll(c, messages).past.launches == c.past.launches && HandleAll(c, messages).shut == c.shut
    decreases |messages|
  {
    hide Handle;
    if messages != [] && c.state != Failed {
      HandleSameCount(c, messages[0]);
      HandleAllSameCount(Handle(c, messages[0]), messages[1..]);
    }
  }

  lemma {:induction false} ExpireAllSameCount(c: Client, order: seq<nat>, expired: set<nat>)
    ensures var r := ExpireAll(c, order, expired);
            r.past.launches == c.past.launches && r.shut == c.shut && r.state == c.state
  {
    hide Abandon;
    if order != [] {
      var before, id := ExpireAll(c, order[..|order| - 1], expired), order[|order| - 1];
      ExpireAllSameCount(c, order[..|order| - 1], expired);
      if id in before.requests {
        AbandonSameCount(before, before.requests[id]);
      }
    }
  }

  lemma PumpKeepsInv(c: Client, t: Turn)
    requires Inv(c)
    ensures Inv(Pump(c, t))
  {
    hide Inv, HandleAll, ExpireAll, SendCompletion, Fail;
    HandleAllKeepsInv(c, t.messages);
    var c1 := HandleAll(c, t.messages);
    HandleAllSameCount(c, t.messages);
    if !c.shut {
      FailAnytime(c1);
    }
    ExpireAllKeepsInv(c1, t.order, t.expired);
    var c2 := ExpireAll(c1, t.order, t.expired);
    if c2.state == Ready && !c2.completionInFlight {
      SendCompletionKeepsInv(c2, c2.completion.query);
    }
  }

  lemma SlotsAreFree(c: Client, completion: Slot, definition: Slot)
    requires Inv(c) && completion.cached == c.completion.cached && definition.cached == c.definition.cached
    ensures Inv(c.(completion := completion, definition := definition))
  {
    hide Conforms, Documents, Outstanding, OneCompletion, Starting, Genuine;
  }

  lemma StepKeepsInv(c: Client, op: Op)
    requires Inv(c)
    ensures Inv(Do(c, op))
  {
    match op
    case CompleteOp(q, l) =>
      hide Inv, Start;
      SlotsAreFree(c, c.completion.Want(q), c.definition);
      StartKeepsInv(c.(completion := c.completion.Want(q)), l);
    case LookupOp(q, l) =>
      hide Inv, Start, SendDefinition;
      SlotsAreFree(c, c.completion, c.definition.Want(q));
      var c1 := Start(c.(definition := c.definition.Want(q)), l);
      StartKeepsInv(c.(definition := c.definition.Want(q)), l);
      if c1.state == Ready {
        SendDefinitionKeepsInv(c1, q);
      }
    case PumpOp(t) => PumpKeepsInv(c, t);
    case ShutdownOp(running) => ShutdownKeepsInv(c, running);
  }

  lemma ShutdownKeepsInv(c: Client, running: bool)
    requires Inv(c)
    ensures Inv(Shutdown(c, running))
  {
    if !c.shut {
      var c1 := if running then Send(c, Exit) else c;
      if running && c.alive {
        SendSpeaks(c, Exit);
      }
      hide Send, Conforms, Documents, Newer, Sent;
      CloseKeepsInv(c1);
    }
  }

  lemma CloseKeepsInv(c: Client)
    requires (forall w <- c.wires :: Conforms(w)) && Newer(Wire(c), c.nextId) && BothGenuine(c)
    requires c.restarts <= 1 && c.past.launches <= 1 + c.restarts + c.past.readies && |c.wires| <= c.past.launches
    ensures Inv(Closed(c))
  {
  }

  lemma {:induction false} RunKeepsInv(c: Client, ops: seq<Op>)
    requires Inv(c)
    ensures Inv(Run(c, ops))
    decreases |ops|
  {
    hide Inv, Do;
    if ops != [] {
      StepKeepsInv(c, ops[0]);
      RunKeepsInv(Do(c, ops[0]), ops[1..]);
    }
  }

  /******* What a conforming wire means *******/

  lemma {:induction false} ConformsAt(wire: seq<Message>, k: nat)
    requires Conforms(wire) && k < |wire|
    ensures Allowed(wire[..k], wire[k])
  {
    hide Allowed;
    if k < |wire| - 1 {
      ConformsAt(wire[..|wire| - 1], k);
      assert wire[..|wire| - 1][..k] == wire[..k];
    }
  }

  // How often a document was sent.
  function Edits(wire: seq<Message>, uri: string): nat {
    if wire == [] then 0
    else
      var last := wire[|wire| - 1];
      Edits(wire[..|wire| - 1], uri) + (if (last.DidOpen? || last.DidChange?) && last.uri == uri then 1 else 0)
  }

  /** The version of a document at the server is the number of times it was sent. */
  lemma {:induction false} VersionCountsEdits(wire: seq<Message>, uri: string)
    requires Conforms(wire)
    ensures uri in Documents(wire) <==> Edits(wire, uri) > 0
    ensures uri in Documents(wire) ==> Documents(wire)[uri].version == Edits(wire, uri)
  {
    hide Newer;
    if wire != [] {
      VersionCountsEdits(wire[..|wire| - 1], uri);
    }
  }

  /** When a question was put to a server, the server was initialised and had exactly the
      text the question is about, and no other question has the same identifier. */
  lemma QuestionsMeetTheirText(wire: seq<Message>, k: nat, id: nat, q: Query)
    requires Conforms(wire) && k < |wire| && (wire[k] == Completion(id, q) || wire[k] == Definition(id, q))
    ensures Initialized in wire[..k]
    ensures q.uri in Documents(wire[..k]) && Documents(wire[..k])[q.uri].source == q.source
    ensures forall j: nat | j < |wire| && j != k && (wire[j].Completion? || wire[j].Definition?) :: wire[j].id != id
  {
    ConformsAt(wire, k);
    hide Documents, Conforms;
    forall j: nat | j < |wire| && j != k && (wire[j].Completion? || wire[j].Definition?) ensures wire[j].id != id {
      ConformsAt(wire, j);
      if j < k {
        assert wire[j] in wire[..k];
      } else {
        assert wire[k] in wire[..j];
      }
    }
  }

  /** After any run: everything written to any server was allowed when it was written, and
      the running server has exactly the client's documents; a completion is in flight
      exactly when one such request is outstanding, never two; the server has been launched
      at most twice more than it became ready; cached results are answers to the very
      question they are cached under. */
  lemma EveryRun(ops: seq<Op>)
    ensures var c := Run(IDLE, ops);
            && (forall w <- c.wires :: Conforms(w))
            && (c.alive ==> Documents(Wire(c)) == c.documents)
            && OneCompletion(c.requests, c.completionInFlight)
            && c.past.launches <= 2 + c.past.readies
            && BothGenuine(c)
  {
    assert Inv(IDLE);
    RunKeepsInv(IDLE, ops);
  }

  /******* Questions get answers *******/

  // A ready server that is not working on a completion, and what is known of completions.
  ghost predicate Resting(c: Client, slot: Slot) {
    Inv(c) && c.state == Ready && !c.completionInFlight && c.completion == slot
  }

  // A ready server that is asked to complete `q`, while the answer is still wanted.
  ghost predicate IsAsked(c: Client, id: nat, slot: Slot) {
    && Inv(c) && c.state == Ready && c.completion == slot && slot.waiting
    && id in c.requests && c.requests[id] == Request(CompletionKind, slot.query)
  }

  // Without a completion outstanding, no message touches what is known of completions.
  lemma HandleKeepsResting(c: Client, m: Incoming)
    requires Inv(c) && c.state == Ready && !c.completionInFlight
    ensures Resting(Handle(c, m), c.completion) && Handle(c, m).nextId == c.nextId
  {
    HandleKeepsInv(c, m);
    hide Wired, Outstanding, Counted, BothGenuine;
    if m.Answered? && m.id in c.requests {
      assert !IsCompletion(c.requests, m.id);
      assert c.requests[m.id].kind == DefinitionKind;
    }
  }

  lemma {:induction false} HandleAllKeepsResting(c: Client, messages: seq<Incoming>)
    requires Inv(c) && c.state == Ready && !c.completionInFlight
    ensures Resting(HandleAll(c, messages), c.completion) && HandleAll(c, messages).nextId == c.nextId
    decreases |messages|
  {
    hide Inv, Handle;
    if messages != [] {
      HandleKeepsResting(c, messages[0]);
      HandleAllKeepsResting(Handle(c, messages[0]), messages[1..]);
    }
  }

  lemma ExpireKeepsResting(c: Client, id: nat, expired: set<nat>)
    requires Inv(c) && c.state == Ready && !c.completionInFlight
    ensures Resting(Expire(c, id, expired), c.completion) && Expire(c, id, expired).nextId == c.nextId
  {
    if id in c.requests {
      AbandonKeepsInv(c, id);
      hide Wired, Outstanding, Counted, BothGenuine;
      assert !IsCompletion(c.requests, id);
    }
  }

  lemma {:induction false} ExpireAllKeepsResting(c: Client, order: seq<nat>, expired: set<nat>)
    requires Inv(c) && c.state == Ready && !c.completionInFlight
    ensures Resting(ExpireAll(c, order, expired), c.completion) && ExpireAll(c, order, expired).nextId == c.nextId
  {
    hide Inv, Expire;
    if order != [] {
      ExpireAllKeepsResting(c, order[..|order| - 1], expired);
      ExpireKeepsResting(ExpireAll(c, order[..|order| - 1], expired), order[|order| - 1], expired);
    }
  }

  lemma SendCompletionAsks(c: Client)
    requires Inv(c) && c.state == Ready && c.completion.waiting && !c.completionInFlight
    ensures var r := SendCompletion(c, c.completion.query);
            && IsAsked(r, c.nextId, c.completion) && r.completionInFlight
            && Completion(c.nextId, c.completion.query) in Wire(r)
  {
    var q := c.completion.query;
    SynchronizeKeepsInv(c, q);
    var m := Synchronize(c, q);
    AskKeepsInv(m, CompletionKind, q);
    AskSends(m, CompletionKind, q);
    hide Inv, Synchronize, Ask, Wire;
    WireIsOnlyWires(Ask(m, CompletionKind, q), true);
  }

  lemma WireIsOnlyWires(c: Client, inFlight: bool)
    ensures Wire(c.(completionInFlight := inFlight)) == Wire(c)
  {
  }

  lemma ReadyIsOpen(c: Client)
    requires Inv(c) && c.state == Ready
    ensures !c.shut
  {
  }

  /** A completion that is due is asked for by the next pump of a ready server, whatever
      else that pump brings, as long as the server runs and its framing holds; and then it
      is in flight, under the next identifier. */
  lemma DueCompletionIsAsked(c: Client, t: Turn)
    requires Inv(c) && c.state == Ready && c.completion.waiting && !c.completionInFlight
    requires t.due && t.running && !t.broken
    ensures var r := Pump(c, t);
            && IsAsked(r, c.nextId, c.completion) && r.completionInFlight
            && Completion(c.nextId, c.completion.query) in Wire(r)
  {
    HandleAllKeepsResting(c, t.messages);
    ReadyIsOpen(c);
    hide Inv, HandleAll, ExpireAll, SendCompletion, Wire;
    var c1 := HandleAll(c, t.messages);
    ExpireAllKeepsResting(c1, t.order, t.expired);
    SendCompletionAsks(ExpireAll(c1, t.order, t.expired));
  }

  lemma {:induction false} HandleAllMore(c: Client, first: seq<Incoming>, more: seq<Incoming>)
    ensures HandleAll(c, first + more) == HandleAll(HandleAll(c, first), more)
    decreases |first|
  {
    hide Handle;
    if first == [] {
      assert first + more == more;
    } else {
      assert (first + more)[1..] == first[1..] + more;
      if c.state != Failed {
        HandleAllMore(Handle(c, first[0]), first[1..], more);
      }
    }
  }

  // Only its own answer ends the wait for a completion.
  lemma OthersKeepAsked(c: Client, m: Incoming, id: nat, slot: Slot)
    requires IsAsked(c, id, slot) && (m.Answered? ==> m.id != id)
    ensures IsAsked(Handle(c, m), id, slot)
  {
    HandleKeepsInv(c, m);
    hide Wired, Outstanding, Counted, BothGenuine;
    if m.Answered? && m.id in c.requests {
      assert IsCompletion(c.requests, id) && !IsCompletion(c.requests, m.id);
      assert c.requests[m.id].kind == DefinitionKind;
    }
  }

  lemma {:induction false} AllOthersKeepAsked(c: Client, messages: seq<Incoming>, id: nat, slot: Slot)
    requires IsAsked(c, id, slot) && forall m <- messages :: m.Answered? ==> m.id != id
    ensures IsAsked(HandleAll(c, messages), id, slot)
    decreases |messages|
  {
    hide Inv, Handle;
    if messages != [] {
      OthersKeepAsked(c, messages[0], id, slot);
      AllOthersKeepAsked(Handle(c, messages[0]), messages[1..], id, slot);
    }
  }

  lemma AnswerFillsSlot(c: Client, m: Incoming, slot: Slot)
    requires m.Answered? && !m.error && IsAsked(c, m.id, slot)
    ensures Resting(Handle(c, m), slot.Fill(Cached(slot.query, m.result)))
  {
    HandleKeepsInv(c, m);
    hide Inv;
  }

  // What is known of a completion that nobody waits for outlasts any pump.
  lemma PumpKeepsAnswer(c: Client, t: Turn, before: seq<Incoming>, after: seq<Incoming>)
    requires Inv(c) && c.state == Ready && t.messages == before + after
    requires Resting(HandleAll(c, before), HandleAll(c, before).completion) && !HandleAll(c, before).completion.waiting
    ensures Pump(c, t).completion == HandleAll(c, before).completion && !Pump(c, t).completionInFlight
  {
    var slot := HandleAll(c, before).completion;
    ReadyIsOpen(c);
    HandleAllMore(c, before, after);
    hide Inv, HandleAll, ExpireAll, SendCompletion;
    HandleAllKeepsResting(HandleAll(c, before), after);
    var c1 := HandleAll(c, t.messages);
    ExpireAllKeepsResting(c1, t.order, t.expired);
  }

  /** From asking to having: a new query, sent by the next pump that is due and answered
      somewhere among the messages of the one after it, is served from then on with the very
      result the server gave, whatever else the two pumps bring. */
  lemma CompletionRoundTrip(c: Client, q: Query, l: Launch, t1: Turn, t2: Turn,
                            before: seq<Incoming>, answer: Incoming, after: seq<Incoming>)
    requires Inv(c) && c.state == Ready && !c.completionInFlight && q.path != ""
    requires !c.completion.Answers(q) && !c.completion.WaitsFor(q)
    requires t1.due && t1.running && !t1.broken
    requires t2.messages == before + [answer] + after
    requires answer.Answered? && !answer.error && answer.id == c.nextId
    requires forall m <- before :: m.Answered? ==> m.id != c.nextId
    ensures var served := Pump(Pump(Complete(c, q, l), t1), t2);
            && served.completion.Answers(q) && served.completion.cached.value.result == answer.result
            && !served.completion.waiting && !served.completionInFlight
            && Complete(served, q, l) == served
  {
    hide Inv, Pump, HandleAll, Handle, Start;
    var slot := c.completion.Want(q);
    var asked := Complete(c, q, l);
    ReadyNeedsNoStart(c.(completion := slot), l);
    assert asked == c.(completion := slot);
    SlotsAreFree(c, slot, c.definition);
    DueCompletionIsAsked(asked, t1);
    var sent := Pump(asked, t1);
    AllOthersKeepAsked(sent, before, c.nextId, slot);
    AnswerFillsSlot(HandleAll(sent, before), answer, slot);
    HandleAllMore(sent, before, [answer]);
    HandleOne(HandleAll(sent, before), answer);
    PumpKeepsAnswer(sent, t2, before + [answer], after);
  }

  lemma ReadyNeedsNoStart(c: Client, l: Launch)
    requires c.state == Ready
    ensures Start(c, l) == c
  {
  }

  lemma HandleOne(c: Client, m: Incoming)
    requires c.state != Failed
    ensures HandleAll(c, [m]) == Handle(c, m)
  {
    hide Handle;
    assert [m][1..] == [];
  }

  /** A definition asked for before the server is ready is sent as soon as a compatible
      server has answered its initialisation. */
  lemma WaitingDefinitionIsSent(c: Client, m: Incoming)
    requires Inv(c) && m.Answered? && m.id in c.requests && c.requests[m.id].kind == InitializeKind
    requires !m.error && Compatible(m.version) && c.definition.waiting
    ensures var r := Answer(c, m);
            && Inv(r) && r.state == Ready && Definition(c.nextId, c.definition.query) in Wire(r)
  {
    SettleKeepsInv(c, m);
    ReceiveKeepsInv(c, m.id, m.result);
    var c1 := Received(c, m.id, m.result);
    assert c1 == c1.(completionInFlight := c.completionInFlight && c.requests[m.id].kind != CompletionKind);
    ReadyKeepsInv(c1);
    var ready := MarkReady(c1);
    MarkReadyKeeps(c1);
    var q := c.definition.query;
    SynchronizeKeepsInv(ready, q);
    AskSends(Synchronize(ready, q), DefinitionKind, q);
    hide Inv, MarkReady, Synchronize, Ask, Wire;
    assert Answer(c, m) == SendDefinition(ready, q);
  }

  lemma MarkReadyKeeps(c: Client)
    ensures var r := MarkReady(c);
            r.state == Ready && r.definition == c.definition && r.nextId == c.nextId
  {
  }

  // A ready server that is asked for the definition that is still wanted, by this request alone.
  ghost predicate IsAskedDefinition(c: Client, id: nat, slot: Slot) {
    && Inv(c) && c.state == Ready && c.definition == slot && slot.waiting
    && id in c.requests && c.requests[id] == Request(DefinitionKind, slot.query)
    && OnlyOneAsks(c.requests, id, slot.query)
  }

  ghost predicate OnlyOneAsks(requests: map<nat, Request>, id: nat, q: Query) {
    forall i <- requests | i != id :: !(requests[i].kind == DefinitionKind && SameQuery(requests[i].query, q))
  }

  lemma OthersKeepAskedDefinition(c: Client, m: Incoming, id: nat, slot: Slot)
    requires IsAskedDefinition(c, id, slot) && (m.Answered? ==> m.id != id)
    ensures IsAskedDefinition(Handle(c, m), id, slot)
  {
    hide Inv, BecomeReady, Fail, Send, OnlyOneAsks;
    HandleKeepsInv(c, m);
    NotInitializing(c, m);
    SendKeepsSlots(c, Reply(m.id));
    NoTwin(c, m, id, slot);
  }

  // Whatever else is answered does not ask for the same, and its answer leaves this request alone.
  lemma NoTwin(c: Client, m: Incoming, id: nat, slot: Slot)
    requires OnlyOneAsks(c.requests, id, slot.query)
    ensures OnlyOneAsks(c.requests - {m.id}, id, slot.query)
    ensures m.id in c.requests && m.id != id && c.requests[m.id].kind == DefinitionKind ==>
              !SameQuery(c.requests[m.id].query, slot.query)
  {
  }

  // A ready server has answered its initialisation.
  lemma NotInitializing(c: Client, m: Incoming)
    requires Inv(c) && c.state == Ready
    ensures m.id in c.requests ==> c.requests[m.id].kind != InitializeKind
  {
  }

  lemma SendKeepsSlots(c: Client, m: Message)
    ensures var r := Send(c, m); r.state == c.state && r.definition == c.definition && r.requests == c.requests
  {
  }

  lemma {:induction false} AllOthersKeepAskedDefinition(c: Client, messages: seq<Incoming>, id: nat, slot: Slot)
    requires IsAskedDefinition(c, id, slot) && forall m <- messages :: m.Answered? ==> m.id != id
    ensures IsAskedDefinition(HandleAll(c, messages), id, slot)
    decreases |messages|
  {
    hide Inv, Handle, OnlyOneAsks;
    if messages != [] {
      OthersKeepAskedDefinition(c, messages[0], id, slot);
      AllOthersKeepAskedDefinition(Handle(c, messages[0]), messages[1..], id, slot);
    }
  }

  lemma ExpireKeepsAskedDefinition(c: Client, other: nat, expired: set<nat>, id: nat, slot: Slot)
    requires IsAskedDefinition(c, id, slot) && id !in expired
    ensures IsAskedDefinition(Expire(c, other, expired), id, slot)
  {
    if other in c.requests {
      AbandonKeepsInv(c, other);
    }
    hide Inv;
  }

  lemma {:induction false} ExpireAllKeepAskedDefinition(c: Client, order: seq<nat>, expired: set<nat>, id: nat, slot: Slot)
    requires IsAskedDefinition(c, id, slot) && id !in expired
    ensures IsAskedDefinition(ExpireAll(c, order, expired), id, slot)
  {
    hide Inv, Expire, OnlyOneAsks;
    if order != [] {
      ExpireAllKeepAskedDefinition(c, order[..|order| - 1], expired, id, slot);
      ExpireKeepsAskedDefinition(ExpireAll(c, order[..|order| - 1], expired), order[|order| - 1], expired, id, slot);
    }
  }

  lemma SendCompletionKeepsAskedDefinition(c: Client, id: nat, slot: Slot)
    requires IsAskedDefinition(c, id, slot) && !c.completionInFlight
    ensures IsAskedDefinition(SendCompletion(c, c.completion.query), id, slot)
  {
    var q := c.completion.query;
    SendCompletionKeepsInv(c, q);
    assert id < c.nextId;
    SendChangesNoSlot(c, q);
    hide Inv;
  }

  lemma SendChangesNoSlot(c: Client, q: Query)
    ensures var r := SendCompletion(c, q);
            && r.state == c.state && r.definition == c.definition
            && r.requests == c.requests[c.nextId := Request(CompletionKind, q)]
  {
  }

  /** The question stays on its way through any pump that neither answers it nor finds it too
      old, as long as the server runs. */
  lemma PumpKeepsAskedDefinition(c: Client, t: Turn, id: nat, slot: Slot)
    requires IsAskedDefinition(c, id, slot) && t.running && !t.broken && id !in t.expired
    requires forall m <- t.messages :: m.Answered? ==> m.id != id
    ensures IsAskedDefinition(Pump(c, t), id, slot)
  {
    ReadyIsOpen(c);
    AllOthersKeepAskedDefinition(c, t.messages, id, slot);
    var c1 := HandleAll(c, t.messages);
    ExpireAllKeepAskedDefinition(c1, t.order, t.expired, id, slot);
    var c2 := ExpireAll(c1, t.order, t.expired);
    if !c2.completionInFlight {
      SendCompletionKeepsAskedDefinition(c2, id, slot);
    }
    hide Inv, HandleAll, ExpireAll, SendCompletion, OnlyOneAsks;
  }

  // A ready server, and a definition that nobody waits for any more.
  ghost predicate HasDefinition(c: Client, slot: Slot) {
    Inv(c) && c.state == Ready && c.definition == slot && !slot.waiting
  }

  lemma HandleKeepsDefinition(c: Client, m: Incoming, slot: Slot)
    requires HasDefinition(c, slot)
    ensures HasDefinition(Handle(c, m), slot)
  {
    HandleKeepsInv(c, m);
    hide Wired, Outstanding, OneCompletion, Counted, BothGenuine;
  }

  lemma {:induction false} HandleAllKeepsDefinition(c: Client, messages: seq<Incoming>, slot: Slot)
    requires HasDefinition(c, slot)
    ensures HasDefinition(HandleAll(c, messages), slot)
    decreases |messages|
  {
    hide Inv, Handle;
    if messages != [] {
      HandleKeepsDefinition(c, messages[0], slot);
      HandleAllKeepsDefinition(Handle(c, messages[0]), messages[1..], slot);
    }
  }

  lemma {:induction false} ExpireAllKeepsDefinition(c: Client, order: seq<nat>, expired: set<nat>)
    requires !c.definition.waiting
    ensures ExpireAll(c, order, expired).definition == c.definition
  {
    if order != [] {
      ExpireAllKeepsDefinition(c, order[..|order| - 1], expired);
    }
  }

  lemma PumpKeepsDefinition(c: Client, t: Turn, before: seq<Incoming>, after: seq<Incoming>, slot: Slot)
    requires Inv(c) && (c.state == Ready || c.state == Initializing) && t.messages == before + after
    requires HasDefinition(HandleAll(c, before), slot)
    ensures Pump(c, t).definition == slot
  {
    RunningIsOpen(c);
    HandleAllMore(c, before, after);
    HandleAllKeepsDefinition(HandleAll(c, before), after, slot);
    var c1 := HandleAll(c, t.messages);
    ExpireAllKeepsDefinition(c1, t.order, t.expired);
    var c2 := ExpireAll(c1, t.order, t.expired);
    SendChangesNoSlot(c2, c2.completion.query);
    hide Inv, HandleAll, ExpireAll, SendCompletion;
  }

  lemma RunningIsOpen(c: Client)
    requires Inv(c) && (c.state == Ready || c.state == Initializing)
    ensures !c.shut
  {
  }

  lemma AnswerGivesDefinition(c: Client, m: Incoming, slot: Slot)
    requires m.Answered? && !m.error && IsAskedDefinition(c, m.id, slot)
    ensures HasDefinition(Handle(c, m), slot.Fill(Cached(slot.query, m.result)))
  {
    HandleKeepsInv(c, m);
    hide Inv;
  }

  // The query is answered from the cache, and asking for it again changes nothing.
  ghost predicate Serves(c: Client, q: Query, result: string) {
    && c.definition.cached.Some? && SameQuery(q, c.definition.cached.value.query)
    && c.definition.cached.value.result == result && !c.definition.waiting
    && forall l :: Lookup(c, q, l) == c
  }

  // Wherever among the messages of a pump the answer comes, the query is served from then on.
  lemma AnsweredInPump(c: Client, t: Turn, before: seq<Incoming>, answer: Incoming, after: seq<Incoming>, slot: Slot)
    requires Inv(c) && (c.state == Ready || c.state == Initializing)
    requires t.messages == before + [answer] + after && answer.Answered? && !answer.error
    requires IsAskedDefinition(HandleAll(c, before), answer.id, slot)
    ensures Serves(Pump(c, t), slot.query, answer.result)
  {
    hide Inv, Pump, HandleAll, Handle, OnlyOneAsks;
    AnswerGivesDefinition(HandleAll(c, before), answer, slot);
    HandleAllMore(c, before, [answer]);
    HandleOne(HandleAll(c, before), answer);
    PumpKeepsDefinition(c, t, before + [answer], after, slot.Fill(Cached(slot.query, answer.result)));
  }

  /** From asking to having: a new query to a ready server is put on the wire at once, under
      the next identifier; if the next pump brings its answer anywhere among its messages, the
      query is served from then on with the very result the server gave, whatever else that
      pump brings. */
  lemma DefinitionRoundTrip(c: Client, q: Query, l: Launch, t: Turn,
                            before: seq<Incoming>, answer: Incoming, after: seq<Incoming>)
    requires Inv(c) && c.state == Ready && !l.quitting && q.path != ""
    requires !c.definition.Answers(q) && !c.definition.WaitsFor(q) && OnlyOneAsks(c.requests, c.nextId, q)
    requires t.messages == before + [answer] + after
    requires answer.Answered? && !answer.error && answer.id == c.nextId
    requires forall m <- before :: m.Answered? ==> m.id != c.nextId
    ensures var asked := Lookup(c, q, l);
            && Definition(c.nextId, q) in Wire(asked)
            && Serves(Pump(asked, t), q, answer.result)
  {
    LookupAsks(c, q, l);
    hide Inv, Pump, HandleAll, Handle, Lookup, Wire, OnlyOneAsks;
    var asked := Lookup(c, q, l);
    AllOthersKeepAskedDefinition(asked, before, c.nextId, c.definition.Want(q));
    AnsweredInPump(asked, t, before, answer, after, c.definition.Want(q));
  }

  lemma LookupAsks(c: Client, q: Query, l: Launch)
    requires Inv(c) && c.state == Ready && !l.quitting && q.path != ""
    requires !c.definition.Answers(q) && !c.definition.WaitsFor(q) && OnlyOneAsks(c.requests, c.nextId, q)
    ensures var asked := Lookup(c, q, l);
            Definition(c.nextId, q) in Wire(asked) && IsAskedDefinition(asked, c.nextId, c.definition.Want(q))
  {
    ReadyIsOpen(c);
    var wanting := c.(definition := c.definition.Want(q));
    ReadyNeedsNoStart(wanting, l);
    SlotsAreFree(c, c.completion, c.definition.Want(q));
    AsksForDefinition(wanting, q);
    hide Inv, SendDefinition, Start;
    assert Lookup(c, q, l) == SendDefinition(wanting, q);
  }

  lemma AsksForDefinition(c: Client, q: Query)
    requires Inv(c) && c.state == Ready && c.definition.waiting && c.definition.query == q
    requires OnlyOneAsks(c.requests, c.nextId, q)
    ensures var r := SendDefinition(c, q);
            Definition(c.nextId, q) in Wire(r) && IsAskedDefinition(r, c.nextId, c.definition)
  {
    hide Inv, Synchronize, Wire, Ask;
    SynchronizeKeepsInv(c, q);
    SendDefinitionKeepsInv(c, q);
    SynchronizeKeepsSlots(c, q);
    AskSends(Synchronize(c, q), DefinitionKind, q);
    AskKeepsSlots(Synchronize(c, q), q);
  }

  lemma SynchronizeKeepsSlots(c: Client, q: Query)
    ensures var r := Synchronize(c, q);
            r.state == c.state && r.definition == c.definition && r.requests == c.requests && r.nextId == c.nextId
  {
  }

  lemma AskKeepsSlots(c: Client, q: Query)
    ensures var r := Ask(c, DefinitionKind, q);
            && r.state == c.state && r.definition == c.definition
            && r.requests == c.requests[c.nextId := Request(DefinitionKind, q)]
  {
  }

  // Before it is initialised a server is asked nothing else.
  lemma StartingIsAskedNothing(c: Client)
    requires Inv(c) && c.state == Initializing
    ensures forall id <- c.requests :: c.requests[id].kind == InitializeKind
  {
    forall id <- c.requests ensures c.requests[id].kind == InitializeKind {
      if c.requests[id].kind != InitializeKind {
        QuestionMeansInitialized(Wire(c), id, c.requests[id]);
      }
    }
  }

  lemma QuestionMeansInitialized(wire: seq<Message>, id: nat, r: Request)
    requires Conforms(wire) && r.kind != InitializeKind && Sent(wire, id, r)
    ensures Initialized in wire
  {
    var k: nat :| k < |wire| && wire[k] == Question(id, r.kind, r.query);
    ConformsAt(wire, k);
  }

  /** The same for a query that waited for the server: once its initialisation is answered, the
      question is on the wire, and when its answer comes among the messages behind, or in the
      next pump, the query is served with that result. */
  lemma WaitingDefinitionRoundTrip(c: Client, t1: Turn, ready: Incoming, between: seq<Incoming>, t2: Turn,
                                   before: seq<Incoming>, answer: Incoming, after: seq<Incoming>)
    requires Inv(c) && c.state == Initializing && c.definition.waiting
    requires ready.Answered? && !ready.error && ready.id in c.requests && Compatible(ready.version)
    requires answer.Answered? && !answer.error && answer.id == c.nextId
    requires forall m <- between + before :: m.Answered? ==> m.id != c.nextId
    requires t1.running && !t1.broken && c.nextId !in t1.expired
    ensures t1.messages == [ready] + between + [answer] + after ==>
              Serves(Pump(c, t1), c.definition.query, answer.result)
    ensures t1.messages == [ready] + between && t2.messages == before + [answer] + after ==>
              Serves(Pump(Pump(c, t1), t2), c.definition.query, answer.result)
  {
    var slot := c.definition;
    ReadyAsks(c, ready);
    hide Inv, Pump, HandleAll, Handle, OnlyOneAsks;
    HandleOne(c, ready);
    AllOthersKeepAskedDefinition(Handle(c, ready), between, c.nextId, slot);
    HandleAllMore(c, [ready], between);
    if t1.messages == [ready] + between + [answer] + after {
      AnsweredInPump(c, t1, [ready] + between, answer, after, slot);
    }
    if t1.messages == [ready] + between && t2.messages == before + [answer] + after {
      ReadiedPumpKeepsAsked(c, t1, slot);
      PumpKeepsInv(c, t1);
      AllOthersKeepAskedDefinition(Pump(c, t1), before, c.nextId, slot);
      AnsweredInPump(Pump(c, t1), t2, before, answer, after, slot);
    }
  }

  lemma ReadiedPumpKeepsAsked(c: Client, t: Turn, slot: Slot)
    requires Inv(c) && c.state == Initializing && t.running && !t.broken && c.nextId !in t.expired
    requires IsAskedDefinition(HandleAll(c, t.messages), c.nextId, slot)
    ensures IsAskedDefinition(Pump(c, t), c.nextId, slot)
  {
    RunningIsOpen(c);
    var c1 := HandleAll(c, t.messages);
    ExpireAllKeepAskedDefinition(c1, t.order, t.expired, c.nextId, slot);
    var c2 := ExpireAll(c1, t.order, t.expired);
    if !c2.completionInFlight {
      SendCompletionKeepsAskedDefinition(c2, c.nextId, slot);
    }
    hide Inv, HandleAll, ExpireAll, SendCompletion, OnlyOneAsks;
  }

  lemma ReadyAsks(c: Client, m: Incoming)
    requires Inv(c) && c.state == Initializing && c.definition.waiting
    requires m.Answered? && !m.error && m.id in c.requests && Compatible(m.version)
    ensures IsAskedDefinition(Handle(c, m), c.nextId, c.definition)
  {
    StartingIsAskedNothing(c);
    WaitingDefinitionIsSent(c, m);
    ReceiveKeepsInv(c, m.id, m.result);
    var c1 := Received(c, m.id, m.result);
    ReadyKeepsInv(c1);
    MarkReadyKeeps(c1);
    MarkReadyKeepsRequests(c1);
    AsksForDefinition(MarkReady(c1), c.definition.query);
    hide Inv, MarkReady, SendDefinition;
    assert Handle(c, m) == SendDefinition(MarkReady(c1), c.definition.query);
  }

  lemma MarkReadyKeepsRequests(c: Client)
    ensures MarkReady(c).requests == c.requests
  {
  }

  /******* When asking starts the server *******/

  // Starting would launch a process.
  predicate Launches(c: Client, l: Launch) {
    && !c.shut && !l.quitting
    && (c.state == Stopped || (c.state == Failed && c.restarts == 0 && l.backoffOver))
  }

  lemma StartLaunchesIff(c: Client, l: Launch)
    requires c.state == Failed ==> c.restarts <= 1
    ensures Start(c, l).past.launches == c.past.launches + if Launches(c, l) then 1 else 0
    ensures !Launches(c, l) ==> Start(c, l) == c
    ensures Launches(c, l) && !l.spawned ==> !Start(c, l).completion.waiting
    ensures Launches(c, l) && l.spawned ==> Start(c, l).state == Initializing
  {
  }

  /** Asking for a completion launches a process iff starting would, the query names a file,
      has no cached answer and is not already waiting. */
  lemma CompleteLaunchesIff(c: Client, q: Query, l: Launch)
    requires Inv(c)
    ensures Complete(c, q, l).past.launches == c.past.launches + 1 || Complete(c, q, l).past.launches == c.past.launches
    ensures Complete(c, q, l).past.launches > c.past.launches
            <==> Launches(c, l) && q.path != "" && !c.completion.Answers(q) && !c.completion.WaitsFor(q)
  {
    hide Start, Wired, Outstanding, OneCompletion, Starting, BothGenuine;
    StartLaunchesIff(c.(completion := c.completion.Want(q)), l);
  }

  /** The same of asking for a definition: sending the question launches nothing. */
  lemma LookupLaunchesIff(c: Client, q: Query, l: Launch)
    requires Inv(c)
    ensures Lookup(c, q, l).past.launches == c.past.launches + 1 || Lookup(c, q, l).past.launches == c.past.launches
    ensures Lookup(c, q, l).past.launches > c.past.launches
            <==> Launches(c, l) && q.path != "" && !c.definition.Answers(q) && !c.definition.WaitsFor(q)
  {
    hide Start, Wired, Outstanding, OneCompletion, Starting, BothGenuine, Synchronize, Ask;
    var wanting := c.(definition := c.definition.Want(q));
    StartLaunchesIff(wanting, l);
    AskSameCount(Start(wanting, l), DefinitionKind, q);
  }

  // A new question to a failed client that may not restart for it.
  predicate Refuses(c: Client, op: Op) {
    && c.state == Failed && op.CompleteOp? && !Launches(c, op.launch)
    && op.query.path != "" && !c.completion.Answers(op.query)
  }

  lemma RunLast(c: Client, ops: seq<Op>, op: Op)
    ensures Run(c, ops + [op]) == Do(Run(c, ops), op)
    decreases |ops|
  {
    hide Do;
    if ops == [] {
      assert [] + [op] == [op] && [op][1..] == [];
      assert Run(c, [op]) == Run(Do(c, op), [op][1..]);
    } else {
      assert (ops + [op])[1..] == ops[1..] + [op];
      RunLast(Do(c, ops[0]), ops[1..], op);
    }
  }

  // A pump that ends in failure leaves nothing waiting; no pump launches.
  lemma PumpCounts(c: Client, t: Turn)
    ensures var r := Pump(c, t);
            && r.past.launches == c.past.launches && r.shut == c.shut
            && (c.state == Failed || c.state == Stopped || c.shut ==> r == c)
            && (c.state != Failed && r.state == Failed ==> !r.completion.waiting)
  {
    hide HandleAll, ExpireAll, Synchronize, Ask;
    HandleAllSameCount(c, t.messages);
    var c1 := HandleAll(c, t.messages);
    ExpireAllSameCount(c1, t.order, t.expired);
    var c2 := ExpireAll(c1, t.order, t.expired);
    AskSameCount(c2, CompletionKind, c2.completion.query);
  }

  // How one step bears on a failed client and what it waits for.
  lemma StepOnFailed(c: Client, op: Op)
    requires Inv(c)
    ensures var r := Do(c, op);
            && r.past.launches >= c.past.launches
            && (c.shut ==> r.shut)
            && (r.state == Failed && r.completion.waiting && r.past.launches == c.past.launches ==>
                  c.state == Failed && (Refuses(c, op) || c.completion.waiting))
            && (r.state == Failed && r.completion.waiting ==> r.past.launches == c.past.launches)
            && (Refuses(c, op) ==> r.state == Failed && r.completion.waiting && r.past.launches == c.past.launches)
            && (c.state == Failed && c.completion.waiting && r.past.launches == c.past.launches ==>
                  r.shut || (r.state == Failed && r.completion.waiting))
  {
    hide Start, Pump, Wired, Outstanding, OneCompletion, Starting, BothGenuine, Synchronize, Ask;
    match op
    case CompleteOp(q, l) =>
      StartOnFailed(c.(completion := c.completion.Want(q)), l);
    case LookupOp(q, l) =>
      var wanting := c.(definition := c.definition.Want(q));
      StartOnFailed(wanting, l);
      AskSameCount(Start(wanting, l), DefinitionKind, q);
    case PumpOp(t) => PumpCounts(c, t);
    case ShutdownOp(running) => ShutdownCounts(c, running);
  }

  lemma StartOnFailed(c: Client, l: Launch)
    requires c.restarts <= 1
    ensures var r := Start(c, l);
            && r.past.launches == c.past.launches + (if Launches(c, l) then 1 else 0) && r.shut == c.shut
            && (Launches(c, l) ==> r.state != Failed || !r.completion.waiting)
            && (Launches(c, l) ==> r.state == Initializing || r.state == Failed)
            && (!Launches(c, l) ==> r == c)
  {
    StartLaunchesIff(c, l);
  }

  lemma ShutdownCounts(c: Client, running: bool)
    ensures var r := Shutdown(c, running); r.past.launches == c.past.launches && r.shut
    ensures var r := Shutdown(c, running); r.state == Failed ==> r == c
  {
    hide Send;
    SendSameCount(c, Exit);
  }

  // Over a stretch without a launch, what a failed client waits for it keeps waiting for.
  lemma {:induction false} KeepsWaiting(c: Client, ops: seq<Op>)
    requires Inv(c) && (c.shut || (c.state == Failed && c.completion.waiting))
    ensures Run(c, ops).past.launches >= c.past.launches
    ensures Run(c, ops).past.launches == c.past.launches ==>
              Run(c, ops).shut || (Run(c, ops).state == Failed && Run(c, ops).completion.waiting)
    decreases |ops|
  {
    hide Inv, Do, Refuses;
    if ops != [] {
      StepOnFailed(c, ops[0]);
      StepKeepsInv(c, ops[0]);
      var r := Do(c, ops[0]);
      if r.shut || (r.state == Failed && r.completion.waiting) {
        KeepsWaiting(r, ops[1..]);
      } else {
        LaunchesGrow(r, ops[1..]);
      }
    }
  }

  lemma {:induction false} LaunchesGrow(c: Client, ops: seq<Op>)
    requires Inv(c)
    ensures Run(c, ops).past.launches >= c.past.launches
    decreases |ops|
  {
    hide Inv, Do, Refuses;
    if ops != [] {
      StepOnFailed(c, ops[0]);
      StepKeepsInv(c, ops[0]);
      LaunchesGrow(Do(c, ops[0]), ops[1..]);
    }
  }

  lemma {:induction false} RunMore(c: Client, first: seq<Op>, more: seq<Op>)
    ensures Run(c, first + more) == Run(Run(c, first), more)
    decreases |first|
  {
    hide Do;
    if first == [] {
      assert first + more == more;
    } else {
      assert (first + more)[1..] == first[1..] + more;
      RunMore(Do(c, first[0]), first[1..], more);
    }
  }

  // The k-th step of a run was refused, and no process was launched since.
  ghost predicate RefusedAt(ops: seq<Op>, k: nat) {
    && k < |ops| && Refuses(Run(IDLE, ops[..k]), ops[k])
    && Run(IDLE, ops[..k]).past.launches == Run(IDLE, ops).past.launches
  }

  lemma {:induction false} WaitingWasRefused(ops: seq<Op>)
    requires Run(IDLE, ops).state == Failed && Run(IDLE, ops).completion.waiting
    ensures exists k: nat :: RefusedAt(ops, k)
    decreases |ops|
  {
    hide Do, Refuses;
    assert Inv(IDLE);
    if ops != [] {
      var before, last := ops[..|ops| - 1], ops[|ops| - 1];
      assert ops == before + [last];
      hide Inv, Run;
      RunKeepsInv(IDLE, before);
      RunLast(IDLE, before, last);
      StepOnFailed(Run(IDLE, before), last);
      if Refuses(Run(IDLE, before), last) {
        assert RefusedAt(ops, |before|);
      } else {
        WaitingWasRefused(before);
        var k: nat :| RefusedAt(before, k);
        assert ops[..k] == before[..k];
        assert RefusedAt(ops, k);
      }
    }
  }

  /** Over every run: a failed client has a completion waiting iff one was asked for while it
      had failed and might not restart, and nothing has been launched since. Until something
      else launches, asking for that very completion does not. */
  lemma FailedClientWaitsIff(ops: seq<Op>)
    requires Run(IDLE, ops).state == Failed
    ensures Run(IDLE, ops).completion.waiting <==> exists k: nat :: RefusedAt(ops, k)
  {
    hide Do, Refuses, Run;
    if k: nat :| RefusedAt(ops, k) {
      var before := Run(IDLE, ops[..k]);
      assert Inv(IDLE);
      hide Inv;
      RunKeepsInv(IDLE, ops[..k]);
      RunKeepsInv(IDLE, ops[..k + 1]);
      assert ops[..k + 1] == ops[..k] + [ops[k]] && ops == ops[..k + 1] + ops[k + 1..];
      RunLast(IDLE, ops[..k], ops[k]);
      StepOnFailed(before, ops[k]);
      RunMore(IDLE, ops[..k + 1], ops[k + 1..]);
      KeepsWaiting(Run(IDLE, ops[..k + 1]), ops[k + 1..]);
      RunKeepsInv(IDLE, ops);
      FailedIsOpen(Run(IDLE, ops));
    } else if Run(IDLE, ops).completion.waiting {
      WaitingWasRefused(ops);
    }
  }

  lemma FailedIsOpen(c: Client)
    requires Inv(c) && c.state == Failed
    ensures !c.shut
  {
  }

  /** A completion asked for while a failed server may not be restarted yet is kept as
      pending, and no repetition of it, whenever it comes, starts the server again. */
  lemma {:induction false} RefusedQueryStaysPending(c: Client, q: Query, l: Launch, ops: seq<Op>)
    requires c.state == Failed && !l.backoffOver && q.path != "" && !c.completion.Answers(q) && !c.completion.WaitsFor(q)
    requires forall op <- ops :: op.PumpOp? || (op.CompleteOp? && SameQuery(op.query, q))
    ensures var refused := c.(completion := c.completion.Want(q));
            Complete(c, q, l) == refused && Run(refused, ops) == refused
    decreases |ops|
  {
    if ops != [] {
      RefusedQueryStaysPending(c, q, l, ops[1..]);
    }
  }

  /** And so is a definition. */
  lemma {:induction false} RefusedLookupStaysPending(c: Client, q: Query, l: Launch, ops: seq<Op>)
    requires c.state == Failed && !l.backoffOver && q.path != "" && !c.definition.Answers(q) && !c.definition.WaitsFor(q)
    requires forall op <- ops :: op.PumpOp? || (op.LookupOp? && SameQuery(op.query, q))
    ensures var refused := c.(definition := c.definition.Want(q));
            Lookup(c, q, l) == refused && Run(refused, ops) == refused
    decreases |ops|
  {
    if ops != [] {
      RefusedLookupStaysPending(c, q, l, ops[1..]);
    }
  }

  const FIRST := Query("res://a.zig", "file:///a.zig", "", 0, 0)

  /** The shortest such run: the first launch fails, the same question is refused during the
      backoff, and after the backoff it changes nothing, although starting would launch a
      second process and so would any other question. */
  lemma RefusedQueryRun(other: Query)
    requires other.path != "" && !SameQuery(other, FIRST)
    ensures var c := Run(IDLE, [CompleteOp(FIRST, Launch(false, true, false)), CompleteOp(FIRST, Launch(false, false, true))]);
            var later := Launch(false, true, true);
            && c.state == Failed && c.past.launches == 1 && c.completion.waiting
            && Complete(c, FIRST, later) == c
            && Start(c, later).past.launches == 2
            && Complete(c, other, later).past.launches == 2
  {
    var a, b := CompleteOp(FIRST, Launch(false, true, false)), CompleteOp(FIRST, Launch(false, false, true));
    RunLast(IDLE, [a], b);
    RunLast(IDLE, [], a);
    assert [] + [a] == [a] && [a] + [b] == [a, b];
    var c := IDLE.(state := Failed, past := Past(1, 0, []));
    FirstLaunchFails();
    assert Do(c, b) == c.(completion := NOTHING.Want(FIRST));
    assert Run(IDLE, [a, b]) == c.(completion := NOTHING.Want(FIRST));
    hide Run, Do;
    var later := Launch(false, true, true);
    var waiting := c.(completion := NOTHING.Want(FIRST));
    StartLaunchesIff(waiting, later);
    StartLaunchesIff(waiting.(completion := waiting.completion.Want(other)), later);
  }

  lemma FirstLaunchFails()
    ensures Do(IDLE, CompleteOp(FIRST, Launch(false, true, false)))
         == IDLE.(state := Failed, past := Past(1, 0, []), completion := NOTHING.Want(FIRST).Forget())
  {
  }

  /******* The client object *******/

  class LspClient {
    var state: ServerState
    var shut: bool
    var alive: bool
    var restarts: nat
    var nextId: nat
    var requests: map<nat, Request>
    var documents: map<string, Document>
    var completion: Slot
    var completionInFlight: bool
    var definition: Slot
    var wires: seq<seq<Message>>
    var past: Past

    function Contents(): Client
      reads this
    {
      Client(state, shut, alive, restarts, nextId, requests, documents, completion, completionInFlight, definition,
             wires, past)
    }

    constructor ()
      ensures Contents() == IDLE && Inv(Contents())
    {
      state, shut, alive, restarts, nextId := Stopped, false, false, 0, 1;
      requests, documents := map[], map[];
      completion, completionInFlight, definition := NOTHING, false, NOTHING;
      wires, past := [], Past(0, 0, []);
    }

    method Write(m: Message)
      modifies this`wires
      ensures Contents() == Send(old(Contents()), m)
    {
      if !alive || wires == [] {
        return;
      }
      wires := wires[|wires| - 1 := wires[|wires| - 1] + [m]];
    }

    method ClearWork()
      modifies this`completion, this`completionInFlight, this`definition, this`requests, this`documents
      ensures Contents() == Cleared(old(Contents()))
    {
      completion := completion.Forget();
      completionInFlight := false;
      definition := definition.Forget();
      requests := map[];
      documents := map[];
    }

    method FailNow()
      modifies this
      ensures Contents() == Fail(old(Contents()))
    {
      state := Failed;
      ClearWork();
      alive := false;
    }

    method SpawnServer(spawned: bool)
      modifies this
      ensures Contents() == Spawn(old(Contents()), spawned)
    {
      hide Send, Fail;
      past := past.(launches := past.launches + 1);
      if !spawned {
        FailNow();
        return;
      }
      alive := true;
      wires := wires + [[]];
      state := Initializing;
      var id := nextId;
      nextId := nextId + 1;
      ghost var before := Contents();
      requests := requests[id := Request(InitializeKind, NO_QUERY)];
      assert Contents() == before.(requests := requests, documents := documents);
      SendIgnoresMaps(before, requests, documents, Initialize(id));
      Write(Initialize(id));
    }

    method StartServer(l: Launch) returns (started: bool)
      modifies this
      ensures Contents() == Start(old(Contents()), l)
      ensures shut == old(shut)
      ensures started <==> !shut && !l.quitting && (state == Ready || state == Initializing)
    {
      hide Spawn;
      if shut || l.quitting {
        return false;
      }
      if state == Ready || state == Initializing {
        return true;
      }
      if state == Failed {
        if restarts >= 1 || !l.backoffOver {
          return false;
        }
        restarts := restarts + 1;
        state := Stopped;
      }
      SpawnKeepsShut(Contents(), l.spawned);
      SpawnServer(l.spawned);
      return l.spawned;
    }

    method SynchronizeDocument(q: Query)
      modifies this`documents, this`wires
      ensures Contents() == Synchronize(old(Contents()), q)
    {
      hide Send;
      var inserted := q.uri !in documents;
      if !inserted && documents[q.uri].source == q.source {
        return;
      }
      var version := if inserted then 1 else documents[q.uri].version + 1;
      documents := documents[q.uri := Document(q.source, version)];
      var m := if inserted then DidOpen(q.uri, version, q.source) else DidChange(q.uri, version, q.source);
      assert Contents() == old(Contents()).(requests := requests, documents := documents);
      SendIgnoresMaps(old(Contents()), requests, documents, m);
      Write(m);
    }

    method AskServer(kind: Kind, q: Query)
      requires kind != InitializeKind
      modifies this`requests, this`nextId, this`wires
      ensures Contents() == Ask(old(Contents()), kind, q)
    {
      hide Send;
      var id := nextId;
      nextId := nextId + 1;
      ghost var before := Contents();
      requests := requests[id := Request(kind, q)];
      assert Contents() == before.(requests := requests, documents := documents);
      SendIgnoresMaps(before, requests, documents, Question(id, kind, q));
      Write(Question(id, kind, q));
    }

    method AskCompletion(q: Query)
      modifies this
      ensures Contents() == SendCompletion(old(Contents()), q)
    {
      hide Synchronize, Ask;
      SynchronizeDocument(q);
      AskServer(CompletionKind, q);
      completionInFlight := true;
    }

    method AskDefinition(q: Query)
      modifies this
      ensures Contents() == SendDefinition(old(Contents()), q)
    {
      hide Synchronize, Ask;
      SynchronizeDocument(q);
      AskServer(DefinitionKind, q);
    }

    method GiveUp(id: nat)
      requires id in requests
      modifies this`requests, this`completionInFlight, this`completion, this`definition
      ensures Contents() == Abandon(old(Contents()), old(requests)[id]).(requests := old(requests) - {id})
    {
      var request := requests[id];
      if request.kind == CompletionKind {
        completionInFlight := false;
        if SameQuery(request.query, completion.query) {
          completion := completion.Forget();
        }
      }
      if request.kind == DefinitionKind && SameQuery(request.query, definition.query) {
        definition := definition.Forget();
      }
      requests := requests - {id};
    }

    method HandleResponse(m: Incoming)
      requires m.Answered?
      modifies this
      ensures Contents() == Answer(old(Contents()), m)
    {
      hide Send, SendDefinition;
      if m.id !in requests {
        return;
      }
      var request := requests[m.id];
      if m.error {
        GiveUp(m.id);
        return;
      }
      past := past.(receipts := past.receipts + [Receipt(Serving(Contents()), m.id, m.result)]);
      requests := requests - {m.id};
      SettleRequest(request, m);
    }

    method SettleRequest(request: Request, m: Incoming)
      requires m.Answered?
      modifies this
      ensures Contents() == Settle(old(Contents()), request, m)
    {
      hide Send, SendDefinition, Fail;
      match request.kind
      case InitializeKind =>
        if !Compatible(m.version) {
          FailNow();
          return;
        }
        Write(Initialized);
        state := Ready;
        restarts := 0;
        past := past.(readies := past.readies + 1);
        if definition.waiting {
          AskDefinition(definition.query);
        }
      case CompletionKind =>
        completionInFlight := false;
        if completion.WaitsFor(request.query) {
          completion := completion.Fill(Cached(request.query, m.result));
        }
      case DefinitionKind =>
        if definition.WaitsFor(request.query) {
          definition := definition.Fill(Cached(request.query, m.result));
        }
    }

    method ParseMessages(messages: seq<Incoming>)
      modifies this
      ensures Contents() == HandleAll(old(Contents()), messages)
    {
      hide Answer, Send;
      var k := 0;
      while k < |messages| && state != Failed
        invariant k <= |messages|
        invariant HandleAll(Contents(), messages[k..]) == HandleAll(old(Contents()), messages)
        decreases |messages| - k
      {
        assert messages[k..][1..] == messages[k + 1..];
        if messages[k].Asked? {
          Write(Reply(messages[k].id));
        } else {
          HandleResponse(messages[k]);
        }
        k := k + 1;
      }
    }

    method ExpireRequests(order: seq<nat>, expired: set<nat>)
      modifies this`requests, this`completionInFlight, this`completion, this`definition
      ensures Contents() == ExpireAll(old(Contents()), order, expired)
    {
      hide Abandon;
      for k := 0 to |order|
        invariant Contents() == ExpireAll(old(Contents()), order[..k], expired)
      {
        assert order[..k + 1][..k] == order[..k];
        var id := order[k];
        if id in requests && requests[id].kind != InitializeKind && id in expired {
          GiveUp(id);
        }
      }
      assert order[..|order|] == order;
    }

    method PumpServer(t: Turn)
      requires Inv(Contents())
      modifies this
      ensures Inv(Contents())
      ensures Contents() == Pump(old(Contents()), t)
    {
      hide Inv, HandleAll, ExpireAll, SendCompletion;
      StepKeepsInv(Contents(), PumpOp(t));
      if shut || (state != Initializing && state != Ready) {
        return;
      }
      ParseMessages(t.messages);
      if state == Failed || t.broken || !t.running || (state == Initializing && t.initializeTimedOut) {
        FailNow();
        return;
      }
      ExpireRequests(t.order, t.expired);
      if state == Ready && completion.waiting && !completionInFlight && t.due {
        AskCompletion(completion.query);
      }
    }

    /** The cached options for exactly this query, or nothing yet. */
    method CompleteCode(q: Query, l: Launch) returns (options: Option<string>)
      requires Inv(Contents())
      modifies this
      ensures Inv(Contents())
      ensures Contents() == Complete(old(Contents()), q, l)
      ensures options.Some? <==> q.path != "" && old(completion).Answers(q)
      ensures options.Some? ==> options.value == completion.cached.value.result
    {
      hide Inv, Start;
      StepKeepsInv(Contents(), CompleteOp(q, l));
      if q.path == "" {
        return None;
      }
      if completion.Answers(q) {
        return Some(completion.cached.value.result);
      }
      if completion.WaitsFor(q) {
        return None;
      }
      completion := completion.Want(q);
      var started := StartServer(l);
      return None;
    }

    method LookupCode(q: Query, l: Launch) returns (place: Option<string>)
      requires Inv(Contents())
      modifies this
      ensures Inv(Contents())
      ensures Contents() == Lookup(old(Contents()), q, l)
      ensures place.Some? <==> q.path != "" && old(definition).Answers(q)
      ensures place.Some? ==> place.value == definition.cached.value.result
    {
      hide Inv, Start, SendDefinition;
      StepKeepsInv(Contents(), LookupOp(q, l));
      if q.path == "" {
        return None;
      }
      if definition.Answers(q) {
        return Some(definition.cached.value.result);
      }
      if definition.WaitsFor(q) {
        return None;
      }
      definition := definition.Want(q);
      var started := StartServer(l);
      if started && state == Ready {
        AskDefinition(q);
      }
      return None;
    }

    method ShutdownServer(running: bool)
      requires Inv(Contents())
      modifies this
      ensures Inv(Contents())
      ensures Contents() == Shutdown(old(Contents()), running)
    {
      hide Inv;
      StepKeepsInv(Contents(), ShutdownOp(running));
      if shut {
        return;
      }
      shut := true;
      ClearWork();
      state := Stopped;
      if running {
        Write(Exit);
      }
      alive := false;
    }
  }

  lemma SendIgnoresMaps(c: Client, requests: map<nat, Request>, documents: map<string, Document>, m: Message)
    ensures Send(c.(requests := requests, documents := documents), m)
         == Send(c, m).(requests := requests, documents := documents)
    ensures Send(c, m) == c.(wires := Send(c, m).wires)
  {
  }

  lemma SpawnKeepsShut(c: Client, spawned: bool)
    ensures Spawn(c, spawned).shut == c.shut && Spawn(c, spawned).state == if spawned then Initializing else Failed
  {
  }
}
