/** The cache of one method bind: any number of threads ask for it, one of them resolves
    it. Each step below is one atomic access of `state` or one access of `value`. */
module MethodCache {
  import opened Wrappers

  // What resolving gives: a bind, or none when the engine has no such method.
  type Bind = Option<nat>

  datatype Thread =
    | Outside
    | Checked                 // has seen a state other than 2
    | Resolving               // has won the exchange
    | Stored                  // has written the value
    | Spinning                // has lost the exchange
    | Reading                 // has seen state 2
    | Returned(result: Bind)

  // `resolved` has every answer the engine gave and `writers` every thread that wrote.
  datatype Cache = Cache(state: nat, value: Bind, threads: seq<Thread>, resolved: seq<Bind>, writers: seq<nat>)

  function Fresh(n: nat): Cache {
    Cache(0, None, seq(n, _ => Outside), [], [])
  }

  datatype Move =
    | Load                    // the first look at the state
    | Exchange                // the compare-exchange from 0 to 1
    | Resolve(answer: Bind)   // ask the engine and write the value
    | Publish                 // store 2
    | Spin                    // look at the state again
    | Read                    // read the value and return it
    | Again                   // call once more

  predicate Enabled(c: Cache, t: nat, m: Move)
    requires t < |c.threads|
  {
    match m
    case Load => c.threads[t].Outside?
    case Exchange => c.threads[t].Checked?
    case Resolve(_) => c.threads[t].Resolving?
    case Publish => c.threads[t].Stored?
    case Spin => c.threads[t].Spinning?
    case Read => c.threads[t].Reading?
    case Again => c.threads[t].Returned?
  }

  function Set(c: Cache, t: nat, thread: Thread): Cache
    requires t < |c.threads|
  {
    c.(threads := c.threads[t := thread])
  }

  function Step(c: Cache, t: nat, m: Move): Cache
    requires t < |c.threads|
  {
    match m
    case Load => Set(c, t, if c.state == 2 then Reading else Checked)
    case Exchange => if c.state == 0 then Set(c, t, Resolving).(state := 1) else Set(c, t, Spinning)
    case Resolve(answer) =>
      Set(c, t, Stored).(value := answer, resolved := c.resolved + [answer], writers := c.writers + [t])
    case Publish => Set(c, t, Reading).(state := 2)
    case Spin => if c.state == 2 then Set(c, t, Reading) else c
    case Read => Set(c, t, Returned(c.value))
    case Again => Set(c, t, Outside)
  }

  // The moves of a run, each by one thread.
  type Trace = seq<(nat, Move)>

  ghost predicate CanRun(c: Cache, trace: Trace)
    decreases |trace|
  {
    trace != [] ==>
      var (t, m) := trace[0];
      t < |c.threads| && Enabled(c, t, m) && CanRun(Step(c, t, m), trace[1..])
  }

  ghost function Run(c: Cache, trace: Trace): Cache
    requires CanRun(c, trace)
    decreases |trace|
  {
    if trace == [] then c else Run(Step(c, trace[0].0, trace[0].1), trace[1..])
  }

  predicate Busy(thread: Thread) {
    thread.Resolving? || thread.Stored?
  }

  predicate Done(thread: Thread) {
    thread.Reading? || thread.Returned?
  }

  // The thread that won the exchange is alone between it and publishing.
  ghost predicate Inv(c: Cache) {
    && c.state <= 2
    && (c.state == 1 <==> exists t: nat :: t < |c.threads| && Busy(c.threads[t]))
    && (forall t: nat, u: nat | t < |c.threads| && u < |c.threads| && Busy(c.threads[t]) && Busy(c.threads[u]) :: t == u)
    && (forall t: nat | t < |c.threads| && Done(c.threads[t]) :: c.state == 2)
    && (forall t: nat | t < |c.threads| && c.threads[t].Spinning? :: c.state > 0)
    && |c.writers| == |c.resolved| <= 1
    && (c.state == 0 ==> c.resolved == [])
    && (c.state == 2 ==> c.resolved != [])
    && (forall t: nat | t < |c.threads| && c.threads[t].Resolving? :: c.resolved == [])
    && (forall t: nat | t < |c.threads| && c.threads[t].Stored? :: c.writers == [t])
    && (c.resolved != [] ==> c.value == c.resolved[0])
    && (forall t: nat | t < |c.threads| && c.threads[t].Returned? :: c.threads[t].result == c.value)
  }

  lemma StepKeepsInv(c: Cache, t: nat, m: Move)
    requires Inv(c) && t < |c.threads| && Enabled(c, t, m)
    ensures Inv(Step(c, t, m))
  {
    var r := Step(c, t, m);
    assert forall u: nat | u < |c.threads| && u != t :: r.threads[u] == c.threads[u];
    match m
    case Exchange =>
      if c.state == 0 {
        assert Busy(r.threads[t]);
      }
    case Resolve(_) =>
      assert Busy(c.threads[t]) && Busy(r.threads[t]);
    case Publish =>
      assert Busy(c.threads[t]);
    case _ =>
      forall u: nat | u < |c.threads| ensures Busy(r.threads[u]) <==> Busy(c.threads[u]) {
      }
  }

  /** The state only moves from 0 to 1 to 2, one at a time and each by the thread that won
      the exchange; the value is written in state 1 by that thread and read in state 2. */
  lemma StepsAreOrderly(c: Cache, t: nat, m: Move)
    requires Inv(c) && t < |c.threads| && Enabled(c, t, m)
    ensures var r := Step(c, t, m);
            && c.state <= r.state <= c.state + 1
            && (r.value != c.value ==> m.Resolve? && c.state == 1 && Busy(c.threads[t]))
            && (m.Resolve? ==> c.state == 1 && c.resolved == [])
            && (m.Publish? ==> c.state == 1 && c.writers == [t] && r.state == 2)
            && (m.Read? ==> c.state == 2 && c.resolved != [] && r.threads[t] == Returned(c.resolved[0]))
  {
    if m.Resolve? || m.Publish? {
      assert Busy(c.threads[t]);
    } else if m.Read? {
      assert Done(c.threads[t]);
    }
  }

  /** Nobody waits for nothing: a thread that spins in vain waits for another one that is
      busy, and two moves of that one, whatever the engine answers, let it through. */
  lemma SpinnersWaitForTheWinner(c: Cache, t: nat, answer: Bind)
    requires Inv(c) && t < |c.threads| && c.threads[t].Spinning? && Step(c, t, Spin) == c
    ensures exists u: nat | u < |c.threads| && u != t && Busy(c.threads[u]) ::
              && (c.threads[u].Resolving? ==> Step(Step(Step(c, u, Resolve(answer)), u, Publish), t, Spin).threads[t].Reading?)
              && (c.threads[u].Stored? ==> Step(Step(c, u, Publish), t, Spin).threads[t].Reading?)
  {
    assert c.state == 1;
    var u: nat :| u < |c.threads| && Busy(c.threads[u]);
    assert u != t;
  }

  lemma {:induction false} RunKeepsInv(c: Cache, trace: Trace)
    requires Inv(c) && CanRun(c, trace)
    ensures Inv(Run(c, trace))
    ensures Run(c, trace).state >= c.state && c.resolved <= Run(c, trace).resolved
    decreases |trace|
  {
    hide Inv;
    if trace != [] {
      var (t, m) := trace[0];
      StepKeepsInv(c, t, m);
      StepsAreOrderly(c, t, m);
      RunKeepsInv(Step(c, t, m), trace[1..]);
    }
  }

  /** However many threads call and however they interleave, the method is resolved at most
      once, and every call that has returned, returned what resolving gave. */
  lemma ResolvedOnce(n: nat, trace: Trace)
    requires CanRun(Fresh(n), trace)
    ensures var c := Run(Fresh(n), trace);
            && |c.resolved| <= 1
            && (forall t: nat | t < |c.threads| && c.threads[t].Returned? ::
                  c.resolved == [c.threads[t].result])
  {
    assert Inv(Fresh(n));
    RunKeepsInv(Fresh(n), trace);
    var c := Run(Fresh(n), trace);
    forall t: nat | t < |c.threads| && c.threads[t].Returned? ensures c.resolved == [c.threads[t].result] {
      assert Done(c.threads[t]);
    }
  }

  // One thread makes these moves while the others stand still.
  ghost predicate Alone(c: Cache, t: nat, moves: seq<Move>, r: Cache)
    requires t < |c.threads|
    decreases |moves|
  {
    if moves == [] then c == r
    else Enabled(c, t, moves[0]) && Alone(Step(c, t, moves[0]), t, moves[1..], r)
  }

  lemma TwoMoves(c: Cache, t: nat, a: Move, b: Move)
    requires t < |c.threads| && Enabled(c, t, a) && Enabled(Step(c, t, a), t, b)
    ensures Alone(c, t, [a, b], Step(Step(c, t, a), t, b))
  {
    assert [a, b][1..] == [b] && [b][1..] == [];
    assert Alone(Step(c, t, a), t, [b], Step(Step(c, t, a), t, b));
  }

  /** A call that meets nobody else: the first one asks the engine, stores what it gets and
      returns it; any later one only looks at the state and returns the stored value. */
  lemma CallAlone(c: Cache, t: nat, answer: Bind)
    requires Inv(c) && t < |c.threads| && c.threads[t].Outside? && c.state != 1
    ensures if c.state == 0
            then Alone(c, t, [Load, Exchange, Resolve(answer), Publish, Read],
                       Cache(2, answer, c.threads[t := Returned(answer)], [answer], [t]))
            else Alone(c, t, [Load, Read], c.(threads := c.threads[t := Returned(c.value)]))
  {
    var l := Step(c, t, Load);
    if c.state == 0 {
      assert c.resolved == [] && c.writers == [];
      var e := Step(l, t, Exchange);
      var s := Step(e, t, Resolve(answer));
      var p := Step(s, t, Publish);
      assert [] + [answer] == [answer] && [] + [t] == [t];
      assert Step(p, t, Read) == Cache(2, answer, c.threads[t := Returned(answer)], [answer], [t]);
      TwoMoves(s, t, Publish, Read);
      assert [Resolve(answer), Publish, Read][1..] == [Publish, Read];
      assert [Exchange, Resolve(answer), Publish, Read][1..] == [Resolve(answer), Publish, Read];
      assert [Load, Exchange, Resolve(answer), Publish, Read][1..] == [Exchange, Resolve(answer), Publish, Read];
      assert Alone(e, t, [Resolve(answer), Publish, Read], Step(p, t, Read));
      assert Alone(l, t, [Exchange, Resolve(answer), Publish, Read], Step(p, t, Read));
    } else {
      TwoMoves(c, t, Load, Read);
      assert Step(l, t, Read) == c.(threads := c.threads[t := Returned(c.value)]);
    }
  }

  /** Whoever comes while another thread resolves loses the exchange and spins. */
  lemma LatecomerSpins(c: Cache, t: nat)
    requires Inv(c) && t < |c.threads| && c.threads[t].Outside? && c.state == 1
    ensures Alone(c, t, [Load, Exchange], c.(threads := c.threads[t := Spinning]))
  {
    TwoMoves(c, t, Load, Exchange);
    assert Step(Step(c, t, Load), t, Exchange) == c.(threads := c.threads[t := Spinning]);
  }

  /** A spinning thread spins on while another resolves, and returns what that one stored as
      soon as it has published; a thread that has returned may call again. */
  lemma SpinnerReturns(c: Cache, t: nat)
    requires Inv(c) && t < |c.threads|
    ensures c.threads[t].Spinning? && c.state == 1 ==> Alone(c, t, [Spin], c)
    ensures c.threads[t].Spinning? && c.state == 2 ==>
              Alone(c, t, [Spin, Read], c.(threads := c.threads[t := Returned(c.value)]))
    ensures c.threads[t].Returned? ==> Alone(c, t, [Again], c.(threads := c.threads[t := Outside]))
  {
    assert [Spin][1..] == [] && [Again][1..] == [];
    if c.threads[t].Spinning? && c.state == 2 {
      TwoMoves(c, t, Spin, Read);
      assert Step(Step(c, t, Spin), t, Read) == c.(threads := c.threads[t := Returned(c.value)]);
    }
  }
}
