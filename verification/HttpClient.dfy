// The retrying fetches of web/src/httpClient.ts, any number at once, against one coordinator. Each
// operation has a signal of its own, so operations are named by their signals. A step is a stretch
// of code between two awaits.
module HttpClient {
  import opened Options
  import opened Connection

  // What one call of `fetchJsonWithRetry` is doing, with its local `unregister`.
  datatype Phase =
    | Fetching(unregister: Option<Token>)
    | Waiting(promise: nat, unregister: Option<Token>)
    | Closing(unregister: Option<Token>)  // on its way to the finally block
    | Ended

  datatype Client = Client(conn: State, ops: map<Signal, Phase>, failed: set<Signal>)

  datatype Event =
    | Start(op: Signal)
    | TransientFailure(op: Signal, random: real)
    | Succeed(op: Signal)
    | Fail(op: Signal)          // a permanent, abort or unrecognised error
    | Resume(op: Signal)        // the awaited retry promise has settled
    | Finally(op: Signal)
    | CallerAbort(op: Signal)
    | Outside(action: Op)    // the timer, the clock, and calls made by observedFetch

  function NewClient(delays: Delays, clock: real): Client {
    Client(Initial(delays, clock), map[], {})
  }

  predicate FetchingOp(c: Client, op: Signal) {
    op in c.ops && c.ops[op].Fetching?
  }

  // `handleRetryOrRethrow` on a TransientError.
  function AfterTransient(c: Client, op: Signal, random: real): Client
    requires FetchingOp(c, op)
  {
    var c1 := c.(failed := c.failed + {op});
    var u := c.ops[op].unregister;
    if op in c.conn.aborted then c1.(ops := c.ops[op := Closing(u)])
    else
      var conn := Step(c.conn, WaitForRetry(op, random));
      if op in conn.waiters then c1.(conn := conn, ops := c.ops[op := Waiting(conn.waiters[op], u)]) else c
  }

  function AfterSettlement(c: Client, op: Signal): Client
    requires op in c.ops && c.ops[op].Waiting?
  {
    var Waiting(promise, u) := c.ops[op];
    if promise !in c.conn.promises || c.conn.promises[promise].settlements == [] then c
    else
      match c.conn.promises[promise].settlements[0].outcome
      case Resolved(cleanup) => c.(ops := c.ops[op := Fetching(Some(cleanup))])
      case Rejected => c.(ops := c.ops[op := Closing(u)])
  }

  function AfterFinally(c: Client, op: Signal): Client
    requires op in c.ops && c.ops[op].Closing?
  {
    var c1 := c.(ops := c.ops[op := Ended]);
    match c.ops[op].unregister
    case None => c1
    case Some(token) => c1.(conn := Step(c.conn, Unregister(op, token)))
  }

  // An event that cannot happen in the current state leaves it alone.
  function Next(c: Client, event: Event): Client {
    match event
    // A caller signal aborted beforehand throws before the first attempt.
    case Start(op) =>
      if op in c.ops || op in c.conn.aborted then c else c.(ops := c.ops[op := Fetching(None)])
    case TransientFailure(op, random) =>
      if FetchingOp(c, op) && 0.0 <= random < 1.0 then AfterTransient(c, op, random) else c
    case Succeed(op) =>
      if FetchingOp(c, op)
      then c.(conn := Step(c.conn, NoteSuccess), ops := c.ops[op := Closing(c.ops[op].unregister)])
      else c
    case Fail(op) =>
      if FetchingOp(c, op) then c.(ops := c.ops[op := Closing(c.ops[op].unregister)]) else c
    case Resume(op) =>
      if op in c.ops && c.ops[op].Waiting? then AfterSettlement(c, op) else c
    case Finally(op) =>
      if op in c.ops && c.ops[op].Closing? then AfterFinally(c, op) else c
    // The listener on the caller's signal is removed by the finally block.
    case CallerAbort(op) =>
      if op in c.ops && !c.ops[op].Ended? then c.(conn := Step(c.conn, Abort(op))) else c
    case Outside(action) =>
      if action.FireRound? || action.Tick? || action.NoteSuccess? || action.NoteTransientTrouble?
      then c.(conn := Step(c.conn, action))
      else c
  }

  function RunClient(c: Client, events: seq<Event>): Client
    decreases |events|
  {
    if events == [] then c else RunClient(Next(c, events[0]), events[1..])
  }

  ghost predicate Retrying(c: Client, op: Signal) {
    op in c.failed && op in c.ops && !c.ops[op].Ended? && op !in c.conn.aborted
  }

  // The operation's local variables agree with what the coordinator holds for it.
  ghost predicate PhaseOk(c: Client, op: Signal)
    requires op in c.ops
  {
    match c.ops[op]
    case Fetching(u) => op in c.conn.registered ==> u == Some(c.conn.registered[op])
    case Closing(u) => op in c.conn.registered ==> u == Some(c.conn.registered[op])
    case Ended => true
    case Waiting(promise, _) =>
      && promise in c.conn.promises
      && op in c.failed
      && c.conn.promises[promise].signal == op
      && (op in c.conn.registered ==> c.conn.promises[promise].cleanup == c.conn.registered[op])
      && (op !in c.conn.aborted ==>
            c.conn.promises[promise].settlements == [] || c.conn.promises[promise].settlements[0].outcome.Resolved?)
  }

  ghost predicate OpOk(c: Client, op: Signal) {
    && (op in c.conn.registered <==> Retrying(c, op))
    && (op in c.ops ==> PhaseOk(c, op))
    && (op in c.conn.waiters ==> op in c.ops && c.ops[op].Waiting? && c.ops[op].promise == c.conn.waiters[op])
    && (op in c.failed ==> op in c.ops)
  }

  ghost predicate Linked(c: Client) {
    forall op :: OpOk(c, op)
  }

  ghost predicate ClientInv(c: Client) {
    Inv(c.conn) && Linked(c)
  }

  // Nothing that belongs to another signal than `op` differs between s and t.
  ghost predicate OnlyTouches(s: State, t: State, op: Signal) {
    && (forall other :: other != op ==> (other in s.registered <==> other in t.registered))
    && (forall other :: other != op && other in s.registered ==> t.registered[other] == s.registered[other])
    && (forall other :: other != op ==> (other in s.waiters <==> other in t.waiters))
    && (forall other :: other != op && other in s.waiters ==> t.waiters[other] == s.waiters[other])
    && (forall other :: other != op ==> (other in s.aborted <==> other in t.aborted))
    && (forall id :: id in s.promises ==>
          id in t.promises && (s.promises[id].signal != op ==> t.promises[id] == s.promises[id]))
  }

  lemma JoinShape(s: State, op: Signal, delay: real) returns (id: nat, w: Waiter)
    ensures var t := Join(s, op, delay);
      && id >= s.nextId && w.signal == op && w.settlements == [] && w.cleanup == t.registered[op]
      && t.waiters == s.waiters[op := id] && t.promises == s.promises[id := w] && t.aborted == s.aborted
      && t.registered == if op in s.registered then s.registered else s.registered[op := s.nextId]
  {
    var t := Join(s, op, delay);
    id := t.waiters[op];
    w := t.promises[id];
  }

  lemma ShapeTouches(s: State, t: State, op: Signal, id: nat, w: Waiter)
    requires op !in s.waiters && id !in s.promises
    requires t.waiters == s.waiters[op := id] && t.promises == s.promises[id := w] && t.aborted == s.aborted
    requires t.registered == if op in s.registered then s.registered else s.registered[op := s.nextId]
    ensures OnlyTouches(s, t, op)
  {}

  lemma WaitEffect(s: State, op: Signal, random: real)
    requires Inv(s) && op !in s.aborted && op !in s.waiters && 0.0 <= random < 1.0
    ensures var t := Step(s, WaitForRetry(op, random));
      && OnlyTouches(s, t, op) && t.aborted == s.aborted
      && op in t.registered && (op in s.registered ==> t.registered[op] == s.registered[op])
      && op in t.waiters && t.waiters[op] in t.promises
      && t.promises[t.waiters[op]].signal == op
      && t.promises[t.waiters[op]].settlements == []
      && t.promises[t.waiters[op]].cleanup == t.registered[op]
  {
    var id, w := JoinShape(s, op, NextDelay(s, random));
    ShapeTouches(s, Step(s, WaitForRetry(op, random)), op, id, w);
  }

  lemma RejectionEffect(s: State, op: Signal, token: Token)
    requires WaitersOk(s) && Owns(s, op, token)
    ensures var t := Release(s, op, token);
      && OnlyTouches(s, t, op) && t.aborted == s.aborted
      && op !in t.registered && op !in t.waiters
      && (forall id :: id in s.promises ==>
            t.promises[id] == s.promises[id] || |t.promises[id].settlements| == |s.promises[id].settlements| + 1)
  {
    ReleaseEffect(s, op, token);
  }

  lemma UnregisterEffect(s: State, op: Signal, token: Token)
    requires Inv(s) && (op in s.registered ==> s.registered[op] == token)
    ensures var t := Step(s, Unregister(op, token));
      OnlyTouches(s, t, op) && t.aborted == s.aborted && op !in t.registered && op !in t.waiters
  {
    if Owns(s, op, token) {
      RejectionEffect(s, op, token);
    } else {
      assert op !in s.waiters;
    }
  }

  lemma AbortEffect(s: State, op: Signal)
    requires Inv(s)
    ensures var t := Step(s, Abort(op));
      OnlyTouches(s, t, op) && t.aborted == s.aborted + {op} && op !in t.registered && op !in t.waiters
  {
    if op in s.aborted {
      assert s.aborted == s.aborted + {op};
    } else {
      AbortRunsOneCleanup(s, op);
      MarkAborted(s, op);
      if op in s.registered { AbortedReadEffect(s, op); }
    }
  }

  lemma AbortedReadEffect(s: State, op: Signal)
    requires op in s.registered && op !in s.aborted && WaitersOk(s.(aborted := s.aborted + {op}))
    ensures var t := Publish(Release(s.(aborted := s.aborted + {op}), op, s.registered[op]));
      OnlyTouches(s, t, op) && t.aborted == s.aborted + {op} && op !in t.registered && op !in t.waiters
  {
    RejectionEffect(s.(aborted := s.aborted + {op}), op, s.registered[op]);
  }

  // Operation `other` is untouched by whatever happened to `op`.
  lemma OthersKeep(c: Client, d: Client, op: Signal, other: Signal)
    requires OnlyTouches(c.conn, d.conn, op) && other != op
    requires other in c.ops <==> other in d.ops
    requires other in c.ops ==> c.ops[other] == d.ops[other]
    requires other in c.failed <==> other in d.failed
    requires OpOk(c, other)
    ensures OpOk(d, other)
  {}

  // One operation moved and is in order again; the rest is untouched.
  lemma Reassemble(c: Client, d: Client, op: Signal)
    requires Linked(c) && OnlyTouches(c.conn, d.conn, op)
    requires op in d.ops && d.ops == c.ops[op := d.ops[op]]
    requires d.failed == c.failed || d.failed == c.failed + {op}
    requires OpOk(d, op)
    ensures Linked(d)
  {
    forall other | other != op
      ensures OpOk(d, other)
    {
      assert OpOk(c, other);
      OthersKeep(c, d, op, other);
    }
  }

  lemma MoveKeepsLinked(c: Client, op: Signal, phase: Phase)
    requires Linked(c) && (op !in c.ops ==> phase == Fetching(None))
    requires op in c.ops ==> c.ops[op].Fetching? && phase == Closing(c.ops[op].unregister)
    ensures Linked(c.(ops := c.ops[op := phase]))
  {
    var d := c.(ops := c.ops[op := phase]);
    assert OpOk(c, op);
    Reassemble(c, d, op);
  }

  lemma AbortedTransient(c: Client, op: Signal)
    requires Linked(c) && FetchingOp(c, op) && op in c.conn.aborted
    ensures Linked(c.(failed := c.failed + {op}, ops := c.ops[op := Closing(c.ops[op].unregister)]))
  {
    assert OpOk(c, op);
    Reassemble(c, c.(failed := c.failed + {op}, ops := c.ops[op := Closing(c.ops[op].unregister)]), op);
  }

  lemma WaitingAfterTransient(c: Client, op: Signal, t: State)
    requires Linked(c) && FetchingOp(c, op) && op !in c.conn.aborted
    requires OnlyTouches(c.conn, t, op) && t.aborted == c.conn.aborted
    requires op in t.registered && op in t.waiters && t.waiters[op] in t.promises
    requires var w := t.promises[t.waiters[op]];
      w.signal == op && w.settlements == [] && w.cleanup == t.registered[op]
    ensures Linked(c.(conn := t, failed := c.failed + {op}, ops := c.ops[op := Waiting(t.waiters[op],
        c.ops[op].unregister)]))
  {
    assert OpOk(c, op);
    Reassemble(c, c.(conn := t, failed := c.failed + {op}, ops := c.ops[op := Waiting(t.waiters[op],
        c.ops[op].unregister)]), op);
  }

  lemma TransientKeepsInv(c: Client, op: Signal, random: real)
    requires ClientInv(c) && FetchingOp(c, op) && 0.0 <= random < 1.0
    ensures ClientInv(AfterTransient(c, op, random))
  {
    if op in c.conn.aborted {
      AbortedTransient(c, op);
    } else {
      assert OpOk(c, op);
      WaitEffect(c.conn, op, random);
      StepKeepsInv(c.conn, WaitForRetry(op, random));
      WaitingAfterTransient(c, op, Step(c.conn, WaitForRetry(op, random)));
    }
  }

  lemma SettlementKeepsInv(c: Client, op: Signal)
    requires ClientInv(c) && op in c.ops && c.ops[op].Waiting?
    ensures ClientInv(AfterSettlement(c, op))
  {
    var promise := c.ops[op].promise;
    assert OpOk(c, op);
    if c.conn.promises[promise].settlements != [] {
      assert !Pending(c.conn, promise);
      Reassemble(c, AfterSettlement(c, op), op);
    }
  }

  lemma EndedAfterFinally(c: Client, op: Signal, t: State)
    requires Linked(c) && op in c.ops && c.ops[op].Closing?
    requires OnlyTouches(c.conn, t, op) && op !in t.registered && op !in t.waiters
    ensures Linked(c.(conn := t, ops := c.ops[op := Ended]))
  {
    assert OpOk(c, op);
    Reassemble(c, c.(conn := t, ops := c.ops[op := Ended]), op);
  }

  lemma FinallyKeepsInv(c: Client, op: Signal)
    requires ClientInv(c) && op in c.ops && c.ops[op].Closing?
    ensures ClientInv(AfterFinally(c, op))
  {
    assert OpOk(c, op);
    match c.ops[op].unregister {
      case None =>
        EndedAfterFinally(c, op, c.conn);
      case Some(token) =>
        UnregisterEffect(c.conn, op, token);
        StepKeepsInv(c.conn, Unregister(op, token));
        EndedAfterFinally(c, op, Step(c.conn, Unregister(op, token)));
    }
  }

  lemma LinkedAfterAbort(c: Client, op: Signal, t: State)
    requires Linked(c) && op in c.ops && !c.ops[op].Ended?
    requires OnlyTouches(c.conn, t, op) && t.aborted == c.conn.aborted + {op}
    requires op !in t.registered && op !in t.waiters
    requires forall id :: id in c.conn.promises ==>
               id in t.promises && t.promises[id].signal == c.conn.promises[id].signal
    ensures Linked(c.(conn := t))
  {
    assert OpOk(c, op);
    assert c.ops == c.ops[op := c.ops[op]];
    Reassemble(c, c.(conn := t), op);
  }

  lemma CallerAbortKeepsInv(c: Client, op: Signal)
    requires ClientInv(c) && op in c.ops && !c.ops[op].Ended?
    ensures ClientInv(c.(conn := Step(c.conn, Abort(op))))
  {
    AbortEffect(c.conn, op);
    StepKeepsInv(c.conn, Abort(op));
    forall id | id in c.conn.promises
      ensures PromiseKept(c.conn, Step(c.conn, Abort(op)), id)
    {
      StepKeepsPromises(c.conn, Abort(op), id);
    }
    LinkedAfterAbort(c, op, Step(c.conn, Abort(op)));
  }

  lemma RoundKeepsLinked(c: Client)
    requires ClientInv(c) && c.conn.timer == Some(c.conn.clock)
    ensures ClientInv(c.(conn := Step(c.conn, FireRound)))
  {
    StepKeepsInv(c.conn, FireRound);
    var d := c.(conn := Step(c.conn, FireRound));
    forall op
      ensures OpOk(d, op)
    {
      assert OpOk(c, op);
    }
  }

  lemma OutsideKeepsInv(c: Client, action: Op)
    requires ClientInv(c) && (action.Tick? || action.NoteSuccess? || action.NoteTransientTrouble?)
    ensures ClientInv(c.(conn := Step(c.conn, action)))
  {
    StepKeepsInv(c.conn, action);
    var d := c.(conn := Step(c.conn, action));
    forall op
      ensures OpOk(d, op)
    {
      assert OpOk(c, op);
    }
  }

  lemma NextKeepsInv(c: Client, event: Event)
    requires ClientInv(c)
    ensures ClientInv(Next(c, event))
  {
    match event {
      case Start(op) => if op !in c.ops && op !in c.conn.aborted { MoveKeepsLinked(c, op, Fetching(None)); }
      case TransientFailure(op, random) =>
        if FetchingOp(c, op) && 0.0 <= random < 1.0 { TransientKeepsInv(c, op, random); }
      case Succeed(op) =>
        if FetchingOp(c, op) {
          OutsideKeepsInv(c, NoteSuccess);
          MoveKeepsLinked(c.(conn := Step(c.conn, NoteSuccess)), op, Closing(c.ops[op].unregister));
        }
      case Fail(op) => if FetchingOp(c, op) { MoveKeepsLinked(c, op, Closing(c.ops[op].unregister)); }
      case Resume(op) => if op in c.ops && c.ops[op].Waiting? { SettlementKeepsInv(c, op); }
      case Finally(op) => if op in c.ops && c.ops[op].Closing? { FinallyKeepsInv(c, op); }
      case CallerAbort(op) => if op in c.ops && !c.ops[op].Ended? { CallerAbortKeepsInv(c, op); }
      case Outside(action) =>
        if action.FireRound? {
          if c.conn.timer == Some(c.conn.clock) { RoundKeepsLinked(c); }
        } else if action.Tick? || action.NoteSuccess? || action.NoteTransientTrouble? {
          OutsideKeepsInv(c, action);
        }
    }
  }

  lemma {:induction false} RunClientKeepsInv(c: Client, events: seq<Event>)
    requires ClientInv(c)
    ensures ClientInv(RunClient(c, events))
    decreases |events|
  {
    if events != [] {
      NextKeepsInv(c, events[0]);
      RunClientKeepsInv(Next(c, events[0]), events[1..]);
    }
  }

  // ----- Main results -----

  // The registered reads are exactly the operations that have failed transiently and have neither
  // ended nor been aborted; and every operation that still waits has a round coming.
  lemma RegisteredReadsAreTheRetryingOnes(delays: Delays, clock: real, events: seq<Event>)
    requires delays.Valid()
    ensures var c := RunClient(NewClient(delays, clock), events);
      && ClientInv(c)
      && (forall op :: op in c.conn.registered <==> Retrying(c, op))
      && (forall op :: op in c.ops && c.ops[op].Waiting? ==>
            && c.ops[op].promise in c.conn.promises
            && (c.conn.promises[c.ops[op].promise].settlements == [] ==> c.conn.timer.Some? && op in c.conn.waiters))
  {
    InitialInv(delays, clock);
    RunClientKeepsInv(NewClient(delays, clock), events);
    var c := RunClient(NewClient(delays, clock), events);
    forall op
      ensures op in c.conn.registered <==> Retrying(c, op)
      ensures op in c.ops && c.ops[op].Waiting? ==> c.ops[op].promise in c.conn.promises
      ensures op in c.ops && c.ops[op].Waiting? && c.conn.promises[c.ops[op].promise].settlements == [] ==>
                c.conn.timer.Some? && op in c.conn.waiters
    {
      assert OpOk(c, op);
      if op in c.ops && c.ops[op].Waiting? && c.conn.promises[c.ops[op].promise].settlements == [] {
        assert Pending(c.conn, c.ops[op].promise);
      }
    }
  }

  // When every operation has ended, nothing is left behind.
  lemma NothingLeftBehind(delays: Delays, clock: real, events: seq<Event>)
    requires delays.Valid()
    requires var c := RunClient(NewClient(delays, clock), events); forall op :: op in c.ops ==> c.ops[op].Ended?
    ensures var s := RunClient(NewClient(delays, clock), events).conn;
      && s.registered == map[] && s.waiters == map[]
      && s.timer.None? && s.nextRetryAt.None? && s.attempt == 0
      && s.snapshot == Snapshot(s.lastObservation, 0, None, 0)
      && forall id :: id in s.promises ==> SettledOnce(s, id)
  {
    RegisteredReadsAreTheRetryingOnes(delays, clock, events);
    var s := RunClient(NewClient(delays, clock), events).conn;
    assert forall op :: op !in s.registered;
    assert s.registered == map[];
    assert forall op :: op in s.waiters ==> op in s.registered;
    assert s.waiters == map[];
    assert forall id :: id in s.promises ==> !Pending(s, id);
  }

  // A success is observed at once, whatever else is going on: it shows as soon as no read is
  // registered, and right away if none is.
  lemma SuccessIsObserved(delays: Delays, clock: real, events: seq<Event>, op: Signal)
    requires delays.Valid()
    requires var c := RunClient(NewClient(delays, clock), events); FetchingOp(c, op)
    ensures var c := RunClient(NewClient(delays, clock), events); var d := Next(c, Succeed(op));
      && d.ops == c.ops[op := Closing(c.ops[op].unregister)] && d.failed == c.failed
      && d.conn.lastObservation == Online && d.conn.registered == c.conn.registered
      && d.conn.snapshot.status == if c.conn.registered == map[] then Online else Reconnecting
  {
    RegisteredReadsAreTheRetryingOnes(delays, clock, events);
    SuccessShows(RunClient(NewClient(delays, clock), events).conn);
  }

  // An operation starts unless its signal is aborted. It fails transiently only to wait, and is fetching
  // again once its promise is resolved; it closes, and then ends, on a success, an error that is not
  // retried, or a rejection.
  lemma PhasesFollow(c: Client, op: Signal, random: real)
    requires ClientInv(c) && 0.0 <= random < 1.0
    ensures op !in c.ops ==>
              Next(c, Start(op)) == if op in c.conn.aborted then c else c.(ops := c.ops[op := Fetching(None)])
    ensures op in c.ops ==> PhaseFollows(c, op, random)
  {
    if op in c.ops {
      assert OpOk(c, op);
      if c.ops[op].Fetching? && op !in c.conn.aborted {
        assert op !in c.conn.waiters;
        WaitEffect(c.conn, op, random);
      }
    }
  }

  ghost predicate PhaseFollows(c: Client, op: Signal, random: real)
    requires op in c.ops
  {
    match c.ops[op]
    case Fetching(_) =>
      var failed := Next(c, TransientFailure(op, random));
      && op in failed.ops && (if op in c.conn.aborted then failed.ops[op].Closing? else failed.ops[op].Waiting?)
      && op in Next(c, Fail(op)).ops && Next(c, Fail(op)).ops[op].Closing? && Next(c, Fail(op)).conn == c.conn
    case Waiting(promise, _) =>
      && promise in c.conn.promises
      && var resumed := Next(c, Resume(op));
         && op in resumed.ops && resumed.conn == c.conn
         && (c.conn.promises[promise].settlements == [] ==> resumed == c)
         && (c.conn.promises[promise].settlements != [] ==>
               var settled := c.conn.promises[promise].settlements[0].outcome;
               if settled.Resolved? then resumed.ops[op] == Fetching(Some(settled.cleanup))
               else resumed.ops[op].Closing?)
    case Closing(_) => op in Next(c, Finally(op)).ops && Next(c, Finally(op)).ops[op].Ended?
    case Ended => true
  }
}
