// The coordinator object of web/src/connection.ts: the operations of Connection.dfy performed on
// the closure variables. Every method is proved to leave the state `Connection.Step` gives, and to
// notify the listeners, if it does, when that state is complete.
module CoordinatorObject {
  import opened Options
  import opened Connection

  lemma ResolveOne(promises: map<nat, Waiter>, done: set<nat>, id: nat, at: real)
    requires id !in done
    ensures ResolveAll(promises, done + {id}, at) ==
      if id in promises
      then Settle(ResolveAll(promises, done, at), id, Settlement(Resolved(promises[id].cleanup), at))
      else ResolveAll(promises, done, at)
  {}

  // The log of notifications after an operation: unless the snapshot is as before, the listeners have
  // been called once more, and found the state the operation leaves (the streak history aside).
  function Told(log: seq<State>, before: State, after: State): seq<State> {
    if after.snapshot == before.snapshot then log else log + [after.(streak := before.streak)]
  }

  class Coordinator {
    const delays: Delays
    var registered: map<Signal, Token>
    var waiters: map<Signal, nat>
    var timer: Option<real>
    var attempt: nat
    var nextRetryAt: Option<real>
    var lastObservation: Status
    var snapshot: Snapshot
    // The event target and the injected clock the coordinator works against.
    var abortListeners: map<Signal, seq<Token>>
    var aborted: set<Signal>
    var clock: real
    var nextId: nat
    var promises: map<nat, Waiter>
    ghost var streak: seq<real>
    ghost var notified: seq<State>     // what the listeners found at each notification

    ghost function View(): State
      reads this
    {
      State(delays, registered, waiters, timer, attempt, nextRetryAt, lastObservation, snapshot,
            abortListeners, aborted, clock, nextId, promises, streak)
    }

    constructor (initialDelay: Option<real>, maxDelay: Option<real>, clock: real)
      ensures View() == Initial(DelaysFrom(initialDelay, maxDelay), clock) && notified == []
    {
      delays := DelaysFrom(initialDelay, maxDelay);
      registered, waiters, timer, attempt, nextRetryAt := map[], map[], None, 0, None;
      lastObservation, snapshot := Unknown, Snapshot(Unknown, 0, None, 0);
      abortListeners, aborted, this.clock, nextId, promises, streak := map[], {}, clock, 0, map[], [];
      notified := [];
    }

    // `notify` says whether the listeners are called, which find the state as it is then.
    method PublishSnapshot() returns (notify: bool)
      modifies this`snapshot, this`notified
      ensures View() == Publish(old(View()))
      ensures notify <==> snapshot != old(snapshot)
      ensures notified == if notify then old(notified) + [View()] else old(notified)
    {
      var retryingReads := |registered|;
      var status := if retryingReads > 0 then Reconnecting else lastObservation;
      if snapshot.status == status && snapshot.attempt == attempt
        && snapshot.nextRetryAt == nextRetryAt && snapshot.retryingReads == retryingReads
      {
        return false;
      }
      snapshot := Snapshot(status, attempt, nextRetryAt, retryingReads);
      notified := notified + [View()];
      notify := true;
    }

    method ClearRound()
      modifies this`timer, this`nextRetryAt
      ensures View() == CancelRound(old(View()))
    {
      timer := None;
      nextRetryAt := None;
    }

    method ArmRound(random: real)
      modifies this`timer, this`nextRetryAt, this`attempt
      ensures View() == ScheduleRound(old(View()), NextDelay(old(View()), random))
    {
      if timer.Some? { return; }
      attempt := attempt + 1;
      var delay := BaseDelay(delays, attempt) * (0.5 + random);
      assert delay == NextDelay(old(View()), random);
      nextRetryAt := Some(clock + delay);
      timer := Some(clock + delay);
    }

    method Register(signal: Signal) returns (token: Token)
      modifies this`registered, this`abortListeners, this`nextId
      ensures View() == RegisterRead(old(View()), signal)
      ensures token == old(nextId)
    {
      token := nextId;
      nextId := nextId + 1;
      registered := registered[signal := token];
      abortListeners := abortListeners[signal :=
        (if signal in abortListeners then abortListeners[signal] else []) + [token]];
    }

    method Reject(signal: Signal)
      modifies `promises, `waiters
      ensures View() == RejectWaiter(old(View()), signal)
    {
      if signal in waiters && waiters[signal] in promises {
        promises := Settle(promises, waiters[signal], Settlement(Rejected, clock));
      }
      waiters := waiters - {signal};
    }

    // The closure's writes, past its identity check.
    method DropRead(signal: Signal, token: Token)
      modifies `registered, `abortListeners, `promises, `waiters, `timer, `nextRetryAt, `attempt
      ensures View() == Release(old(View()), signal, token)
    {
      ghost var s := View();
      registered := registered - {signal};
      var kept := if signal in abortListeners then abortListeners[signal] else [];
      abortListeners := abortListeners[signal := Without(kept, token)];
      ghost var s1 := View();
      assert s1 == s.(registered := s.registered - {signal},
                      abortListeners := s.abortListeners[signal := Without(Listeners(s, signal), token)]);
      Reject(signal);
      ghost var s2 := View();
      if waiters == map[] { ClearRound(); }
      assert View() == if s2.waiters == map[] then CancelRound(s2) else s2;
      if registered == map[] { attempt := 0; }
    }

    // One run of an `unregister` closure, without the streak history.
    method Cleanup(signal: Signal, token: Token)
      modifies this
      ensures View() == RunCleanup(old(View()), signal, token)
      ensures notified == Told(old(notified), old(View()), View())
    {
      if signal !in registered || registered[signal] != token { return; }
      ghost var s := View();
      DropRead(signal, token);
      assert View().snapshot == s.snapshot && View().streak == s.streak;
      var _ := PublishSnapshot();
    }

    method Unregister(signal: Signal, token: Token)
      modifies this
      ensures View() == Step(old(View()), Op.Unregister(signal, token))
      ensures notified == Told(old(notified), old(View()), View())
    {
      Cleanup(signal, token);
      streak := Observe(old(View()), View()).streak;
    }

    // The listeners attached when the event was dispatched, in order.
    method RunListeners(signal: Signal, tokens: seq<Token>)
      modifies this
      ensures View() == RunCleanups(old(View()), signal, tokens)
      ensures |tokens| <= 1 ==> notified == Told(old(notified), old(View()), View())
      decreases |tokens|
    {
      if tokens == [] { return; }
      Cleanup(signal, tokens[0]);
      RunListeners(signal, tokens[1..]);
    }

    // The signal's abort event: every listener still attached runs. Of a coordinator's own history
    // there is at most one.
    method Abort(signal: Signal)
      modifies this
      ensures View() == Step(old(View()), Op.Abort(signal))
      ensures Inv(old(View())) ==> notified == Told(old(notified), old(View()), View())
    {
      if signal !in aborted {
        var tokens := if signal in abortListeners then abortListeners[signal] else [];
        assert tokens == Listeners(View(), signal);
        aborted := aborted + {signal};
        RunListeners(signal, tokens);
      }
      streak := Observe(old(View()), View()).streak;
    }

    // The cleanup closure of the read registered for `signal`, registering it first if need be.
    method EnsureRegistered(signal: Signal) returns (token: Token)
      modifies this`registered, this`abortListeners, this`nextId
      ensures View() == Registered(old(View()), signal)
      ensures signal in registered && token == registered[signal]
    {
      if signal in registered {
        token := registered[signal];
      } else {
        token := Register(signal);
      }
    }

    method CreateWaiter(signal: Signal, unregister: Token) returns (promise: nat)
      requires signal in registered && registered[signal] == unregister
      modifies this`waiters, this`promises, this`nextId
      ensures View() == Enlist(old(View()), signal)
      ensures signal in waiters && promise == waiters[signal]
    {
      promise := nextId;
      nextId := nextId + 1;
      promises := promises[promise :=
        Waiter(signal, unregister, if nextRetryAt.Some? then nextRetryAt.value else clock, [])];
      waiters := waiters[signal := promise];
    }

    method AddWaiter(signal: Signal, random: real) returns (promise: nat)
      modifies `registered, `abortListeners, `nextId, `lastObservation, `timer, `nextRetryAt, `attempt, `waiters,
          `promises
      ensures View() == Join(old(View()), signal, NextDelay(old(View()), random))
      ensures signal in waiters && promise == waiters[signal]
    {
      ghost var s := View();
      var unregister := EnsureRegistered(signal);
      lastObservation := Degraded;
      assert NextDelay(View(), random) == NextDelay(s, random);
      ArmRound(random);
      promise := CreateWaiter(signal, unregister);
    }

    method StartWaiting(signal: Signal, random: real) returns (promise: nat)
      modifies this
      ensures View() == Publish(Join(old(View()), signal, NextDelay(old(View()), random)))
      ensures notified == Told(old(notified), old(View()), View())
      ensures signal in waiters && promise == waiters[signal]
    {
      promise := AddWaiter(signal, random);
      var _ := PublishSnapshot();
    }

    // The promise the caller gets: None for one rejected at once.
    method WaitForRetry(signal: Signal, random: real) returns (promise: Option<nat>)
      requires 0.0 <= random < 1.0
      modifies this
      ensures View() == Step(old(View()), Op.WaitForRetry(signal, random))
      ensures notified == Told(old(notified), old(View()), View())
      ensures promise.Some? <==> signal !in old(aborted)
      ensures promise.Some? ==> signal in waiters && promise.value == waiters[signal]
    {
      if signal in aborted {
        promise := None;
      } else if signal in waiters {
        promise := Some(waiters[signal]);
      } else {
        var id := StartWaiting(signal, random);
        promise := Some(id);
      }
      streak := Observe(old(View()), View()).streak;
    }

    method ResolveBatch(batch: set<nat>)
      modifies this`promises
      ensures promises == ResolveAll(old(promises), batch, clock)
    {
      var left := batch;
      while left != {}
        invariant left <= batch
        invariant promises == ResolveAll(old(promises), batch - left, clock)
      {
        var id :| id in left;
        ResolveOne(old(promises), batch - left, id, clock);
        assert batch - (left - {id}) == (batch - left) + {id};
        if id in promises {
          promises := Settle(promises, id, Settlement(Resolved(promises[id].cleanup), clock));
        }
        left := left - {id};
      }
      assert batch - left == batch;
    }

    method SettleRound()
      modifies `timer, `nextRetryAt, `waiters, `promises
      ensures View() == Round(old(View()))
    {
      timer := None;
      nextRetryAt := None;
      var batch := waiters.Values;
      waiters := map[];
      ResolveBatch(batch);
    }

    // The timer callback: settle the whole batch, then notify.
    method FireRound()
      requires timer == Some(clock)
      modifies this
      ensures View() == Step(old(View()), Op.FireRound)
      ensures notified == Told(old(notified), old(View()), View())
    {
      SettleRound();
      var _ := PublishSnapshot();
      streak := Observe(old(View()), View()).streak;
    }

    method NoteSuccess()
      modifies this
      ensures View() == Step(old(View()), Op.NoteSuccess)
      ensures notified == Told(old(notified), old(View()), View())
    {
      lastObservation := Online;
      var _ := PublishSnapshot();
      streak := Observe(old(View()), View()).streak;
    }

    method NoteTransientTrouble()
      modifies this
      ensures View() == Step(old(View()), Op.NoteTransientTrouble)
      ensures notified == Told(old(notified), old(View()), View())
    {
      lastObservation := Degraded;
      var _ := PublishSnapshot();
      streak := Observe(old(View()), View()).streak;
    }

    // The injected clock moves on, never past the armed timer.
    method Tick(to: real)
      requires Enabled(View(), Op.Tick(to))
      modifies `clock, `streak
      ensures View() == Step(old(View()), Op.Tick(to))
    {
      clock := to;
      streak := Observe(old(View()), View()).streak;
    }

    // One operation; one that is not possible is not performed.
    method Execute(op: Op)
      requires Inv(View())
      modifies this
      ensures View() == Step(old(View()), op) && Inv(View())
      ensures notified == Told(old(notified), old(View()), View())
    {
      StepKeepsInv(View(), op);
      match op
      case WaitForRetry(signal, random) =>
        if 0.0 <= random < 1.0 { var _ := WaitForRetry(signal, random); }
      case Unregister(signal, token) => Unregister(signal, token);
      case Abort(signal) => Abort(signal);
      case FireRound => if timer == Some(clock) { FireRound(); }
      case NoteSuccess => NoteSuccess();
      case NoteTransientTrouble => NoteTransientTrouble();
      case Tick(to) => if clock <= to && (timer.None? || to <= timer.value) { Tick(to); }
    }

    // One call with what its listeners do when notified. They are notified in the state the operation
    // leaves, and it has nothing left to do, so their calls may be performed one after the other.
    method PerformCall(call: Call)
      requires Inv(View())
      modifies this
      ensures View() == Perform(old(View()), call) && Inv(View())
      decreases call, |call.reactions| + 2
    {
      var before := snapshot;
      Execute(call.op);
      if snapshot != before {
        React(call, 0);
      }
    }

    method React(call: Call, from: nat)
      requires Inv(View()) && from <= |call.reactions|
      modifies this
      ensures View() == PerformAll(old(View()), call, from) && Inv(View())
      decreases call, |call.reactions| - from + 1
    {
      if from < |call.reactions| {
        PerformCall(call.reactions[from]);
        React(call, from + 1);
      }
    }
  }
}
